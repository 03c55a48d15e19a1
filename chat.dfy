/**
 * The rule-based chat reply (`generate_chat_response` in backend/trackers.py): the message,
 * lower-cased, is matched against six keyword groups in a fixed order, and the first group
 * with a keyword occurring anywhere in it picks the reply list; a greeting also addresses the
 * user by the name kept in memory. `random.choice` becomes the parameter `choice`, of which
 * only the remainder modulo the list length matters; Python's `repr` of a list or object
 * nickname is the parameter `containerRepr`.
 */
module Chat {
  import opened Wrappers
  import Query
  import Auth
  import Json

  datatype Topic = Greeting | Sad | Happy | Worry | Study | Sleep | Default

  /** The order in which the groups are tried. */
  const Groups: seq<Topic> := [Greeting, Sad, Happy, Worry, Study, Sleep]

  const GreetingKeywords: seq<string> := ["سلام", "درود", "hi", "hello"]
  const SadKeywords: seq<string> := ["غمگین", "ناراحت", "افسرده", "بد"]
  const HappyKeywords: seq<string> := ["خوب", "عالی", "خوشحال", "شاد"]
  const WorryKeywords: seq<string> := ["نگران", "اضطراب", "ترس", "استرس"]
  const StudyKeywords: seq<string> := ["درس", "امتحان", "کار", "دانشگاه", "مطالعه"]
  const SleepKeywords: seq<string> := ["خواب", "بیدار", "خستگی"]

  function Keywords(t: Topic): seq<string> {
    match t
    case Greeting => GreetingKeywords
    case Sad => SadKeywords
    case Happy => HappyKeywords
    case Worry => WorryKeywords
    case Study => StudyKeywords
    case Sleep => SleepKeywords
    case Default => []
  }

  const GreetingReplies: seq<string> := ["امیدوارم حال شما خوب باشد. چطور می‌توانم کمکتان کنم؟", "من اینجا هستم تا گوش دهم. امروز چطور احساس می‌کنید؟", "خوشحالم که اینجا هستید. چه چیزی در ذهنتان است؟"]
  const SadReplies: seq<string> := ["متأسفم که این‌طور احساس می‌کنید. این احساسات گاهی طبیعی هستند. می‌خواهید درباره‌اش صحبت کنیم؟", "درک می‌کنم که حال شما خوب نیست. چه چیزی باعث این احساس شده؟", "احساسات شما مهم هستند. آیا امروز اتفاق خاصی افتاده؟"]
  const HappyReplies: seq<string> := ["چه خبر خوبی! خوشحالم که حالتان خوب است. این انرژی مثبت را حفظ کنید.", "فوق‌العاده! چه چیزی باعث این حس خوب شده؟", "عالی است! این لحظات خوب را قدر بدانید."]
  const WorryReplies: seq<string> := ["اضطراب و نگرانی بخش طبیعی زندگی هستند. بیایید روی تکنیک‌های تنفس کار کنیم. ۴ ثانیه نفس بکشید، ۷ ثانیه نگه دارید، ۸ ثانیه آرام بدهید.", "درک می‌کنم که احساس نگرانی دارید. گاهی کمک می‌کند که روی چیزهایی که می‌توانید کنترل کنید تمرکز کنید.", "استرس می‌تواند سخت باشد. آیا تا الان تکنیک‌های آرام‌سازی امتحان کرده‌اید؟"]
  const StudyReplies: seq<string> := ["فشار تحصیلی و کاری چالش بزرگی است. مهم این است که تعادل داشته باشید. برنامه‌ریزی و استراحت منظم کمک می‌کند.", "درک می‌کنم که فشار درسی سنگین است. آیا زمان کافی برای استراحت و تفریح در نظر گرفته‌اید؟", "موفقیت تحصیلی مهم است، اما سلامتی شما مهم‌تر است. چگونه از خودتان مراقبت می‌کنید؟"]
  const SleepReplies: seq<string> := ["خواب خوب برای سلامت روان ضروری است. آیا قبل از خواب از گوشی و صفحه‌نمایش دوری می‌کنید؟", "مشکلات خواب می‌تواند روی حال و احوال تأثیر بگذارد. آیا برنامه ثابت خواب دارید؟", "برای خواب بهتر، می‌توانید قبل از خواب مدیتیشن یا تنفس عمیق انجام دهید."]
  const DefaultReplies: seq<string> := ["درک می‌کنم. گاهی صحبت کردن کمک می‌کند. چه چیز دیگری در ذهنتان است؟", "ممنون که با من در میان گذاشتید. چگونه می‌توانم بهتر کمکتان کنم؟", "احساسات شما مهم هستند. آیا تکنیک‌های آرام‌سازی یاد گرفته‌اید؟", "هر چه احساس می‌کنید طبیعی است. مهم این است که مراقب خودتان باشید.", "اگر احساس کردید نیاز به کمک حرفه‌ای دارید، لطفاً با مشاور یا روان‌شناس صحبت کنید."]

  function Replies(t: Topic): (r: seq<string>)
    ensures |r| == if t == Default then 5 else 3
  {
    match t
    case Greeting => GreetingReplies
    case Sad => SadReplies
    case Happy => HappyReplies
    case Worry => WorryReplies
    case Study => StudyReplies
    case Sleep => SleepReplies
    case Default => DefaultReplies
  }

  /** `str.lower` on the letters A to Z; Persian letters have no case. */
  function LowerChar(c: char): char {
    if 'A' <= c <= 'Z' then (c as int + 32) as char else c
  }

  function Lower(s: string): (r: string)
    ensures |r| == |s| && forall i :: 0 <= i < |s| ==> r[i] == LowerChar(s[i])
  {
    seq(|s|, i requires 0 <= i < |s| => LowerChar(s[i]))
  }

  /** Python's `word in text`: `word` occurs as a substring, not necessarily as a word. */
  predicate Occurs(word: string, text: string) {
    exists i :: 0 <= i <= |text| && word <= text[i..]
  }

  /** `any(word in message_lower for word in keywords)`. */
  predicate Mentions(message: string, t: Topic) {
    exists w :: w in Keywords(t) && Occurs(w, Lower(message))
  }

  function MentionedIn(message: string): Topic -> bool {
    (t: Topic) => Mentions(message, t)
  }

  /**
   * The group the if/elif chain picks: the first group, in the fixed order, whose keywords the
   * message mentions; the default replies when it mentions none.
   */
  function Route(message: string): (t: Topic)
    ensures t != Default ==> t in Groups && Mentions(message, t)
    ensures t != Default ==> forall j :: 0 <= j < |Groups| && Groups[j] == t ==>
              forall k :: 0 <= k < j ==> !Mentions(message, Groups[k])
    ensures t == Default <==> forall g :: g in Groups ==> !Mentions(message, g)
  {
    match Query.FirstIndex(Groups, MentionedIn(message))
    case None =>
      assert forall j :: 0 <= j < |Groups| ==> !MentionedIn(message)(Groups[j]);
      Default
    case Some(i) =>
      assert forall k :: 0 <= k < i ==> !MentionedIn(message)(Groups[k]);
      Groups[i]
  }

  /**
   * `memory.get("name") or memory.get("nickname")`, then tested with `if nickname`: the name
   * when it is truthy, else the nickname when it is, else nothing.
   */
  function Nickname(memory: Auth.Memory): (r: Option<Json.Value>)
    ensures r.Some? ==> Json.Truthy(r.value)
    ensures r.Some? <==> ("name" in memory && Json.Truthy(memory["name"])) ||
                         ("nickname" in memory && Json.Truthy(memory["nickname"]))
    ensures "name" in memory && Json.Truthy(memory["name"]) ==> r == Some(memory["name"])
    ensures r.Some? && !("name" in memory && Json.Truthy(memory["name"])) ==> r == Some(memory["nickname"])
  {
    if "name" in memory && Json.Truthy(memory["name"]) then Some(memory["name"])
    else if "nickname" in memory && Json.Truthy(memory["nickname"]) then Some(memory["nickname"])
    else None
  }

  /** The greeting's opening words, with the nickname rendered as the f-string does. */
  function Salutation(nickname: Option<Json.Value>, containerRepr: Json.Value -> string): string {
    match nickname
    case Some(n) => "سلام " + Json.Display(n, containerRepr) + "!"
    case None => "سلام!"
  }

  /** The reply to `message`: the `choice`-th entry (cyclically) of the routed group's list,
      after the salutation for a greeting. */
  function Reply(message: string, memory: Auth.Memory, choice: nat, containerRepr: Json.Value -> string)
    : (r: string)
    ensures Route(message) != Greeting ==> r in Replies(Route(message))
    ensures Route(message) == Greeting ==>
              exists k :: 0 <= k < |Replies(Greeting)| &&
                r == Salutation(Nickname(memory), containerRepr) + " " + Replies(Greeting)[k]
  {
    TopicReply(Route(message), memory, choice, containerRepr)
  }

  /** The reply for a routed group. */
  function TopicReply(t: Topic, memory: Auth.Memory, choice: nat, containerRepr: Json.Value -> string)
    : string
  {
    var pick := Pick(Replies(t), choice);
    if t == Greeting then Salutation(Nickname(memory), containerRepr) + " " + pick else pick
  }

  /** `random.choice(list)` with the draw `choice`. */
  function Pick(list: seq<string>, choice: nat): (r: string)
    requires |list| > 0
    ensures r in list && r == list[choice % |list|]
  {
    list[choice % |list|]
  }

  /** Every entry of the routed list is the reply for some choice: the draw can give any of them. */
  lemma EveryReplyReachable(message: string, memory: Auth.Memory, k: nat, containerRepr: Json.Value -> string)
    requires k < |Replies(Route(message))|
    ensures Reply(message, memory, k, containerRepr) ==
              (if Route(message) == Greeting then Salutation(Nickname(memory), containerRepr) + " " else "") +
              Replies(Route(message))[k]
  {
    TopicReplyAt(Route(message), memory, k, containerRepr);
  }

  lemma TopicReplyAt(t: Topic, memory: Auth.Memory, k: nat, containerRepr: Json.Value -> string)
    requires k < |Replies(t)|
    ensures TopicReply(t, memory, k, containerRepr) ==
              (if t == Greeting then Salutation(Nickname(memory), containerRepr) + " " else "") + Replies(t)[k]
  {
    var list := Replies(t);
    assert k % |list| == k;
    assert Pick(list, k) == list[k];
    if t != Greeting {
      assert "" + list[k] == list[k];
    }
  }

  /** The greeting is the first group tried: a message that greets and also mentions sadness is
      answered as a greeting. */
  lemma GreetingTakesPriority(message: string)
    requires Mentions(message, Greeting)
    ensures Route(message) == Greeting
  {
  }

  /** Keywords match inside words: "think" contains "hi", so it is answered as a greeting. */
  lemma SubstringMatch()
    ensures Route("I think") == Greeting
  {
    var m := Lower("I think");
    assert m == "i think";
    assert "hi" <= m[3..];
    assert Occurs("hi", m);
    assert MentionedIn("I think")(Groups[0]);
  }
}
