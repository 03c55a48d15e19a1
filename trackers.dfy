/**
 * The tracker endpoints (backend/trackers.py): saving the day's mood, sleep and reflection
 * entries, listing them, and reading and merging the user's `memory`. The sentiment model is
 * opaque: the mood save receives it as the function `analyze`.
 */
module Trackers {
  import opened Wrappers
  import opened Http
  import opened Auth
  import opened DailyLogs

  /** `analyze_mental_state`'s result. */
  datatype Sentiment = Sentiment(sentimentLabel: string, score: real)

  /** The fields a mood save stores; `note` may be null. */
  datatype Mood = Mood(moodLevel: int, note: Option<string>, analysis: Sentiment)
  /** The fields a sleep save stores; `hours` is a float that is only stored. */
  datatype Sleep = Sleep(hours: real, quality: int, note: Option<string>)
  /** The field a reflection save stores. */
  datatype Reflection = Reflection(text: string)

  const MoodSaved := "خلق و خو با موفقیت ذخیره شد"
  const SleepSaved := "اطلاعات خواب ذخیره شد"
  const ReflectionSaved := "یادداشت روزانه ذخیره شد"
  /** Points `award_xp` grants for a sleep or reflection save; a mood save grants none. */
  const TrackerXp: int := 5

  /** The mood document's fields: the note is analysed as `note or ""`. */
  function MoodFor(moodLevel: int, note: Option<string>, analyze: string -> Sentiment): (m: Mood)
    ensures m.moodLevel == moodLevel && m.note == note
    ensures (note.None? || note == Some("")) ==> m.analysis == analyze("")
    ensures note.Some? ==> m.analysis == analyze(note.value)
  {
    Mood(moodLevel, note, analyze(note.GetOr("")))
  }

  /** `POST /api/mood-entry`: the caller's entry for today holds the new mood; no xp. */
  method SaveMood(users: UserTable, log: DailyLog<Mood>, decoded: Option<Claims>,
                  moodLevel: int, note: Option<string>, analyze: string -> Sentiment, now: int)
    returns (r: Result<string, HttpError>)
    requires log.Valid()
    modifies log
    ensures log.Valid()
    ensures CurrentUser(users.docs, decoded).Failure? ==>
              r == Failure(CurrentUser(users.docs, decoded).error) &&
              log.entries == old(log.entries) && log.nextId == old(log.nextId)
    ensures CurrentUser(users.docs, decoded).Success? ==>
              r == Success(MoodSaved) &&
              log.entries == Saved(old(log.entries), CurrentUser(users.docs, decoded).value.userId,
                                   MoodFor(moodLevel, note, analyze), now, old(log.nextId))
  {
    var auth := CurrentUser(users.docs, decoded);
    if auth.Failure? {
      return Failure(auth.error);
    }
    log.SaveToday(auth.value.userId, MoodFor(moodLevel, note, analyze), now);
    r := Success(MoodSaved);
  }

  /** `POST /api/sleep-entry`: the caller's entry for today holds the new sleep record, and the
      caller earns 5 xp. */
  method SaveSleep(users: UserTable, log: DailyLog<Sleep>, decoded: Option<Claims>,
                   hours: real, quality: int, note: Option<string>, now: int)
    returns (r: Result<string, HttpError>)
    requires users.Valid() && log.Valid()
    modifies users, log
    ensures users.Valid() && log.Valid()
    ensures CurrentUser(old(users.docs), decoded).Failure? ==>
              r == Failure(CurrentUser(old(users.docs), decoded).error) &&
              log.entries == old(log.entries) && log.nextId == old(log.nextId) &&
              users.docs == old(users.docs)
    ensures CurrentUser(old(users.docs), decoded).Success? ==>
              var uid := CurrentUser(old(users.docs), decoded).value.userId;
              r == Success(SleepSaved) &&
              log.entries == Saved(old(log.entries), uid, Sleep(hours, quality, note), now, old(log.nextId)) &&
              users.docs == Awarded(old(users.docs), uid, TrackerXp)
  {
    var auth := CurrentUser(users.docs, decoded);
    if auth.Failure? {
      return Failure(auth.error);
    }
    log.SaveToday(auth.value.userId, Sleep(hours, quality, note), now);
    var _ := users.AwardXp(auth.value.userId, TrackerXp);
    r := Success(SleepSaved);
  }

  /** `POST /api/daily-reflection`: the caller's entry for today holds the new text, and the
      caller earns 5 xp. */
  method SaveReflection(users: UserTable, log: DailyLog<Reflection>, decoded: Option<Claims>,
                        text: string, now: int)
    returns (r: Result<string, HttpError>)
    requires users.Valid() && log.Valid()
    modifies users, log
    ensures users.Valid() && log.Valid()
    ensures CurrentUser(old(users.docs), decoded).Failure? ==>
              r == Failure(CurrentUser(old(users.docs), decoded).error) &&
              log.entries == old(log.entries) && log.nextId == old(log.nextId) &&
              users.docs == old(users.docs)
    ensures CurrentUser(old(users.docs), decoded).Success? ==>
              var uid := CurrentUser(old(users.docs), decoded).value.userId;
              r == Success(ReflectionSaved) &&
              log.entries == Saved(old(log.entries), uid, Reflection(text), now, old(log.nextId)) &&
              users.docs == Awarded(old(users.docs), uid, TrackerXp)
  {
    var auth := CurrentUser(users.docs, decoded);
    if auth.Failure? {
      return Failure(auth.error);
    }
    log.SaveToday(auth.value.userId, Reflection(text), now);
    var _ := users.AwardXp(auth.value.userId, TrackerXp);
    r := Success(ReflectionSaved);
  }

  // ----- Memory -----

  /** `GET /api/memory`: the caller's memory, empty when the document has none. */
  function GetMemory(users: seq<UserDoc>, decoded: Option<Claims>): (r: Result<Memory, HttpError>)
    ensures r.Failure? <==> CurrentUser(users, decoded).Failure?
    ensures r.Success? ==> r.value == CurrentUser(users, decoded).value.memory.GetOr(map[])
  {
    match CurrentUser(users, decoded)
    case Failure(e) => Failure(e)
    case Success(u) => Success(u.memory.GetOr(map[]))
  }

  /**
   * `dict.update`: every key of `update` takes its new value, and every other key of `memory`
   * keeps its old one; no other key appears.
   */
  function Merge(memory: Memory, update: Memory): (m: Memory)
    ensures m.Keys == memory.Keys + update.Keys
    ensures forall k :: k in update ==> m[k] == update[k]
    ensures forall k :: k in memory && k !in update ==> m[k] == memory[k]
  {
    memory + update
  }

  /** Merging the same update twice is merging it once. */
  lemma MergeIdempotent(memory: Memory, update: Memory)
    ensures Merge(Merge(memory, update), update) == Merge(memory, update)
  {
  }

  /** `PUT /api/memory`: stores and returns the caller's memory merged with the update. */
  method UpdateMemory(users: UserTable, decoded: Option<Claims>, update: Memory)
    returns (r: Result<Memory, HttpError>)
    requires users.Valid()
    modifies users
    ensures users.Valid()
    ensures CurrentUser(old(users.docs), decoded).Failure? ==>
              r == Failure(CurrentUser(old(users.docs), decoded).error) && users.docs == old(users.docs)
    ensures CurrentUser(old(users.docs), decoded).Success? ==>
              var u := CurrentUser(old(users.docs), decoded).value;
              r == Success(Merge(u.memory.GetOr(map[]), update)) &&
              users.docs == WithMemory(old(users.docs), u.userId, r.value)
  {
    var auth := CurrentUser(users.docs, decoded);
    if auth.Failure? {
      return Failure(auth.error);
    }
    var merged := Merge(auth.value.memory.GetOr(map[]), update);
    users.SetMemory(auth.value.userId, merged);
    r := Success(merged);
  }

  /** After an update, reading the memory returns the merged dictionary. */
  lemma MemoryAfterUpdate(users: seq<UserDoc>, decoded: Option<Claims>, update: Memory)
    requires UniqueIds(users)
    requires CurrentUser(users, decoded).Success?
    ensures var u := CurrentUser(users, decoded).value;
      GetMemory(WithMemory(users, u.userId, Merge(u.memory.GetOr(map[]), update)), decoded) ==
        Success(Merge(u.memory.GetOr(map[]), update))
  {
    var u := CurrentUser(users, decoded).value;
    var m := Merge(u.memory.GetOr(map[]), update);
    var i := UserIndex(users, u.userId).value;
    var users' := WithMemory(users, u.userId, m);
    assert users'[i].userId == u.userId;
    assert forall j :: 0 <= j < |users| ==> (HasId(u.userId)(users[j]) <==> HasId(u.userId)(users'[j]));
    Query.FirstIndexAgrees(users, users', HasId(u.userId), HasId(u.userId));
  }
}
