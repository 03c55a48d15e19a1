/**
 * The single-page client (frontend/src/App.js): which page is shown, the signed-in user, the
 * `loading` and `error` flags, the sign-in form, the DASS-21 answers and the last result, and
 * the token kept in browser storage. Each HTTP call is a function parameter standing for what
 * the server answers to the request the handler sends; rendering is not modelled.
 */
module Session {
  import opened Wrappers
  import Json
  import Auth
  import Scoring

  datatype Page = Landing | AuthPage | Dashboard | Dass21 | Results
  datatype AuthMode = Login | Register

  /** The sign-in/sign-up form; `age` is the text of its input field. */
  datatype AuthData = AuthData(
    email: string, password: string, confirmPassword: string, fullName: string,
    age: string, studentLevel: string, consentGiven: bool)

  const EmptyAuthData := AuthData("", "", "", "", "", "", false)

  /** What an axios call ends with: the response body, or an error whose body may carry a
      `detail` value: a text for the server's own errors, a list of objects for a request
      the validation layer rejects (422), absent when no response came back. */
  datatype Outcome<+T> = Ok(data: T) | Err(detail: Option<Json.Value>)

  /** The body of a successful `/api/login` or `/api/register` answer. */
  datatype AuthResponse = AuthResponse(accessToken: string, user: Auth.UserView)

  /** The body `handleAuth` posts. */
  datatype AuthPayload =
    | LoginPayload(email: string, password: string)
    | RegisterPayload(form: AuthData)

  const DefaultAuthError := "خطایی رخ داده است"
  const DassSubmitError := "خطا در ارسال پاسخ‌ها"

  /** Login sends the email and password alone; registration sends the whole form. */
  function Payload(mode: AuthMode, form: AuthData): (p: AuthPayload)
    ensures mode == Login <==> p.LoginPayload?
    ensures p.LoginPayload? ==> p.email == form.email && p.password == form.password
    ensures p.RegisterPayload? ==> p.form == form
  {
    if mode == Login then LoginPayload(form.email, form.password) else RegisterPayload(form)
  }

  /**
   * `error.response?.data?.detail || default`: the server's `detail`, whatever its JSON type,
   * when JavaScript counts it true (a non-empty text, or any list such as a 422's), the fixed
   * default text otherwise. The result is always true in JavaScript's sense.
   */
  function AuthErrorText(detail: Option<Json.Value>): (t: Json.Value)
    ensures Json.JsTruthy(t)
    ensures detail.Some? && Json.JsTruthy(detail.value) ==> t == detail.value
    ensures detail.None? || !Json.JsTruthy(detail.value) ==> t == Json.Str(DefaultAuthError)
  {
    if detail.Some? && Json.JsTruthy(detail.value) then detail.value else Json.Str(DefaultAuthError)
  }

  // ----- The questionnaire -----

  datatype Category = Depression | Anxiety | Stress
  datatype Question = Question(id: int, text: string, category: Category)

  // The question texts.
  const Text1 := "در گذشته یک هفته، من سخت بیان احساساتم کردم"
  const Text2 := "در گذشته یک هفته، من شرایطی را تجربه کردم که باعث خشکی دهانم شد"
  const Text3 := "در گذشته یک هفته، نتوانستم احساس مثبتی داشته باشم"
  const Text4 := "در گذشته یک هفته، مشکل تنفسی داشتم"
  const Text5 := "در گذشته یک هفته، سخت ابتکار عمل پیدا کردم"
  const Text6 := "در گذشته یک هفته، تمایل داشتم روی موقعیت‌ها بیش از حد واکنش نشان دهم"
  const Text7 := "در گذشته یک هفته، لرزش داشتم"
  const Text8 := "در گذشته یک هفته، احساس کردم انرژی زیادی صرف کرده‌ام"
  const Text9 := "در گذشته یک هفته، نگران موقعیت‌هایی بودم که ممکن است پانیک کنم"
  const Text10 := "در گذشته یک هفته، احساس کردم چیزی برای لذت بردن ندارم"
  const Text11 := "در گذشته یک هفته، خودم را آشفته دیدم"
  const Text12 := "در گذشته یک هفته، سخت آرام شدم"
  const Text13 := "در گذشته یک هفته، غمگین و افسرده بودم"
  const Text14 := "در گذشته یک هفته، نسبت به هر چیزی که مرا از ادامه کاری که انجام می‌دادم باز می‌داشت بی‌تابی کردم"
  const Text15 := "در گذشته یک هفته، احساس ترس کردم"
  const Text16 := "در گذشته یک هفته، احساس کردم آینده‌ای ندارم"
  const Text17 := "در گذشته یک هفته، احساس کردم زندگی بی‌معناست"
  const Text18 := "در گذشته یک هفته، تحریک‌پذیر بودم"
  const Text19 := "در گذشته یک هفته، تپش قلب داشتم"
  const Text20 := "در گذشته یک هفته، بدون دلیل مشخص ترسیدم"
  const Text21 := "در گذشته یک هفته، احساس کردم زندگی ارزشی ندارد"

  /** `dass21Questions`. */
  const Dass21Questions: seq<Question> := [
    Question(1, Text1, Depression),
    Question(2, Text2, Anxiety),
    Question(3, Text3, Depression),
    Question(4, Text4, Anxiety),
    Question(5, Text5, Depression),
    Question(6, Text6, Stress),
    Question(7, Text7, Anxiety),
    Question(8, Text8, Stress),
    Question(9, Text9, Anxiety),
    Question(10, Text10, Depression),
    Question(11, Text11, Stress),
    Question(12, Text12, Stress),
    Question(13, Text13, Depression),
    Question(14, Text14, Stress),
    Question(15, Text15, Anxiety),
    Question(16, Text16, Depression),
    Question(17, Text17, Depression),
    Question(18, Text18, Stress),
    Question(19, Text19, Anxiety),
    Question(20, Text20, Anxiety),
    Question(21, Text21, Depression)
  ]

  /** The values of the four radio buttons of a question. */
  const OptionValues: seq<int> := [0, 1, 2, 3]

  /** The integers from `lo` up to, not including, `hi`. */
  function Range(lo: int, hi: int): (r: set<int>)
    ensures forall k :: k in r <==> lo <= k < hi
    ensures |r| == if lo <= hi then hi - lo else 0
    decreases hi - lo
  {
    if lo >= hi then {} else {lo} + Range(lo + 1, hi)
  }

  /** The question ids run from 1 to 21. */
  predicate IsQuestionId(k: int) {
    1 <= k <= 21
  }

  /** The question ids are 1 to 21 in order, hence distinct. */
  lemma QuestionIdsInOrder()
    ensures |Dass21Questions| == 21
    ensures forall i :: 0 <= i < 21 ==> Dass21Questions[i].id == i + 1
    ensures forall q :: q in Dass21Questions ==> IsQuestionId(q.id)
  {
  }

  /** The `index`-th question has id `index + 1`. */
  lemma QuestionIdAt(index: nat)
    requires index < |Dass21Questions|
    ensures Dass21Questions[index].id == index + 1 && IsQuestionId(Dass21Questions[index].id)
  {
    QuestionIdsInOrder();
  }

  /**
   * The category tags do not match the backend's scoring lists: question 1 is tagged as a
   * depression item but scored as a stress item, so 8, 7 and 6 questions carry the three tags
   * where each subscale scores 7. Every other question's tag names the list that scores it.
   */
  lemma CategoryTagsDisagreeWithScoring()
    ensures Dass21Questions[0].id == 1 && Dass21Questions[0].category == Depression
    ensures 1 in Scoring.StressItems && 1 !in Scoring.DepressionItems
    ensures forall i :: 1 <= i < |Dass21Questions| ==>
              (Dass21Questions[i].category == Depression <==> Dass21Questions[i].id in Scoring.DepressionItems) &&
              (Dass21Questions[i].category == Anxiety <==> Dass21Questions[i].id in Scoring.AnxietyItems) &&
              (Dass21Questions[i].category == Stress <==> Dass21Questions[i].id in Scoring.StressItems)
  {
  }

  /** Answers whose keys are question ids and whose values are radio-button values. */
  ghost predicate WellFormedAnswers(answers: map<int, int>) {
    (forall k :: k in answers ==> IsQuestionId(k)) &&
    (forall k :: k in answers ==> answers[k] in OptionValues)
  }

  /** The `disabled` expression of the DASS submit button, negated. */
  predicate DassSubmitEnabled(loading: bool, answers: map<int, int>) {
    !loading && |answers.Keys| == 21
  }

  /** The `disabled` expression of the sign-in/sign-up button, negated. */
  predicate AuthSubmitEnabled(loading: bool, mode: AuthMode, form: AuthData) {
    !(loading || (mode == Register && !form.consentGiven))
  }

  /**
   * With answers recorded only through the radio buttons, the DASS button is enabled exactly
   * when nothing is loading and every one of the 21 questions has an answer.
   */
  lemma DassGateMeansComplete(loading: bool, answers: map<int, int>)
    requires WellFormedAnswers(answers)
    ensures DassSubmitEnabled(loading, answers) <==>
              !loading && forall k :: IsQuestionId(k) ==> k in answers
  {
    KeysFillRange(answers.Keys, 21);
  }

  /** A set of `n` integers drawn from 1 to `n` holds every one of them, and conversely. */
  lemma KeysFillRange(keys: set<int>, n: nat)
    requires forall k :: k in keys ==> 1 <= k <= n
    ensures |keys| == n <==> forall k :: 1 <= k <= n ==> k in keys
  {
    var ids := Range(1, n + 1);
    assert keys <= ids;
    if |keys| == n {
      assert |ids - keys| == |ids| - |keys| == 0;
      assert ids == keys;
    }
    if forall k :: 1 <= k <= n ==> k in keys {
      assert ids == keys;
    }
  }

  /** The sign-in button ignores the consent box; the sign-up button needs it ticked. */
  lemma AuthGate(loading: bool, form: AuthData)
    ensures AuthSubmitEnabled(loading, Login, form) <==> !loading
    ensures AuthSubmitEnabled(loading, Register, form) <==> !loading && form.consentGiven
  {
  }

  // ----- The component state -----

  class App {
    var page: Page
    var user: Option<Auth.UserView>
    var loading: bool
    /** The `error` state; `handleAuth` can store a non-text `detail` in it. */
    var error: Json.Value
    var authMode: AuthMode
    var authData: AuthData
    var dassResponses: map<int, int>
    var dassResults: Option<Scoring.DassResult>
    /** `localStorage["token"]`. */
    var token: Option<string>

    /** The signed-in pages have a user, and the answers come from the radio buttons. */
    ghost predicate Valid()
      reads this
    {
      (page in {Dashboard, Dass21, Results} ==> user.Some?) &&
      WellFormedAnswers(dassResponses)
    }

    /** The first render, with whatever token the browser has kept. */
    constructor (stored: Option<string>)
      ensures Valid()
      ensures page == Landing && user == None && !loading && error == Json.Str("")
      ensures authMode == Login && authData == EmptyAuthData
      ensures dassResponses == map[] && dassResults == None && token == stored
    {
      page := Landing;
      user := None;
      loading := false;
      error := Json.Str("");
      authMode := Login;
      authData := EmptyAuthData;
      dassResponses := map[];
      dassResults := None;
      token := stored;
    }

    /**
     * The mount effect: with a non-empty stored token the profile is fetched with it; on
     * success the user is set and the dashboard shown, on failure the token is dropped and the
     * page stays. With no token nothing happens.
     */
    method Startup(fetchProfile: string -> Outcome<Auth.UserView>)
      requires Valid()
      modifies this
      ensures Valid()
      ensures old(token).None? || old(token) == Some("") ==>
                page == old(page) && user == old(user) && token == old(token)
      ensures old(token).Some? && old(token) != Some("") && fetchProfile(old(token).value).Ok? ==>
                user == Some(fetchProfile(old(token).value).data) && page == Dashboard &&
                token == old(token)
      ensures old(token).Some? && old(token) != Some("") && fetchProfile(old(token).value).Err? ==>
                token == None && page == old(page) && user == old(user)
      ensures loading == old(loading) && error == old(error) && authMode == old(authMode) &&
              authData == old(authData) && dassResponses == old(dassResponses) &&
              dassResults == old(dassResults)
    {
      if token.Some? && token.value != "" {
        var outcome := fetchProfile(token.value);
        if outcome.Ok? {
          user := Some(outcome.data);
          page := Dashboard;
        } else {
          token := None;
        }
      }
    }

    /**
     * `handleAuth`: posts `Payload(authMode, authData)` to the login or register endpoint. On
     * success the token is stored, the user set and the dashboard shown; on failure the error
     * text is set and the page kept. Either way `loading` ends false.
     */
    method HandleAuth(server: AuthPayload -> Outcome<AuthResponse>)
      requires Valid()
      modifies this
      ensures Valid()
      ensures var outcome := server(Payload(old(authMode), old(authData)));
        (outcome.Ok? ==>
           token == Some(outcome.data.accessToken) && user == Some(outcome.data.user) &&
           page == Dashboard && error == Json.Str("")) &&
        (outcome.Err? ==>
           error == AuthErrorText(outcome.detail) && page == old(page) && user == old(user) &&
           token == old(token))
      ensures !loading
      ensures authMode == old(authMode) && authData == old(authData) &&
              dassResponses == old(dassResponses) && dassResults == old(dassResults)
    {
      loading := true;
      error := Json.Str("");
      var outcome := server(Payload(authMode, authData));
      if outcome.Ok? {
        token := Some(outcome.data.accessToken);
        user := Some(outcome.data.user);
        page := Dashboard;
      } else {
        error := AuthErrorText(outcome.detail);
      }
      loading := false;
    }

    /** `handleLogout`: drops the token and the user, shows the landing page and empties the
        form; the answers and the last result are kept. */
    method Logout()
      requires Valid()
      modifies this
      ensures Valid()
      ensures token == None && user == None && page == Landing && authData == EmptyAuthData
      ensures loading == old(loading) && error == old(error) && authMode == old(authMode) &&
              dassResponses == old(dassResponses) && dassResults == old(dassResults)
    {
      token := None;
      user := None;
      page := Landing;
      authData := EmptyAuthData;
    }

    /** The toggle under the form: switches between signing in and signing up. */
    method ToggleAuthMode()
      requires Valid()
      modifies this
      ensures Valid()
      ensures authMode == (if old(authMode) == Login then Register else Login)
      ensures page == old(page) && user == old(user) && loading == old(loading) &&
              error == old(error) && authData == old(authData) &&
              dassResponses == old(dassResponses) && dassResults == old(dassResults) &&
              token == old(token)
    {
      authMode := if authMode == Login then Register else Login;
    }

    /** The landing page's start button. */
    method OpenAuth()
      requires Valid() && page == Landing
      modifies this
      ensures Valid()
      ensures page == AuthPage
      ensures user == old(user) && loading == old(loading) && error == old(error) &&
              authMode == old(authMode) && authData == old(authData) &&
              dassResponses == old(dassResponses) && dassResults == old(dassResults) &&
              token == old(token)
    {
      page := AuthPage;
    }

    /** The dashboard's DASS-21 card. */
    method OpenDass21()
      requires Valid() && page == Dashboard
      modifies this
      ensures Valid()
      ensures page == Dass21
      ensures user == old(user) && loading == old(loading) && error == old(error) &&
              authMode == old(authMode) && authData == old(authData) &&
              dassResponses == old(dassResponses) && dassResults == old(dassResults) &&
              token == old(token)
    {
      page := Dass21;
    }

    /** The back buttons of the questionnaire and the results page. */
    method BackToDashboard()
      requires Valid() && page in {Dass21, Results}
      modifies this
      ensures Valid()
      ensures page == Dashboard
      ensures user == old(user) && loading == old(loading) && error == old(error) &&
              authMode == old(authMode) && authData == old(authData) &&
              dassResponses == old(dassResponses) && dassResults == old(dassResults) &&
              token == old(token)
    {
      page := Dashboard;
    }

    /** The `onChange` of a radio button of the `index`-th question: that question's answer
        becomes the button's value, and every other answer stays. */
    method RecordAnswer(index: nat, value: int)
      requires Valid() && index < |Dass21Questions| && value in OptionValues
      modifies this
      ensures Valid()
      ensures dassResponses == old(dassResponses)[Dass21Questions[index].id := value]
      ensures forall k :: k in old(dassResponses) && k != Dass21Questions[index].id ==>
                k in dassResponses && dassResponses[k] == old(dassResponses)[k]
      ensures page == old(page) && user == old(user) && loading == old(loading) &&
              error == old(error) && authMode == old(authMode) && authData == old(authData) &&
              dassResults == old(dassResults) && token == old(token)
    {
      QuestionIdAt(index);
      var id := Dass21Questions[index].id;
      dassResponses := dassResponses[id := value];
    }

    /**
     * `submitDASS21`: posts the answers with the stored token. On success the server's result
     * is kept as it came and the results page shown; on failure the fixed error text is set and
     * the page kept. Either way `loading` ends false. The handler itself does not look at the
     * button's gate.
     */
    method SubmitDass21(server: (Option<string>, map<int, int>) -> Outcome<Scoring.DassResult>)
      requires Valid() && page == Dass21
      modifies this
      ensures Valid()
      ensures server(old(token), old(dassResponses)).Ok? ==>
                dassResults == Some(server(old(token), old(dassResponses)).data) &&
                page == Results && error == old(error)
      ensures server(old(token), old(dassResponses)).Err? ==>
                error == Json.Str(DassSubmitError) && page == Dass21 && dassResults == old(dassResults)
      ensures !loading
      ensures user == old(user) && authMode == old(authMode) && authData == old(authData) &&
              dassResponses == old(dassResponses) && token == old(token)
    {
      loading := true;
      var outcome := server(token, dassResponses);
      if outcome.Ok? {
        dassResults := Some(outcome.data);
        page := Results;
      } else {
        error := Json.Str(DassSubmitError);
      }
      loading := false;
    }
  }
}
