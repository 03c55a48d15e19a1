/**
 * Accounts (backend/auth.py): the users collection, registration, login, the bearer-token
 * check every protected endpoint depends on, the profile projection, and `award_xp`.
 *
 * The collection is a sequence of user documents in insertion order; `find_one` is the first
 * match (`Query.FirstIndex`). bcrypt and JWT are opaque: registration receives the password
 * hash, login receives the password check, and the token check receives the outcome of
 * decoding (`None` for any decoding failure, including an expired token).
 */
module Auth {
  import opened Wrappers
  import opened Http
  import Query
  import GamificationRules
  import Json

  /** A `user_id`: uuid4 strings become numbers drawn from a counter, so they are fresh. */
  type UserId = nat

  /** A user's `memory` dictionary: any JSON value under each key. */
  type Memory = map<string, Json.Value>

  /**
   * A stored user document. `xp`, `level`, `memory` and `badges` are read with `.get(key,
   * default)`, so a document may lack them.
   */
  datatype UserDoc = UserDoc(
    userId: UserId, email: string, password: string, fullName: string, age: int,
    studentLevel: string, consentGiven: bool, createdAt: int, lastLogin: int,
    xp: Option<int>, level: Option<int>, memory: Option<Memory>, badges: Option<seq<string>>)

  /** The user record sent to clients by register, login and profile. It has no password. */
  datatype UserView = UserView(
    userId: UserId, email: string, fullName: string, age: int, studentLevel: string,
    xp: int, level: int, memory: Memory, badges: seq<string>)

  /** The payload of a bearer token once decoded: `sub` may be missing. */
  datatype Claims = Claims(sub: Option<UserId>)

  const AccessTokenMinutes: int := 30

  /** `create_access_token({"sub": sub})`: the token's subject and its expiry instant. */
  datatype AccessToken = AccessToken(sub: UserId, expires: int)

  function CreateAccessToken(sub: UserId, now: int): (t: AccessToken)
    ensures t.sub == sub && t.expires - now == AccessTokenMinutes * 60
  {
    AccessToken(sub, now + AccessTokenMinutes * 60)
  }

  ghost predicate UniqueIds(docs: seq<UserDoc>) {
    forall i, j :: 0 <= i < j < |docs| ==> docs[i].userId != docs[j].userId
  }

  function HasId(uid: UserId): UserDoc -> bool {
    (u: UserDoc) => u.userId == uid
  }

  function HasEmail(email: string): UserDoc -> bool {
    (u: UserDoc) => u.email == email
  }

  /** `db.users.find_one({"user_id": uid})`. */
  function UserIndex(docs: seq<UserDoc>, uid: UserId): Option<nat> {
    Query.FirstIndex(docs, HasId(uid))
  }

  ghost predicate EmailRegistered(docs: seq<UserDoc>, email: string) {
    exists i :: 0 <= i < |docs| && docs[i].email == email
  }

  // ----- get_current_user -----

  /**
   * `get_current_user`: the stored user the token names. A token that does not decode, one
   * without `sub`, and one naming no stored user all fail with 401.
   */
  function CurrentUser(docs: seq<UserDoc>, decoded: Option<Claims>): (r: Result<UserDoc, HttpError>)
    ensures r.Failure? ==> r.error.status == 401
    ensures r.Failure? ==> (r.error == UserNotFound401 <==> decoded.Some? && decoded.value.sub.Some?)
    ensures r.Success? <==>
              decoded.Some? && decoded.value.sub.Some? &&
              exists i :: 0 <= i < |docs| && docs[i].userId == decoded.value.sub.value
    ensures r.Success? ==> r.value in docs && r.value.userId == decoded.value.sub.value
    ensures r.Success? ==> UserIndex(docs, r.value.userId).Some? &&
                           docs[UserIndex(docs, r.value.userId).value] == r.value
  {
    match decoded
    case None => Failure(CouldNotValidate)
    case Some(claims) =>
      match claims.sub
      case None => Failure(CouldNotValidate)
      case Some(uid) =>
        match UserIndex(docs, uid)
        case None =>
          assert forall i :: 0 <= i < |docs| ==> !HasId(uid)(docs[i]);
          Failure(UserNotFound401)
        case Some(i) => Success(docs[i])
  }

  // ----- Profile -----

  /** `get_profile` and the login response: the stored fields with the defaults xp 0, level 1,
      empty memory and no badges. */
  function Profile(u: UserDoc): (v: UserView)
    ensures v.userId == u.userId && v.email == u.email && v.fullName == u.fullName &&
            v.age == u.age && v.studentLevel == u.studentLevel
    ensures v.xp == (if u.xp.Some? then u.xp.value else 0)
    ensures v.level == (if u.level.Some? then u.level.value else 1)
    ensures v.memory == (if u.memory.Some? then u.memory.value else map[])
    ensures v.badges == (if u.badges.Some? then u.badges.value else [])
  {
    UserView(u.userId, u.email, u.fullName, u.age, u.studentLevel,
             u.xp.GetOr(0), u.level.GetOr(1), u.memory.GetOr(map[]), u.badges.GetOr([]))
  }

  /** `GET /api/profile`. */
  function GetProfile(docs: seq<UserDoc>, decoded: Option<Claims>): (r: Result<UserView, HttpError>)
    ensures r.Failure? <==> CurrentUser(docs, decoded).Failure?
    ensures r.Failure? ==> r.error == CurrentUser(docs, decoded).error
    ensures r.Success? ==> r.value == Profile(CurrentUser(docs, decoded).value)
    ensures r.Success? ==> r.value.userId == decoded.value.sub.value
  {
    match CurrentUser(docs, decoded)
    case Failure(e) => Failure(e)
    case Success(u) => Success(Profile(u))
  }

  // ----- Registration -----

  datatype Registration = Registration(
    email: string, password: string, confirmPassword: string, fullName: string, age: int,
    studentLevel: string, consentGiven: bool)

  const ConsentRequired := HttpError(400, "رضایت‌نامه باید تایید شود")
  const PasswordsDiffer := HttpError(400, "رمز عبور و تکرار آن یکسان نیستند")
  const EmailTaken := HttpError(400, "کاربری با این ایمیل قبلاً ثبت‌نام کرده است")
  const BadCredentials := HttpError(400, "ایمیل یا رمز عبور اشتباه است")

  /**
   * The checks `register_user` makes before it inserts, in their order: consent first, then the
   * password confirmation, then an existing account with the same email. The first that fails
   * decides the 400 response.
   */
  function RegistrationError(docs: seq<UserDoc>, data: Registration): (r: Option<HttpError>)
    ensures r.Some? ==> r.value.status == 400
    ensures !data.consentGiven ==> r == Some(ConsentRequired)
    ensures data.consentGiven && data.password != data.confirmPassword ==> r == Some(PasswordsDiffer)
    ensures data.consentGiven && data.password == data.confirmPassword ==>
              (r == Some(EmailTaken) <==> EmailRegistered(docs, data.email))
    ensures r.None? <==>
              data.consentGiven && data.password == data.confirmPassword &&
              !EmailRegistered(docs, data.email)
  {
    if !data.consentGiven then Some(ConsentRequired)
    else if data.password != data.confirmPassword then Some(PasswordsDiffer)
    else
      match Query.FirstIndex(docs, HasEmail(data.email))
      case Some(_) => Some(EmailTaken)
      case None =>
        assert forall i :: 0 <= i < |docs| ==> !HasEmail(data.email)(docs[i]);
        None
  }

  /** The document `register_user` inserts: no xp yet, level 1, empty memory, no badges. */
  function NewUser(uid: UserId, data: Registration, hashed: string, now: int): UserDoc {
    UserDoc(uid, data.email, hashed, data.fullName, data.age, data.studentLevel,
            data.consentGiven, now, now, Some(0), Some(1), Some(map[]), Some([]))
  }

  /** The `user` record of the registration response. */
  function RegisteredView(uid: UserId, data: Registration): UserView {
    UserView(uid, data.email, data.fullName, data.age, data.studentLevel, 0, 1, map[], [])
  }

  /** The registration response is what the profile endpoint later shows for the new account,
      and its level and badges are the ones the award rule gives to zero points. */
  lemma RegisteredViewIsProfile(uid: UserId, data: Registration, hashed: string, now: int)
    ensures Profile(NewUser(uid, data, hashed, now)) == RegisteredView(uid, data)
    ensures var s := GamificationRules.LevelAndBadges(0);
      NewUser(uid, data, hashed, now).level == Some(s.level) &&
      NewUser(uid, data, hashed, now).badges == Some(s.badges)
  {
  }

  /** Once an account is created, registering the same email again fails with "email taken"
      (when consent and confirmation pass). */
  lemma SecondRegistrationRejected(docs: seq<UserDoc>, data: Registration, uid: UserId,
                                   hashed: string, now: int)
    requires RegistrationError(docs, data).None?
    ensures RegistrationError(docs + [NewUser(uid, data, hashed, now)], data) == Some(EmailTaken)
  {
    var docs' := docs + [NewUser(uid, data, hashed, now)];
    assert docs'[|docs|].email == data.email;
  }

  // ----- Login -----

  /**
   * The document a login attempt succeeds on: the first account with that email, provided the
   * password checks against its hash. An unknown email and a wrong password are not told apart.
   */
  function LoginTarget(docs: seq<UserDoc>, email: string, password: string,
                       verify: (string, string) -> bool): (r: Option<nat>)
    ensures r.Some? ==> r.value < |docs| && docs[r.value].email == email &&
                        verify(password, docs[r.value].password)
    ensures r.None? <==>
              !EmailRegistered(docs, email) ||
              (exists i :: 0 <= i < |docs| && docs[i].email == email &&
                 (forall j :: 0 <= j < i ==> docs[j].email != email) &&
                 !verify(password, docs[i].password))
  {
    match Query.FirstIndex(docs, HasEmail(email))
    case None =>
      assert forall i :: 0 <= i < |docs| ==> !HasEmail(email)(docs[i]);
      None
    case Some(i) =>
      assert forall j :: 0 <= j < i ==> !HasEmail(email)(docs[j]);
      if verify(password, docs[i].password) then Some(i) else None
  }

  // ----- award_xp -----

  /** What `award_xp` returns for a known user: the new total and its level and badges. */
  datatype XpStatus = XpStatus(xp: int, level: int, badges: seq<string>)

  function StatusFor(xp: int): XpStatus {
    var s := GamificationRules.LevelAndBadges(xp);
    XpStatus(xp, s.level, s.badges)
  }

  function WithXp(u: UserDoc, xp: int): UserDoc {
    var s := StatusFor(xp);
    u.(xp := Some(s.xp), level := Some(s.level), badges := Some(s.badges))
  }

  /** The users collection after `award_xp(uid, amount)`. */
  function Awarded(docs: seq<UserDoc>, uid: UserId, amount: int): (r: seq<UserDoc>)
    ensures |r| == |docs|
    ensures forall j :: 0 <= j < |docs| ==> r[j].userId == docs[j].userId && r[j].email == docs[j].email
    ensures UserIndex(docs, uid).None? ==> r == docs
  {
    match UserIndex(docs, uid)
    case None => docs
    case Some(i) => docs[i := WithXp(docs[i], docs[i].xp.GetOr(0) + amount)]
  }

  /** The users collection after a successful login stamps `last_login`. */
  function Touched(docs: seq<UserDoc>, uid: UserId, now: int): seq<UserDoc> {
    match UserIndex(docs, uid)
    case None => docs
    case Some(i) => docs[i := docs[i].(lastLogin := now)]
  }

  /** The users collection after `update_memory` stores `memory` for `uid`. */
  function WithMemory(docs: seq<UserDoc>, uid: UserId, memory: Memory): seq<UserDoc> {
    match UserIndex(docs, uid)
    case None => docs
    case Some(i) => docs[i := docs[i].(memory := Some(memory))]
  }

  /**
   * `award_xp`: an unknown user changes nothing. Otherwise exactly that user's document
   * changes; its xp becomes the old xp (0 when absent) plus `amount`, its level and badges are
   * the award rule's for the new total, and every other field is kept.
   */
  lemma AwardedSpec(docs: seq<UserDoc>, uid: UserId, amount: int)
    requires UniqueIds(docs)
    ensures |Awarded(docs, uid, amount)| == |docs|
    ensures UniqueIds(Awarded(docs, uid, amount))
    ensures (forall i :: 0 <= i < |docs| ==> docs[i].userId != uid) ==> Awarded(docs, uid, amount) == docs
    ensures forall i :: 0 <= i < |docs| && docs[i].userId != uid ==> Awarded(docs, uid, amount)[i] == docs[i]
    ensures forall i :: 0 <= i < |docs| && docs[i].userId == uid ==>
              var u := Awarded(docs, uid, amount)[i];
              var s := GamificationRules.LevelAndBadges(docs[i].xp.GetOr(0) + amount);
              u.xp == Some(docs[i].xp.GetOr(0) + amount) && u.level == Some(s.level) &&
              u.badges == Some(s.badges) &&
              u.(xp := docs[i].xp, level := docs[i].level, badges := docs[i].badges) == docs[i]
  {
  }

  /** Two awards to one user add up: they leave the collection as one award of the sum. */
  lemma AwardsCompose(docs: seq<UserDoc>, uid: UserId, a: int, b: int)
    requires UniqueIds(docs)
    ensures Awarded(Awarded(docs, uid, a), uid, b) == Awarded(docs, uid, a + b)
  {
    match UserIndex(docs, uid)
    case None =>
    case Some(i) =>
      var once := Awarded(docs, uid, a);
      assert forall j :: 0 <= j < |once| ==> (HasId(uid)(once[j]) <==> HasId(uid)(docs[j]));
      assert UserIndex(once, uid) == Some(i) by {
        Query.FirstIndexAgrees(docs, once, HasId(uid), HasId(uid));
      }
  }

  /** A successful login changes no user's visible profile: only `last_login` moves. */
  lemma TouchKeepsProfiles(docs: seq<UserDoc>, uid: UserId, now: int)
    ensures |Touched(docs, uid, now)| == |docs|
    ensures forall i :: 0 <= i < |docs| ==>
              Profile(Touched(docs, uid, now)[i]) == Profile(docs[i]) &&
              Touched(docs, uid, now)[i].(lastLogin := docs[i].lastLogin) == docs[i]
  {
  }

  /** The collection with uuid4 users: each id is unique, and ids come from a counter. */
  class UserTable {
    var docs: seq<UserDoc>
    var nextId: UserId

    ghost predicate Valid()
      reads this
    {
      UniqueIds(docs) && forall i :: 0 <= i < |docs| ==> docs[i].userId < nextId
    }

    constructor ()
      ensures Valid() && docs == [] && nextId == 0
    {
      docs := [];
      nextId := 0;
    }

    /**
     * `register_user`: fails with the first failing check and inserts nothing; otherwise
     * inserts exactly one new user and returns its token and the password-free user record.
     */
    method Register(data: Registration, hashed: string, now: int)
      returns (r: Result<(AccessToken, UserView), HttpError>)
      requires Valid()
      modifies this
      ensures Valid()
      ensures RegistrationError(old(docs), data).Some? ==>
                r == Failure(RegistrationError(old(docs), data).value) &&
                docs == old(docs) && nextId == old(nextId)
      ensures RegistrationError(old(docs), data).None? ==>
                docs == old(docs) + [NewUser(old(nextId), data, hashed, now)] &&
                nextId == old(nextId) + 1 &&
                r == Success((CreateAccessToken(old(nextId), now), RegisteredView(old(nextId), data)))
    {
      var err := RegistrationError(docs, data);
      if err.Some? {
        return Failure(err.value);
      }
      var uid := nextId;
      docs := docs + [NewUser(uid, data, hashed, now)];
      nextId := nextId + 1;
      r := Success((CreateAccessToken(uid, now), RegisteredView(uid, data)));
    }

    /**
     * `login_user`: the same 400 for an unknown email and a wrong password, with nothing
     * changed; otherwise `last_login` is stamped on that user and the token and profile are
     * returned.
     */
    method Login(email: string, password: string, verify: (string, string) -> bool, now: int)
      returns (r: Result<(AccessToken, UserView), HttpError>)
      requires Valid()
      modifies this
      ensures Valid() && nextId == old(nextId)
      ensures LoginTarget(old(docs), email, password, verify).None? ==>
                r == Failure(BadCredentials) && docs == old(docs)
      ensures LoginTarget(old(docs), email, password, verify).Some? ==>
                var u := old(docs)[LoginTarget(old(docs), email, password, verify).value];
                docs == Touched(old(docs), u.userId, now) &&
                r == Success((CreateAccessToken(u.userId, now), Profile(u)))
    {
      var target := LoginTarget(docs, email, password, verify);
      if target.None? {
        return Failure(BadCredentials);
      }
      var u := docs[target.value];
      SetLastLogin(u.userId, now);
      r := Success((CreateAccessToken(u.userId, now), Profile(u)));
    }

    /** `update_one({"user_id": uid}, {"$set": {"last_login": now}})`. */
    method SetLastLogin(uid: UserId, now: int)
      requires Valid()
      modifies this
      ensures Valid() && nextId == old(nextId)
      ensures docs == Touched(old(docs), uid, now)
    {
      var i := Query.FindFirst(docs, HasId(uid));
      if i.Some? {
        docs := docs[i.value := docs[i.value].(lastLogin := now)];
      }
    }

    /** `award_xp`: read the user's xp, add, and store the new xp, level and badges. */
    method AwardXp(uid: UserId, amount: int) returns (r: Option<XpStatus>)
      requires Valid()
      modifies this
      ensures Valid() && nextId == old(nextId)
      ensures docs == Awarded(old(docs), uid, amount)
      ensures r.None? <==> UserIndex(old(docs), uid).None?
      ensures r.Some? ==> r.value == StatusFor(old(docs)[UserIndex(old(docs), uid).value].xp.GetOr(0) + amount)
    {
      var i := Query.FindFirst(docs, HasId(uid));
      if i.None? {
        return None;
      }
      var status := StatusFor(docs[i.value].xp.GetOr(0) + amount);
      assert UserIndex(docs, uid) == i;
      docs := Awarded(docs, uid, amount);
      r := Some(status);
    }

    /** `update_one({"user_id": uid}, {"$set": {"memory": memory}})`. */
    method SetMemory(uid: UserId, memory: Memory)
      requires Valid()
      modifies this
      ensures Valid() && nextId == old(nextId)
      ensures docs == WithMemory(old(docs), uid, memory)
    {
      var i := Query.FindFirst(docs, HasId(uid));
      if i.Some? {
        docs := docs[i.value := docs[i.value].(memory := Some(memory))];
      }
    }
  }
}
