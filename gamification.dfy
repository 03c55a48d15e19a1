/**
 * The gamification endpoints (backend/gamification.py): awarding points on request, reading a
 * user's standing, the leaderboard and the badge catalogue. The standing endpoint is also
 * defined, without its 404 branch, in backend/trackers.py, which the main server mounts; this
 * router is served by its own app. On every input that passes the token check the two agree.
 */
module Gamification {
  import opened Wrappers
  import opened Http
  import opened Auth
  import Query
  import GamificationRules

  /** `POST /api/gamification/award`: `award_xp` for the caller with the request's xp, 0 when
      the field is absent. */
  method AwardEndpoint(users: UserTable, decoded: Option<Claims>, requested: Option<int>)
    returns (r: Result<Option<XpStatus>, HttpError>)
    requires users.Valid()
    modifies users
    ensures users.Valid()
    ensures CurrentUser(old(users.docs), decoded).Failure? ==>
              r == Failure(CurrentUser(old(users.docs), decoded).error) &&
              users.docs == old(users.docs)
    ensures CurrentUser(old(users.docs), decoded).Success? ==>
              var u := CurrentUser(old(users.docs), decoded).value;
              users.docs == Awarded(old(users.docs), u.userId, requested.GetOr(0)) &&
              r == Success(Some(StatusFor(u.xp.GetOr(0) + requested.GetOr(0))))
  {
    var auth := CurrentUser(users.docs, decoded);
    if auth.Failure? {
      return Failure(auth.error);
    }
    var status := users.AwardXp(auth.value.userId, requested.GetOr(0));
    r := Success(status);
  }

  const UserNotFound404 := HttpError(404, "User not found")

  /** The standing fields with their defaults: xp 0, level 1, no badges. */
  function StandingOf(u: UserDoc): XpStatus {
    XpStatus(u.xp.GetOr(0), u.level.GetOr(1), u.badges.GetOr([]))
  }

  /**
   * `GET /api/gamification`: the caller's xp, level and badges. The 404 branch cannot be taken:
   * the second lookup finds the document the token check found.
   */
  function GetGamification(docs: seq<UserDoc>, decoded: Option<Claims>): (r: Result<XpStatus, HttpError>)
    ensures r.Failure? ==>
              CurrentUser(docs, decoded).Failure? && r.error == CurrentUser(docs, decoded).error &&
              r.error.status == 401
    ensures r.Success? <==> CurrentUser(docs, decoded).Success?
    ensures r.Success? ==> r.value == StandingOf(CurrentUser(docs, decoded).value)
  {
    match CurrentUser(docs, decoded)
    case Failure(e) => Failure(e)
    case Success(u) =>
      match UserIndex(docs, u.userId)
      case None => Failure(UserNotFound404)
      case Some(i) => Success(StandingOf(docs[i]))
  }

  /** After an award the standing endpoint reports the new total with the award rule's level
      and badges. */
  lemma StandingAfterAward(docs: seq<UserDoc>, decoded: Option<Claims>, amount: int)
    requires CurrentUser(docs, decoded).Success?
    ensures var u := CurrentUser(docs, decoded).value;
      GetGamification(Awarded(docs, u.userId, amount), decoded) ==
        Success(StatusFor(u.xp.GetOr(0) + amount))
  {
    var u := CurrentUser(docs, decoded).value;
    var i := UserIndex(docs, u.userId).value;
    var docs' := Awarded(docs, u.userId, amount);
    assert docs' == docs[i := WithXp(u, u.xp.GetOr(0) + amount)];
    assert forall j :: 0 <= j < |docs| ==> (HasId(u.userId)(docs[j]) <==> HasId(u.userId)(docs'[j]));
    Query.FirstIndexAgrees(docs, docs', HasId(u.userId), HasId(u.userId));
    assert UserIndex(docs', u.userId) == Some(i);
    assert CurrentUser(docs', decoded) == Success(docs'[i]);
  }

  // ----- Leaderboard -----

  /** A leaderboard row: the projection `{"user_id": 1, "xp": 1}`; a user without xp has no
      xp field in its row. */
  datatype LeaderRow = LeaderRow(userId: UserId, xp: Option<int>)

  function RowOf(u: UserDoc): LeaderRow {
    LeaderRow(u.userId, u.xp)
  }

  function Rows(docs: seq<UserDoc>): (r: seq<LeaderRow>)
    ensures |r| == |docs| && forall i :: 0 <= i < |docs| ==> r[i] == RowOf(docs[i])
  {
    seq(|docs|, i requires 0 <= i < |docs| => RowOf(docs[i]))
  }

  /** The sort key `xp`: a missing field sorts below every number. */
  function XpKey(row: LeaderRow): Query.SortKey {
    match row.xp
    case None => Query.Missing
    case Some(v) => Query.Num(v)
  }

  function AllRows(row: LeaderRow): bool { true }

  const LeaderboardSize: nat := 10

  /** `GET /api/gamification/leaderboard`: `find({}).sort("xp", -1).limit(10)`. */
  function Leaderboard(docs: seq<UserDoc>): (r: seq<LeaderRow>)
    ensures |r| <= LeaderboardSize
    ensures Query.SortedDesc(r, XpKey)
  {
    var rows := Rows(docs);
    Query.NewestSpec(rows, AllRows, XpKey, LeaderboardSize);
    Query.Newest(rows, AllRows, XpKey, LeaderboardSize)
  }

  /**
   * At most ten rows, one per stored user at most, by non-increasing xp; fewer than ten only
   * when there are fewer users; and every user left off has no more xp than the last row.
   */
  lemma LeaderboardSpec(docs: seq<UserDoc>)
    ensures |Leaderboard(docs)| == Min(LeaderboardSize, |docs|)
    ensures Query.SortedDesc(Leaderboard(docs), XpKey)
    ensures multiset(Leaderboard(docs)) <= multiset(Rows(docs))
    ensures forall row :: row in Leaderboard(docs) ==> exists u :: u in docs && row == RowOf(u)
    ensures forall u :: u in docs && RowOf(u) !in Leaderboard(docs) ==>
              |Leaderboard(docs)| == LeaderboardSize &&
              Query.KeyLe(XpKey(RowOf(u)), XpKey(Leaderboard(docs)[LeaderboardSize - 1]))
  {
    var rows := Rows(docs);
    Query.NewestSpec(rows, AllRows, XpKey, LeaderboardSize);
    assert Query.Filter(rows, AllRows) == rows by {
      FilterAll(rows);
    }
    forall row | row in Leaderboard(docs) ensures exists u :: u in docs && row == RowOf(u) {
      var i :| 0 <= i < |rows| && rows[i] == row;
      assert docs[i] in docs;
    }
    forall u | u in docs ensures RowOf(u) in rows {
      var i :| 0 <= i < |docs| && docs[i] == u;
      assert rows[i] == RowOf(u);
    }
  }

  lemma {:induction false} FilterAll(rows: seq<LeaderRow>)
    ensures Query.Filter(rows, AllRows) == rows
    decreases |rows|
  {
    if |rows| > 0 {
      FilterAll(rows[1..]);
    }
  }

  // ----- Badge catalogue -----

  /** `GET /api/gamification/badges`: every badge the award rule can give, in the order it
      gives them. */
  function BadgesCatalog(): (r: seq<string>)
    ensures forall xp, b :: b in GamificationRules.LevelAndBadges(xp).badges ==> b in r
    ensures r == GamificationRules.LevelAndBadges(500).badges
  {
    [GamificationRules.Novice, GamificationRules.Expert]
  }

  /** After any sequence of awards a stored badge list holds only catalogue badges. */
  lemma AwardedBadgesInCatalog(docs: seq<UserDoc>, uid: UserId, amount: int)
    requires UniqueIds(docs)
    requires forall u :: u in docs ==> forall b :: b in u.badges.GetOr([]) ==> b in BadgesCatalog()
    ensures forall u :: u in Awarded(docs, uid, amount) ==>
              forall b :: b in u.badges.GetOr([]) ==> b in BadgesCatalog()
  {
    AwardedSpec(docs, uid, amount);
    var docs' := Awarded(docs, uid, amount);
    forall u | u in docs' ensures forall b :: b in u.badges.GetOr([]) ==> b in BadgesCatalog() {
      var i :| 0 <= i < |docs'| && docs'[i] == u;
      if docs[i].userId != uid {
        assert docs[i] in docs;
      }
    }
  }
}
