/**
 * The questionnaire endpoints (backend/assessments.py): submitting a DASS-21 or PHQ-9 answer
 * set, which is checked for size only, scored, stored and rewarded with 10 xp, and the
 * caller's newest-first assessment history.
 */
module Assessments {
  import opened Wrappers
  import opened Http
  import opened Auth
  import Query
  import opened Scoring

  datatype Outcome = DassOutcome(dass: DassResult) | Phq9Outcome(phq: Phq9Result)

  /** A stored assessment. The answers are kept as submitted (the source turns their keys into
      strings). */
  datatype AssessmentDoc = AssessmentDoc(
    assessmentId: nat, userId: UserId, assessmentType: string, responses: Responses,
    results: Outcome, completedAt: int)

  const DassType := "DASS-21"
  const Phq9Type := "PHQ-9"
  const DassItemCount: nat := 21
  const Phq9ItemCount: nat := 9
  const DassIncomplete := HttpError(400, "باید به تمام 21 سوال پاسخ داده شود")
  const Phq9Incomplete := HttpError(400, "باید به تمام 9 سوال پاسخ داده شود")
  /** Points `award_xp` grants for a completed questionnaire. */
  const AssessmentXp: int := 10

  /**
   * Why a submission is refused, if it is: the token check first (401), then the number of
   * answers (400). Nothing else about the answers is checked, neither keys nor values.
   */
  function SubmissionError(users: seq<UserDoc>, decoded: Option<Claims>, responses: Responses,
                           expected: nat, incomplete: HttpError): (r: Option<HttpError>)
    ensures CurrentUser(users, decoded).Failure? ==> r == Some(CurrentUser(users, decoded).error)
    ensures CurrentUser(users, decoded).Success? ==>
              (r.None? <==> |responses| == expected) && (r.Some? ==> r == Some(incomplete))
  {
    match CurrentUser(users, decoded)
    case Failure(e) => Some(e)
    case Success(_) => if |responses| != expected then Some(incomplete) else None
  }

  class AssessmentTable {
    var docs: seq<AssessmentDoc>
    var nextId: nat

    ghost predicate Valid()
      reads this
    {
      forall i :: 0 <= i < |docs| ==> docs[i].assessmentId < nextId
    }

    constructor ()
      ensures Valid() && docs == [] && nextId == 0
    {
      docs := [];
      nextId := 0;
    }

    /** `insert_one` with a fresh `assessment_id`. */
    method Insert(uid: UserId, assessmentType: string, responses: Responses, results: Outcome, now: int)
      requires Valid()
      modifies this
      ensures Valid() && nextId == old(nextId) + 1
      ensures docs == old(docs) + [AssessmentDoc(old(nextId), uid, assessmentType, responses, results, now)]
    {
      docs := docs + [AssessmentDoc(nextId, uid, assessmentType, responses, results, now)];
      nextId := nextId + 1;
    }
  }

  /**
   * `POST /api/submit-dass21`: a refused submission changes nothing; an accepted one stores
   * exactly one assessment with the scores it returns and awards the caller 10 xp.
   */
  method SubmitDass21(users: UserTable, table: AssessmentTable, decoded: Option<Claims>,
                      responses: Responses, now: int)
    returns (r: Result<DassResult, HttpError>)
    requires users.Valid() && table.Valid() && IsDict(responses)
    modifies users, table
    ensures users.Valid() && table.Valid()
    ensures SubmissionError(old(users.docs), decoded, responses, DassItemCount, DassIncomplete).Some? ==>
              r == Failure(SubmissionError(old(users.docs), decoded, responses, DassItemCount, DassIncomplete).value) &&
              users.docs == old(users.docs) && table.docs == old(table.docs) && table.nextId == old(table.nextId)
    ensures SubmissionError(old(users.docs), decoded, responses, DassItemCount, DassIncomplete).None? ==>
              var uid := CurrentUser(old(users.docs), decoded).value.userId;
              r == Success(CalculateDassScores(responses)) &&
              table.docs == old(table.docs) +
                [AssessmentDoc(old(table.nextId), uid, DassType, responses, DassOutcome(r.value), now)] &&
              users.docs == Awarded(old(users.docs), uid, AssessmentXp)
  {
    var err := SubmissionError(users.docs, decoded, responses, DassItemCount, DassIncomplete);
    if err.Some? {
      return Failure(err.value);
    }
    var uid := CurrentUser(users.docs, decoded).value.userId;
    var results := CalculateDassScores(responses);
    table.Insert(uid, DassType, responses, DassOutcome(results), now);
    var _ := users.AwardXp(uid, AssessmentXp);
    r := Success(results);
  }

  /** `POST /api/submit-phq9`: the same flow with nine answers and the PHQ-9 scoring. */
  method SubmitPhq9(users: UserTable, table: AssessmentTable, decoded: Option<Claims>,
                    responses: Responses, now: int)
    returns (r: Result<Phq9Result, HttpError>)
    requires users.Valid() && table.Valid() && IsDict(responses)
    modifies users, table
    ensures users.Valid() && table.Valid()
    ensures SubmissionError(old(users.docs), decoded, responses, Phq9ItemCount, Phq9Incomplete).Some? ==>
              r == Failure(SubmissionError(old(users.docs), decoded, responses, Phq9ItemCount, Phq9Incomplete).value) &&
              users.docs == old(users.docs) && table.docs == old(table.docs) && table.nextId == old(table.nextId)
    ensures SubmissionError(old(users.docs), decoded, responses, Phq9ItemCount, Phq9Incomplete).None? ==>
              var uid := CurrentUser(old(users.docs), decoded).value.userId;
              r == Success(CalculatePhq9(responses)) &&
              table.docs == old(table.docs) +
                [AssessmentDoc(old(table.nextId), uid, Phq9Type, responses, Phq9Outcome(r.value), now)] &&
              users.docs == Awarded(old(users.docs), uid, AssessmentXp)
  {
    var err := SubmissionError(users.docs, decoded, responses, Phq9ItemCount, Phq9Incomplete);
    if err.Some? {
      return Failure(err.value);
    }
    var uid := CurrentUser(users.docs, decoded).value.userId;
    var results := CalculatePhq9(responses);
    table.Insert(uid, Phq9Type, responses, Phq9Outcome(results), now);
    var _ := users.AwardXp(uid, AssessmentXp);
    r := Success(results);
  }

  // ----- History -----

  function OwnedBy(uid: UserId): AssessmentDoc -> bool {
    (a: AssessmentDoc) => a.userId == uid
  }

  function CompletedKey(a: AssessmentDoc): Query.SortKey {
    Query.Num(a.completedAt)
  }

  const HistorySize: nat := 10

  /** `GET /api/assessments`: the caller's assessments, latest `completed_at` first, at most 10. */
  function GetUserAssessments(users: seq<UserDoc>, docs: seq<AssessmentDoc>, decoded: Option<Claims>)
    : (r: Result<seq<AssessmentDoc>, HttpError>)
    ensures r.Failure? <==> CurrentUser(users, decoded).Failure?
    ensures r.Success? ==>
              r.value == Query.Newest(docs, OwnedBy(CurrentUser(users, decoded).value.userId), CompletedKey, HistorySize)
  {
    match CurrentUser(users, decoded)
    case Failure(e) => Failure(e)
    case Success(u) => Success(Query.Newest(docs, OwnedBy(u.userId), CompletedKey, HistorySize))
  }

  /**
   * The history holds only the caller's assessments, at most ten, latest first, and leaves out
   * only assessments completed no later than the last one shown.
   */
  lemma HistorySpec(docs: seq<AssessmentDoc>, uid: UserId)
    ensures var h := Query.Newest(docs, OwnedBy(uid), CompletedKey, HistorySize);
      |h| <= HistorySize &&
      (forall a :: a in h ==> a in docs && a.userId == uid) &&
      (forall i, j :: 0 <= i < j < |h| ==> h[j].completedAt <= h[i].completedAt) &&
      (forall a :: a in docs && a.userId == uid && a !in h ==>
         |h| == HistorySize && a.completedAt <= h[HistorySize - 1].completedAt)
  {
    var h := Query.Newest(docs, OwnedBy(uid), CompletedKey, HistorySize);
    Query.NewestSpec(docs, OwnedBy(uid), CompletedKey, HistorySize);
    forall i, j | 0 <= i < j < |h| ensures h[j].completedAt <= h[i].completedAt {
      assert Query.KeyLe(CompletedKey(h[j]), CompletedKey(h[i]));
    }
  }

  /** An assessment completed after every other one of the caller's heads the history. */
  lemma LatestSubmissionListedFirst(docs: seq<AssessmentDoc>, a: AssessmentDoc)
    requires forall b :: b in docs && b.userId == a.userId ==> b.completedAt < a.completedAt
    ensures var h := Query.Newest(docs + [a], OwnedBy(a.userId), CompletedKey, HistorySize);
      |h| > 0 && h[0] == a
  {
    var s := docs + [a];
    assert a == s[|docs|];
    forall b | b in s && OwnedBy(a.userId)(b) && b != a
      ensures !Query.KeyLe(CompletedKey(a), CompletedKey(b))
    {
      assert b in docs;
    }
    Query.NewestHead(s, OwnedBy(a.userId), CompletedKey, HistorySize, a);
  }
}
