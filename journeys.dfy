/**
 * Habit-building journeys (backend/journeys.py over the fixed catalogue of
 * backend/journeys_utils.py): listing and looking up journeys, and per-user progress records
 * upserted by `start_journey`.
 */
module Journeys {
  import opened Wrappers
  import opened Http
  import opened Auth
  import Query

  datatype Journey = Journey(id: string, name: string, tasks: seq<string>)

  /** `get_default_journeys()`. */
  const DefaultJourneys: seq<Journey> := [
    Journey("morning-routine", "Morning Routine Kickstart",
            ["Wake up at the same time each day", "Drink a glass of water",
             "Do 5 minutes of stretching or light exercise"]),
    Journey("mindfulness-master", "Mindfulness Master",
            ["Practice 3 minutes of deep breathing", "Record a short gratitude note",
             "Take a mindful walk or body scan"]),
    Journey("sleep-champion", "Sleep Champion",
            ["Set a consistent bedtime", "Avoid screens 30 minutes before sleep",
             "Create a relaxing pre-sleep ritual"])
  ]

  /** `GET /api/journeys`: the catalogue, three journeys with distinct ids and three tasks each. */
  function ListJourneys(): (r: seq<Journey>)
    ensures r == DefaultJourneys
    ensures |r| == 3
    ensures forall i, j :: 0 <= i < j < |r| ==> r[i].id != r[j].id
    ensures forall i :: 0 <= i < |r| ==> |r[i].tasks| == 3
  {
    DefaultJourneys
  }

  /** The copy of the list in backend/trackers.py, served behind the token check. */
  function ListJourneysSignedIn(users: seq<UserDoc>, decoded: Option<Claims>): (r: Result<seq<Journey>, HttpError>)
    ensures r.Failure? <==> CurrentUser(users, decoded).Failure?
    ensures r.Failure? ==> r.error == CurrentUser(users, decoded).error
    ensures r.Success? ==> r.value == DefaultJourneys
  {
    match CurrentUser(users, decoded)
    case Failure(e) => Failure(e)
    case Success(_) => Success(DefaultJourneys)
  }

  const JourneyNotFound := HttpError(404, "Journey not found")

  /** `GET /api/journeys/{id}`: the loop over the catalogue returning the first journey with
      that id, and 404 when none has it. */
  method GetJourney(id: string) returns (r: Result<Journey, HttpError>)
    ensures r.Success? <==> exists i :: 0 <= i < |DefaultJourneys| && DefaultJourneys[i].id == id
    ensures r.Success? ==> r.value in DefaultJourneys && r.value.id == id
    ensures r.Failure? ==> r.error == JourneyNotFound
  {
    var journeys := ListJourneys();
    var i := 0;
    while i < |journeys|
      invariant 0 <= i <= |journeys|
      invariant forall k :: 0 <= k < i ==> journeys[k].id != id
    {
      if journeys[i].id == id {
        return Success(journeys[i]);
      }
      i := i + 1;
    }
    return Failure(JourneyNotFound);
  }

  // ----- Progress -----

  /** A `journey_progress` document. */
  datatype Progress = Progress(userId: UserId, journeyId: string, currentStep: int)

  function PairIs(uid: UserId, journeyId: string): Progress -> bool {
    (p: Progress) => p.userId == uid && p.journeyId == journeyId
  }

  /** At most one record per (user, journey) pair. */
  ghost predicate OnePerPair(docs: seq<Progress>) {
    forall i, j :: 0 <= i < j < |docs| ==>
      !(docs[i].userId == docs[j].userId && docs[i].journeyId == docs[j].journeyId)
  }

  /** The collection after the upsert of `start_journey`: the pair's first record is reset to
      step 0, or a record at step 0 is appended. */
  function Started(docs: seq<Progress>, uid: UserId, journeyId: string): (r: seq<Progress>)
    ensures |r| == (if exists j :: 0 <= j < |docs| && PairIs(uid, journeyId)(docs[j])
                    then |docs| else |docs| + 1)
    ensures Progress(uid, journeyId, 0) in r
  {
    match Query.FirstIndex(docs, PairIs(uid, journeyId))
    case Some(i) =>
      var r := docs[i := Progress(uid, journeyId, 0)];
      assert r[i] == Progress(uid, journeyId, 0);
      r
    case None =>
      var r := docs + [Progress(uid, journeyId, 0)];
      assert r[|docs|] == Progress(uid, journeyId, 0);
      r
  }

  /**
   * After a start the pair has exactly one record, at step 0, whatever step it had reached;
   * every other pair's record is untouched; and at most one record per pair is kept.
   */
  lemma StartedSpec(docs: seq<Progress>, uid: UserId, journeyId: string)
    requires OnePerPair(docs)
    ensures var s := Started(docs, uid, journeyId);
      OnePerPair(s) &&
      (exists k :: 0 <= k < |s| && s[k] == Progress(uid, journeyId, 0) &&
         forall j :: 0 <= j < |s| && j != k ==> !PairIs(uid, journeyId)(s[j])) &&
      (forall j :: 0 <= j < |docs| && !PairIs(uid, journeyId)(docs[j]) ==> s[j] == docs[j])
  {
    var s := Started(docs, uid, journeyId);
    match Query.FirstIndex(docs, PairIs(uid, journeyId))
    case Some(i) =>
      assert s[i] == Progress(uid, journeyId, 0);
      forall j | 0 <= j < |s| && j != i ensures !PairIs(uid, journeyId)(s[j]) {
        assert s[j] == docs[j];
        if j < i {
          assert !(docs[j].userId == docs[i].userId && docs[j].journeyId == docs[i].journeyId);
        } else {
          assert !(docs[i].userId == docs[j].userId && docs[i].journeyId == docs[j].journeyId);
        }
      }
    case None =>
      assert s[|docs|] == Progress(uid, journeyId, 0);
      assert forall j :: 0 <= j < |docs| ==> !PairIs(uid, journeyId)(docs[j]);
  }

  /** Starting a journey twice is starting it once. */
  lemma StartIdempotent(docs: seq<Progress>, uid: UserId, journeyId: string)
    ensures Started(Started(docs, uid, journeyId), uid, journeyId) == Started(docs, uid, journeyId)
  {
    var once := Started(docs, uid, journeyId);
    match Query.FirstIndex(docs, PairIs(uid, journeyId))
    case Some(i) =>
      Query.FirstIndexAgrees(docs, once, PairIs(uid, journeyId), PairIs(uid, journeyId));
    case None =>
      Query.FirstIndexAfterMisses(once, PairIs(uid, journeyId), |docs|);
  }

  const JourneyNotStarted := HttpError(404, "Journey not started")

  /** `GET /api/journeys/{id}/progress` for user `uid`: the pair's first record, or 404. */
  function ProgressOf(docs: seq<Progress>, uid: UserId, journeyId: string): (r: Result<Progress, HttpError>)
    ensures r.Failure? <==> forall j :: 0 <= j < |docs| ==> !PairIs(uid, journeyId)(docs[j])
    ensures r.Failure? ==> r.error == JourneyNotStarted
    ensures r.Success? ==> r.value in docs && r.value.userId == uid && r.value.journeyId == journeyId
  {
    match Query.FirstIndex(docs, PairIs(uid, journeyId))
    case None => Failure(JourneyNotStarted)
    case Some(i) => Success(docs[i])
  }

  /** Right after a start the progress endpoint reports step 0. */
  lemma ProgressAfterStart(docs: seq<Progress>, uid: UserId, journeyId: string)
    ensures ProgressOf(Started(docs, uid, journeyId), uid, journeyId) == Success(Progress(uid, journeyId, 0))
  {
    var once := Started(docs, uid, journeyId);
    match Query.FirstIndex(docs, PairIs(uid, journeyId))
    case Some(i) =>
      Query.FirstIndexAgrees(docs, once, PairIs(uid, journeyId), PairIs(uid, journeyId));
    case None =>
      Query.FirstIndexAfterMisses(once, PairIs(uid, journeyId), |docs|);
  }

  class ProgressTable {
    var docs: seq<Progress>

    ghost predicate Valid()
      reads this
    {
      OnePerPair(docs)
    }

    constructor ()
      ensures Valid() && docs == []
    {
      docs := [];
    }

    /**
     * `POST /api/journeys/{id}/start`: after the token check, upserts the caller's record for
     * `journeyId` at step 0 and returns it. The id is not checked against the catalogue.
     */
    method StartJourney(users: seq<UserDoc>, decoded: Option<Claims>, journeyId: string)
      returns (r: Result<Progress, HttpError>)
      requires Valid()
      modifies this
      ensures Valid()
      ensures CurrentUser(users, decoded).Failure? ==>
                r == Failure(CurrentUser(users, decoded).error) && docs == old(docs)
      ensures CurrentUser(users, decoded).Success? ==>
                var uid := CurrentUser(users, decoded).value.userId;
                r == Success(Progress(uid, journeyId, 0)) && docs == Started(old(docs), uid, journeyId)
    {
      var auth := CurrentUser(users, decoded);
      if auth.Failure? {
        return Failure(auth.error);
      }
      var uid := auth.value.userId;
      StartedSpec(docs, uid, journeyId);
      var existing := Query.FindFirst(docs, PairIs(uid, journeyId));
      if existing.Some? {
        docs := docs[existing.value := Progress(uid, journeyId, 0)];
      } else {
        docs := docs + [Progress(uid, journeyId, 0)];
      }
      r := Success(Progress(uid, journeyId, 0));
    }
  }

  /** The progress endpoint behind the token check. */
  function GetProgress(users: seq<UserDoc>, docs: seq<Progress>, decoded: Option<Claims>, journeyId: string)
    : (r: Result<Progress, HttpError>)
    ensures CurrentUser(users, decoded).Failure? ==> r == Failure(CurrentUser(users, decoded).error)
    ensures CurrentUser(users, decoded).Success? ==>
              r == ProgressOf(docs, CurrentUser(users, decoded).value.userId, journeyId)
  {
    match CurrentUser(users, decoded)
    case Failure(e) => Failure(e)
    case Success(u) => ProgressOf(docs, u.userId, journeyId)
  }
}
