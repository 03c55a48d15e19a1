/**
 * The per-day journals behind the mood, sleep and reflection endpoints (backend/trackers.py).
 * All three save the same way: look up the caller's entry dated today (`find_one` with the
 * window `[today, tomorrow)`), overwrite it if there is one, and otherwise insert a new entry
 * with a fresh `entry_id`. The listings return the caller's entries, latest first, at most 30.
 */
module DailyLogs {
  import opened Wrappers
  import opened Http
  import opened Auth
  import Clock
  import Query

  /** A stored entry; `payload` holds the fields specific to the journal. */
  datatype Entry<P> = Entry(entryId: nat, userId: UserId, date: int, payload: P)

  /** The lookup filter `{"user_id": uid, "date": {"$gte": today, "$lt": tomorrow}}`. */
  function TodayOf<P>(uid: UserId, now: int): Entry<P> -> bool {
    (e: Entry<P>) => e.userId == uid && Clock.InToday(e.date, now)
  }

  /** Each user has at most one entry per calendar day. */
  ghost predicate OnePerDay<P>(entries: seq<Entry<P>>) {
    forall i, j :: 0 <= i < j < |entries| && entries[i].userId == entries[j].userId ==>
      Clock.Day(entries[i].date) != Clock.Day(entries[j].date)
  }

  ghost predicate UniqueEntryIds<P>(entries: seq<Entry<P>>) {
    forall i, j :: 0 <= i < j < |entries| ==> entries[i].entryId != entries[j].entryId
  }

  /**
   * The journal after `uid` saves `payload` at `now`: the first of the user's entries dated
   * today is overwritten (keeping its `entry_id`) with the new payload and date; with no such
   * entry one is appended with id `freshId`.
   */
  function Saved<P>(entries: seq<Entry<P>>, uid: UserId, payload: P, now: int, freshId: nat)
    : (r: seq<Entry<P>>)
    ensures |r| == (if exists i :: 0 <= i < |entries| && TodayOf(uid, now)(entries[i])
                    then |entries| else |entries| + 1)
    ensures exists k :: 0 <= k < |r| && r[k].userId == uid && r[k].date == now && r[k].payload == payload
  {
    match Query.FirstIndex(entries, TodayOf(uid, now))
    case Some(i) =>
      var r := entries[i := Entry(entries[i].entryId, uid, now, payload)];
      assert r[i] == Entry(entries[i].entryId, uid, now, payload);
      r
    case None =>
      var r := entries + [Entry(freshId, uid, now, payload)];
      assert r[|entries|] == Entry(freshId, uid, now, payload);
      r
  }

  /** Saving keeps at most one entry per user per day. */
  lemma SavedKeepsOnePerDay<P>(entries: seq<Entry<P>>, uid: UserId, payload: P, now: int, freshId: nat)
    requires OnePerDay(entries)
    ensures OnePerDay(Saved(entries, uid, payload, now, freshId))
  {
    var s := Saved(entries, uid, payload, now, freshId);
    match Query.FirstIndex(entries, TodayOf(uid, now))
    case Some(i) =>
      Clock.InTodayIsSameDay(entries[i].date, now);
      assert forall j :: 0 <= j < |s| ==>
        s[j].userId == entries[j].userId && Clock.Day(s[j].date) == Clock.Day(entries[j].date);
    case None =>
      forall j | 0 <= j < |entries| && entries[j].userId == uid
        ensures Clock.Day(entries[j].date) != Clock.Day(now)
      {
        assert !TodayOf(uid, now)(entries[j]);
        Clock.InTodayIsSameDay(entries[j].date, now);
      }
  }

  /**
   * After a save the user has exactly one entry in today's window, and it holds the saved
   * payload with date `now`.
   */
  lemma SavedEntryForToday<P>(entries: seq<Entry<P>>, uid: UserId, payload: P, now: int, freshId: nat)
    requires OnePerDay(entries)
    ensures var s := Saved(entries, uid, payload, now, freshId);
      exists k :: 0 <= k < |s| && s[k].userId == uid && s[k].date == now && s[k].payload == payload &&
        Clock.InToday(s[k].date, now) &&
        forall j :: 0 <= j < |s| && j != k ==> !(s[j].userId == uid && Clock.InToday(s[j].date, now))
  {
    var s := Saved(entries, uid, payload, now, freshId);
    SavedKeepsOnePerDay(entries, uid, payload, now, freshId);
    Clock.InTodayIsSameDay(now, now);
    var k := match Query.FirstIndex(entries, TodayOf(uid, now))
      case Some(i) => i
      case None => |entries|;
    assert s[k].userId == uid && s[k].date == now && s[k].payload == payload;
    forall j | 0 <= j < |s| && j != k
      ensures !(s[j].userId == uid && Clock.InToday(s[j].date, now))
    {
      Clock.InTodayIsSameDay(s[j].date, now);
      if j < k {
        assert Clock.Day(s[j].date) != Clock.Day(s[k].date) || s[j].userId != s[k].userId;
      } else {
        assert Clock.Day(s[k].date) != Clock.Day(s[j].date) || s[j].userId != s[k].userId;
      }
    }
  }

  /**
   * A save touches only the saving user's entry for today: every other entry keeps its place
   * and contents, existing entries keep their ids, and a new entry (if any) is the user's and
   * carries `freshId`.
   */
  lemma SavedFrame<P>(entries: seq<Entry<P>>, uid: UserId, payload: P, now: int, freshId: nat)
    ensures var s := Saved(entries, uid, payload, now, freshId);
      |entries| <= |s| <= |entries| + 1 &&
      (forall j :: 0 <= j < |entries| && !(entries[j].userId == uid && Clock.InToday(entries[j].date, now)) ==>
         s[j] == entries[j]) &&
      (forall j :: 0 <= j < |entries| ==> s[j].entryId == entries[j].entryId) &&
      (|s| == |entries| + 1 <==> forall j :: 0 <= j < |entries| ==> !(entries[j].userId == uid && Clock.InToday(entries[j].date, now))) &&
      (|s| == |entries| + 1 ==> s[|entries|] == Entry(freshId, uid, now, payload))
  {
    match Query.FirstIndex(entries, TodayOf(uid, now))
    case Some(i) =>
      assert TodayOf(uid, now)(entries[i]);
    case None =>
      assert forall j :: 0 <= j < |entries| ==> !TodayOf(uid, now)(entries[j]);
  }

  /**
   * Two saves by one user on the same day leave the journal as the second save alone would, on
   * the entry (and id) the first one created or overwrote: the last values win.
   */
  lemma LastSaveWins<P>(entries: seq<Entry<P>>, uid: UserId, first: P, second: P,
                        now: int, later: int, freshId: nat, freshId': nat)
    requires Clock.Day(now) == Clock.Day(later)
    ensures Saved(Saved(entries, uid, first, now, freshId), uid, second, later, freshId') ==
            Saved(entries, uid, second, later, freshId)
  {
    var once := Saved(entries, uid, first, now, freshId);
    Clock.InTodayIsSameDay(now, later);
    match Query.FirstIndex(entries, TodayOf(uid, now))
    case Some(i) =>
      forall j | 0 <= j < |once|
        ensures TodayOf(uid, now)(entries[j]) <==> TodayOf(uid, later)(once[j])
      {
        Clock.InTodayIsSameDay(entries[j].date, now);
        Clock.InTodayIsSameDay(once[j].date, later);
      }
      Query.FirstIndexAgrees(entries, once, TodayOf(uid, now), TodayOf(uid, later));
    case None =>
      forall j | 0 <= j < |entries| ensures !TodayOf(uid, later)(once[j]) {
        assert once[j] == entries[j];
        assert !TodayOf(uid, now)(entries[j]);
        Clock.InTodayIsSameDay(entries[j].date, now);
        Clock.InTodayIsSameDay(entries[j].date, later);
      }
      assert TodayOf(uid, later)(once[|entries|]);
      Query.FirstIndexAfterMisses(once, TodayOf(uid, later), |entries|);
      forall j | 0 <= j < |entries| ensures !TodayOf(uid, later)(entries[j]) {
        assert once[j] == entries[j];
      }
      Query.FirstIndexNone(entries, TodayOf(uid, later));
  }

  /** The journal keeps uuid-like ids: unique and drawn from a counter. */
  class DailyLog<P> {
    var entries: seq<Entry<P>>
    var nextId: nat

    ghost predicate Valid()
      reads this
    {
      OnePerDay(entries) && UniqueEntryIds(entries) &&
      forall i :: 0 <= i < |entries| ==> entries[i].entryId < nextId
    }

    constructor ()
      ensures Valid() && entries == [] && nextId == 0
    {
      entries := [];
      nextId := 0;
    }

    /** The find-then-update-or-insert of `save_mood_entry`, `save_sleep_entry` and
        `save_daily_reflection`. */
    method SaveToday(uid: UserId, payload: P, now: int)
      requires Valid()
      modifies this
      ensures Valid()
      ensures entries == Saved(old(entries), uid, payload, now, old(nextId))
      ensures nextId == old(nextId) + (|entries| - |old(entries)|)
    {
      SavedKeepsOnePerDay(entries, uid, payload, now, nextId);
      SavedFrame(entries, uid, payload, now, nextId);
      var existing := Query.FindFirst(entries, TodayOf(uid, now));
      if existing.Some? {
        var i := existing.value;
        entries := entries[i := Entry(entries[i].entryId, uid, now, payload)];
      } else {
        entries := entries + [Entry(nextId, uid, now, payload)];
        nextId := nextId + 1;
      }
    }
  }

  // ----- Listings -----

  function OwnerIs<P>(uid: UserId): Entry<P> -> bool {
    (e: Entry<P>) => e.userId == uid
  }

  function DateKey<P>(e: Entry<P>): Query.SortKey {
    Query.Num(e.date)
  }

  const ListingSize: nat := 30

  /** `find({"user_id": uid}).sort("date", -1).to_list(length=30)` for the caller. */
  function ListEntries<P(!new)>(users: seq<UserDoc>, entries: seq<Entry<P>>, decoded: Option<Claims>)
    : (r: Result<seq<Entry<P>>, HttpError>)
    ensures r.Failure? <==> CurrentUser(users, decoded).Failure?
    ensures r.Success? ==>
              r.value == Query.Newest(entries, OwnerIs(CurrentUser(users, decoded).value.userId), DateKey, ListingSize)
  {
    match CurrentUser(users, decoded)
    case Failure(e) => Failure(e)
    case Success(u) => Success(Query.Newest(entries, OwnerIs(u.userId), DateKey, ListingSize))
  }

  /**
   * A listing holds only the caller's entries, at most thirty, latest first, and leaves out
   * only entries dated no later than the last one shown.
   */
  lemma ListingSpec<P(!new)>(entries: seq<Entry<P>>, uid: UserId)
    ensures var l := Query.Newest(entries, OwnerIs(uid), DateKey, ListingSize);
      |l| <= ListingSize &&
      (forall e :: e in l ==> e in entries && e.userId == uid) &&
      (forall i, j :: 0 <= i < j < |l| ==> l[j].date <= l[i].date) &&
      (forall e :: e in entries && e.userId == uid && e !in l ==>
         |l| == ListingSize && e.date <= l[ListingSize - 1].date)
  {
    var l := Query.Newest(entries, OwnerIs(uid), DateKey, ListingSize);
    Query.NewestSpec(entries, OwnerIs(uid), DateKey, ListingSize);
    forall i, j | 0 <= i < j < |l| ensures l[j].date <= l[i].date {
      assert Query.KeyLe(DateKey(l[j]), DateKey(l[i]));
    }
  }
}
