/**
 * The three kinds of collection query the service issues, over a collection held as a
 * sequence of documents in natural (insertion) order:
 *   - `find_one(filter)`: the first document that matches;
 *   - `find(filter)`: every document that matches, in order;
 *   - `.sort(key, -1).to_list(n)`: the matches by descending key, at most n of them.
 */
module Query {
  import opened Wrappers

  /** Position of the first element satisfying `p`: the document `find_one` returns. */
  function FirstIndex<T>(s: seq<T>, p: T -> bool): (r: Option<nat>)
    ensures r.Some? ==> r.value < |s| && p(s[r.value])
    ensures r.Some? ==> forall j :: 0 <= j < r.value ==> !p(s[j])
    ensures r.None? <==> forall j :: 0 <= j < |s| ==> !p(s[j])
    decreases |s|
  {
    if |s| == 0 then None
    else if p(s[0]) then Some(0)
    else
      match FirstIndex(s[1..], p)
      case None => None
      case Some(k) => Some(k + 1)
  }

  /** Two sequences whose elements satisfy `p` and `q` at the same positions have their first
      matches at the same place. */
  lemma {:induction false} FirstIndexAgrees<T>(s: seq<T>, t: seq<T>, p: T -> bool, q: T -> bool)
    requires |s| == |t|
    requires forall j :: 0 <= j < |s| ==> (p(s[j]) <==> q(t[j]))
    ensures FirstIndex(s, p) == FirstIndex(t, q)
    decreases |s|
  {
    if |s| > 0 {
      FirstIndexAgrees(s[1..], t[1..], p, q);
    }
  }

  /** With no match anywhere there is no first match. */
  lemma FirstIndexNone<T>(s: seq<T>, p: T -> bool)
    requires forall j :: 0 <= j < |s| ==> !p(s[j])
    ensures FirstIndex(s, p) == None
  {
  }

  /** When nothing before position `k` matches and position `k` does, the first match is `k`. */
  lemma FirstIndexAfterMisses<T>(s: seq<T>, p: T -> bool, k: nat)
    requires k < |s| && p(s[k])
    requires forall j :: 0 <= j < k ==> !p(s[j])
    ensures FirstIndex(s, p) == Some(k)
  {
  }

  /** The scan `find_one` performs. */
  method FindFirst<T>(s: seq<T>, p: T -> bool) returns (r: Option<nat>)
    ensures r == FirstIndex(s, p)
  {
    var i := 0;
    while i < |s|
      invariant 0 <= i <= |s|
      invariant forall j :: 0 <= j < i ==> !p(s[j])
    {
      if p(s[i]) {
        return Some(i);
      }
      i := i + 1;
    }
    return None;
  }

  /** The documents matching `p`, in their stored order. */
  function Filter<T(!new)>(s: seq<T>, p: T -> bool): (r: seq<T>)
    ensures forall x :: multiset(r)[x] == if p(x) then multiset(s)[x] else 0
    ensures forall x :: x in r <==> x in s && p(x)
    decreases |s|
  {
    if |s| == 0 then []
    else
      assert s == [s[0]] + s[1..];
      if p(s[0]) then [s[0]] + Filter(s[1..], p) else Filter(s[1..], p)
  }

  /** A sort key as the database orders it: a missing field sorts below every number. */
  datatype SortKey = Missing | Num(n: int)

  predicate KeyLe(a: SortKey, b: SortKey) {
    a.Missing? || (b.Num? && a.n <= b.n)
  }

  /** Every element's key is at most the key of every element before it. */
  ghost predicate SortedDesc<T>(s: seq<T>, key: T -> SortKey) {
    forall i, j :: 0 <= i < j < |s| ==> KeyLe(key(s[j]), key(s[i]))
  }

  /** Places `x` into a key-descending sequence, ahead of the elements whose key it reaches. */
  function Insert<T>(x: T, s: seq<T>, key: T -> SortKey): seq<T>
    decreases |s|
  {
    if |s| == 0 then [x]
    else if KeyLe(key(s[0]), key(x)) then [x] + s
    else [s[0]] + Insert(x, s[1..], key)
  }

  /** `.sort(key, -1)`. Ties keep an insertion order; the database leaves their order open,
      and nothing proved below depends on it. */
  function SortDesc<T>(s: seq<T>, key: T -> SortKey): seq<T>
    decreases |s|
  {
    if |s| == 0 then [] else Insert(s[0], SortDesc(s[1..], key), key)
  }

  function Take<T>(s: seq<T>, n: nat): (r: seq<T>)
  {
    if n <= |s| then s[..n] else s
  }

  /** `.sort(key, -1).to_list(length=n)`. */
  function Top<T>(s: seq<T>, key: T -> SortKey, n: nat): seq<T>
  {
    Take(SortDesc(s, key), n)
  }

  lemma {:induction false} InsertPermutes<T>(x: T, s: seq<T>, key: T -> SortKey)
    ensures multiset(Insert(x, s, key)) == multiset(s) + multiset{x}
    decreases |s|
  {
    if |s| > 0 && !KeyLe(key(s[0]), key(x)) {
      InsertPermutes(x, s[1..], key);
      assert s == [s[0]] + s[1..];
    }
  }

  lemma {:induction false} InsertSorted<T>(x: T, s: seq<T>, key: T -> SortKey)
    requires SortedDesc(s, key)
    ensures SortedDesc(Insert(x, s, key), key)
    decreases |s|
  {
    if |s| > 0 && !KeyLe(key(s[0]), key(x)) {
      var t := Insert(x, s[1..], key);
      InsertSorted(x, s[1..], key);
      InsertPermutes(x, s[1..], key);
      forall j | 0 <= j < |t| ensures KeyLe(key(t[j]), key(s[0])) {
        assert t[j] in multiset(s[1..]) + multiset{x};
        if t[j] != x {
          assert t[j] in s[1..];
        }
      }
    }
  }

  lemma {:induction false} SortDescSpec<T>(s: seq<T>, key: T -> SortKey)
    ensures SortedDesc(SortDesc(s, key), key)
    ensures multiset(SortDesc(s, key)) == multiset(s)
    decreases |s|
  {
    if |s| > 0 {
      SortDescSpec(s[1..], key);
      InsertSorted(s[0], SortDesc(s[1..], key), key);
      InsertPermutes(s[0], SortDesc(s[1..], key), key);
      assert s == [s[0]] + s[1..];
    }
  }

  /**
   * What a capped, key-descending listing returns: min(n, |s|) elements of `s`, by descending
   * key, and every element left out has a key no greater than the last one returned.
   */
  lemma TopSpec<T>(s: seq<T>, key: T -> SortKey, n: nat)
    ensures |Top(s, key, n)| == Min(n, |s|)
    ensures SortedDesc(Top(s, key, n), key)
    ensures multiset(Top(s, key, n)) <= multiset(s)
    ensures forall x :: x in multiset(s) - multiset(Top(s, key, n)) ==>
              |Top(s, key, n)| == n && (0 < n ==> KeyLe(key(x), key(Top(s, key, n)[n - 1])))
  {
    var t := SortDesc(s, key);
    SortDescSpec(s, key);
    if n == |t| {
      assert t[..n] == t;
    } else if n < |t| {
      assert t == t[..n] + t[n..];
      assert multiset(t) == multiset(t[..n]) + multiset(t[n..]);
      assert multiset(t[..n]) <= multiset(t);
      forall x | x in multiset(s) - multiset(t[..n])
        ensures 0 < n ==> KeyLe(key(x), key(t[..n][n - 1]))
      {
        assert x in t[n..];
        var j :| n <= j < |t| && t[j] == x;
        if 0 < n {
          assert KeyLe(key(t[j]), key(t[n - 1]));
        }
      }
    }
  }

  /** `find(filter).sort(key, -1).to_list(n)`: the matching documents, newest (greatest key)
      first, at most n of them. */
  function Newest<T(!new)>(s: seq<T>, p: T -> bool, key: T -> SortKey, n: nat): seq<T> {
    Top(Filter(s, p), key, n)
  }

  /**
   * A capped listing holds only matching documents of the collection, each at most as often as
   * stored, by descending key; it is short only when fewer documents match; and a matching
   * document it leaves out has a key no greater than the last one listed.
   */
  lemma NewestSpec<T(!new)>(s: seq<T>, p: T -> bool, key: T -> SortKey, n: nat)
    ensures |Newest(s, p, key, n)| == Min(n, |Filter(s, p)|)
    ensures forall x :: x in Newest(s, p, key, n) ==> x in s && p(x)
    ensures multiset(Newest(s, p, key, n)) <= multiset(s)
    ensures SortedDesc(Newest(s, p, key, n), key)
    ensures forall x :: x in s && p(x) && x !in Newest(s, p, key, n) ==>
              |Newest(s, p, key, n)| == n && (0 < n ==> KeyLe(key(x), key(Newest(s, p, key, n)[n - 1])))
  {
    var f := Filter(s, p);
    var r := Newest(s, p, key, n);
    TopSpec(f, key, n);
    forall x | x in r ensures x in s && p(x) {
      assert x in multiset(r);
      assert x in multiset(f);
    }
    assert multiset(f) <= multiset(s) by {
      forall x ensures multiset(f)[x] <= multiset(s)[x] {}
    }
    forall x | x in s && p(x) && x !in r
      ensures |r| == n && (0 < n ==> KeyLe(key(x), key(r[n - 1])))
    {
      assert x in multiset(f) - multiset(r);
    }
  }

  /** A matching document whose key is strictly greater than every other match's heads a
      non-empty listing: a record written after all others is listed first. */
  lemma NewestHead<T(!new)>(s: seq<T>, p: T -> bool, key: T -> SortKey, n: nat, x: T)
    requires x in s && p(x) && 0 < n
    requires forall y :: y in s && p(y) && y != x ==> !KeyLe(key(x), key(y))
    ensures |Newest(s, p, key, n)| > 0 && Newest(s, p, key, n)[0] == x
  {
    var r := Newest(s, p, key, n);
    NewestSpec(s, p, key, n);
    assert r != [] ==> r[0] in r;
    assert x in r;
    var k :| 0 <= k < |r| && r[k] == x;
    assert KeyLe(key(r[k]), key(r[0]));
  }
}
