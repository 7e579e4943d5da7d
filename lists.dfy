/**
 * The JavaScript array operations the dashboard builds its lists with:
 * `filter`, `slice(0, n)`, and removal of the records that carry a key.
 */
module Lists {

  /** `s.filter(p)`: the elements of `s` that satisfy `p`, in their original order. */
  function Filter<T(!new)>(s: seq<T>, p: T -> bool): (r: seq<T>)
    ensures |r| <= |s|
    ensures forall x :: x in r <==> x in s && p(x)
  {
    if s == [] then []
    else
      assert s == [s[0]] + s[1..];
      (if p(s[0]) then [s[0]] else []) + Filter(s[1..], p)
  }

  /** Filtering keeps every occurrence of a passing element and drops every other one. */
  lemma {:induction false} FilterCounts<T(!new)>(s: seq<T>, p: T -> bool, x: T)
    ensures multiset(Filter(s, p))[x] == if p(x) then multiset(s)[x] else 0
  {
    if s != [] {
      assert s == [s[0]] + s[1..];
      FilterCounts(s[1..], p, x);
    }
  }

  /** Filtering one element in front of a list. */
  lemma FilterCons<T(!new)>(x: T, s: seq<T>, p: T -> bool)
    ensures Filter([x] + s, p) == (if p(x) then [x] else []) + Filter(s, p)
  {
    assert ([x] + s)[0] == x && ([x] + s)[1..] == s;
  }

  /** Filtering distributes over concatenation: the order of the kept elements is the input's. */
  lemma {:induction false} FilterAppend<T(!new)>(s: seq<T>, t: seq<T>, p: T -> bool)
    ensures Filter(s + t, p) == Filter(s, p) + Filter(t, p)
  {
    if s == [] {
      assert s + t == t;
    } else {
      assert s + t == [s[0]] + (s[1..] + t);
      assert s == [s[0]] + s[1..];
      FilterCons(s[0], s[1..] + t, p);
      FilterCons(s[0], s[1..], p);
      FilterAppend(s[1..], t, p);
    }
  }

  /** A list whose every element passes the test is returned unchanged. */
  lemma {:induction false} FilterKeepsAll<T(!new)>(s: seq<T>, p: T -> bool)
    requires forall i :: 0 <= i < |s| ==> p(s[i])
    ensures Filter(s, p) == s
  {
    if s != [] {
      FilterKeepsAll(s[1..], p);
    }
  }

  /** A list no element of which passes the test filters to nothing. */
  lemma {:induction false} FilterDropsAll<T(!new)>(s: seq<T>, p: T -> bool)
    requires forall i :: 0 <= i < |s| ==> !p(s[i])
    ensures Filter(s, p) == []
  {
    if s != [] {
      FilterDropsAll(s[1..], p);
    }
  }

  /** Filtering twice by the same test is filtering once. */
  lemma FilterIdempotent<T(!new)>(s: seq<T>, p: T -> bool)
    ensures Filter(Filter(s, p), p) == Filter(s, p)
  {
    var r := Filter(s, p);
    forall i | 0 <= i < |r| ensures p(r[i]) {
      assert r[i] in r;
    }
    FilterKeepsAll(r, p);
  }

  /** `s.slice(0, n)` for a non-negative `n`: the first `n` elements, or all of them. */
  function Take<T>(s: seq<T>, n: nat): (r: seq<T>)
    ensures |r| == if n < |s| then n else |s|
    ensures r <= s
  {
    if n < |s| then s[..n] else s
  }

  /** The test `x => key(x) !== id` of a delete handler. */
  function KeyIsNot<T>(key: T -> string, id: string): T -> bool
  {
    x => key(x) != id
  }

  /** `s.filter(x => key(x) !== id)`: the list without the records whose key is `id`. */
  function RemoveId<T(!new)>(s: seq<T>, key: T -> string, id: string): (r: seq<T>)
    ensures forall x :: x in r <==> x in s && key(x) != id
  {
    Filter(s, KeyIsNot(key, id))
  }

  /** Deleting drops every record whose key is `id` and keeps every other one, duplicates included. */
  lemma RemoveIdCounts<T(!new)>(s: seq<T>, key: T -> string, id: string, x: T)
    ensures multiset(RemoveId(s, key, id))[x] == if key(x) == id then 0 else multiset(s)[x]
  {
    FilterCounts(s, KeyIsNot(key, id), x);
  }

  /** No two records of `s` share a key. */
  ghost predicate UniqueKeys<T>(s: seq<T>, key: T -> string)
  {
    forall i, j :: 0 <= i < j < |s| ==> key(s[i]) != key(s[j])
  }

  /** Removing a key that no record carries leaves the list as it was. */
  lemma RemoveAbsentId<T(!new)>(s: seq<T>, key: T -> string, id: string)
    requires forall i :: 0 <= i < |s| ==> key(s[i]) != id
    ensures RemoveId(s, key, id) == s
  {
    FilterKeepsAll(s, KeyIsNot(key, id));
  }

  /** A repeated delete of the same key does nothing more. */
  lemma RemoveIdTwice<T(!new)>(s: seq<T>, key: T -> string, id: string)
    ensures RemoveId(RemoveId(s, key, id), key, id) == RemoveId(s, key, id)
  {
    FilterIdempotent(s, KeyIsNot(key, id));
  }

  /**
   * With unique keys, deleting the key of the record at `k` removes that one
   * record and keeps the others in their order.
   */
  lemma RemoveIdAt<T(!new)>(s: seq<T>, key: T -> string, k: nat)
    requires k < |s| && UniqueKeys(s, key)
    ensures RemoveId(s, key, key(s[k])) == s[..k] + s[k + 1..]
  {
    var p := KeyIsNot(key, key(s[k]));
    forall i | 0 <= i < |s| && i != k ensures p(s[i]) {
      assert key(s[i]) != key(s[k]);
    }
    assert s == s[..k] + ([s[k]] + s[k + 1..]);
    FilterDropsOne(s[..k], s[k], s[k + 1..], p);
  }

  /** Filtering out one failing element between passing ones leaves the others in order. */
  lemma FilterDropsOne<T(!new)>(before: seq<T>, x: T, after: seq<T>, p: T -> bool)
    requires forall i :: 0 <= i < |before| ==> p(before[i])
    requires forall i :: 0 <= i < |after| ==> p(after[i])
    requires !p(x)
    ensures Filter(before + ([x] + after), p) == before + after
  {
    FilterAppend(before, [x] + after, p);
    FilterCons(x, after, p);
    FilterKeepsAll(before, p);
    FilterKeepsAll(after, p);
    assert [] + after == after;
  }

  /** Filtering keeps keys unique. */
  lemma {:induction false} FilterKeepsUnique<T(!new)>(s: seq<T>, key: T -> string, p: T -> bool)
    requires UniqueKeys(s, key)
    ensures UniqueKeys(Filter(s, p), key)
  {
    if s != [] {
      var t := s[1..];
      assert UniqueKeys(t, key);
      FilterKeepsUnique(t, key, p);
      assert s == [s[0]] + t;
      FilterCons(s[0], t, p);
      if p(s[0]) {
        var r := Filter(s, p);
        var rt := Filter(t, p);
        assert r == [s[0]] + rt;
        forall j | 0 < j < |r| ensures key(r[0]) != key(r[j]) {
          assert r[j] == rt[j - 1] && rt[j - 1] in rt;
          var m :| 0 <= m < |t| && t[m] == rt[j - 1];
          assert s[m + 1] == t[m];
        }
      }
    }
  }

  /** Deleting keeps keys unique. */
  lemma RemoveIdKeepsUnique<T(!new)>(s: seq<T>, key: T -> string, id: string)
    requires UniqueKeys(s, key)
    ensures UniqueKeys(RemoveId(s, key, id), key)
  {
    FilterKeepsUnique(s, key, KeyIsNot(key, id));
  }
}
