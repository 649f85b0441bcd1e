/**
 * Sequence helpers shared by the stores: the JavaScript array methods
 * `findIndex`/`find` (IndexOf), `filter` (Filter), and splitting a sequence
 * by a vector of decisions (Select).
 */
module Seqs {
  import opened Wrappers

  /** Index of the first element satisfying p, like `Array.prototype.findIndex` (None for -1). */
  function IndexOf<T>(s: seq<T>, p: T -> bool): (r: Option<nat>)
    ensures r.Some? ==> r.value < |s| && p(s[r.value])
    ensures r.Some? ==> forall j :: 0 <= j < r.value ==> !p(s[j])
    ensures r.None? <==> forall j :: 0 <= j < |s| ==> !p(s[j])
  {
    if s == [] then None
    else if p(s[0]) then Some(0)
    else match IndexOf(s[1..], p)
      case Some(k) => Some(k + 1)
      case None => None
  }

  /** The first element satisfying p, like `Array.prototype.find` (None for undefined). */
  function Find<T>(s: seq<T>, p: T -> bool): (r: Option<T>)
    ensures r.Some? <==> IndexOf(s, p).Some?
    ensures r.Some? ==> r.value == s[IndexOf(s, p).value]
    ensures r.Some? ==> exists k :: 0 <= k < |s| && s[k] == r.value && p(r.value)
                          && forall j :: 0 <= j < k ==> !p(s[j])
    ensures r.None? <==> forall j :: 0 <= j < |s| ==> !p(s[j])
  {
    match IndexOf(s, p)
    case Some(k) => Some(s[k])
    case None => None
  }

  /** The elements satisfying p, in their original order, like `Array.prototype.filter`. */
  function Filter<T(!new)>(s: seq<T>, p: T -> bool): (r: seq<T>)
    ensures |r| <= |s|
    ensures forall i :: 0 <= i < |r| ==> p(r[i])
  {
    if s == [] then []
    else (if p(s[0]) then [s[0]] else []) + Filter(s[1..], p)
  }

  /** Filter keeps every occurrence of an element satisfying p and none of the others. */
  lemma {:induction false} FilterCounts<T(!new)>(s: seq<T>, p: T -> bool, x: T)
    ensures multiset(Filter(s, p))[x] == if p(x) then multiset(s)[x] else 0
  {
    if s != [] {
      FilterCounts(s[1..], p, x);
      var head := if p(s[0]) then [s[0]] else [];
      assert s == [s[0]] + s[1..];
      assert multiset(Filter(s, p)) == multiset(head) + multiset(Filter(s[1..], p));
    }
  }

  /** Filtering distributes over concatenation: together with FilterKeepsAll this fixes the order of the result. */
  lemma {:induction false} FilterConcat<T(!new)>(a: seq<T>, b: seq<T>, p: T -> bool)
    ensures Filter(a + b, p) == Filter(a, p) + Filter(b, p)
  {
    if a == [] {
      assert a + b == b;
    } else {
      assert (a + b)[0] == a[0];
      assert (a + b)[1..] == a[1..] + b;
      FilterConcat(a[1..], b, p);
    }
  }

  /** A sequence whose every element satisfies p is its own filter. */
  lemma {:induction false} FilterKeepsAll<T(!new)>(s: seq<T>, p: T -> bool)
    requires forall i :: 0 <= i < |s| ==> p(s[i])
    ensures Filter(s, p) == s
  {
    if s != [] {
      FilterKeepsAll(s[1..], p);
    }
  }

  /** Filtering twice by the same predicate is filtering once. */
  lemma FilterIdempotent<T(!new)>(s: seq<T>, p: T -> bool)
    ensures Filter(Filter(s, p), p) == Filter(s, p)
  {
    FilterKeepsAll(Filter(s, p), p);
  }

  /** Find on a sequence with a known head. */
  lemma FindCons<T>(x: T, s: seq<T>, q: T -> bool)
    ensures Find([x] + s, q) == if q(x) then Some(x) else Find(s, q)
  {
    assert ([x] + s)[0] == x;
    assert ([x] + s)[1..] == s;
  }

  /** Filtering by p keeps the first q-element when every q-element satisfies p. */
  lemma {:induction false} FindFilter<T(!new)>(s: seq<T>, p: T -> bool, q: T -> bool)
    requires forall x :: q(x) ==> p(x)
    ensures Find(Filter(s, p), q) == Find(s, q)
  {
    if s != [] {
      var rest := Filter(s[1..], p);
      assert s == [s[0]] + s[1..];
      FindCons(s[0], s[1..], q);
      FindFilter(s[1..], p, q);
      if p(s[0]) {
        assert Filter(s, p) == [s[0]] + rest;
        FindCons(s[0], rest, q);
      } else {
        assert Filter(s, p) == rest;
      }
    }
  }

  /** The elements of s whose decision in flags equals b, in their original order. */
  function Select<T>(s: seq<T>, flags: seq<bool>, b: bool): (r: seq<T>)
    requires |flags| == |s|
    ensures |r| <= |s|
    decreases |s|
  {
    if s == [] then []
    else
      var n := |s| - 1;
      Select(s[..n], flags[..n], b) + (if flags[n] == b then [s[n]] else [])
  }

  /** Extending the decisions by one extends exactly one of the two selections. */
  lemma SelectSnoc<T>(s: seq<T>, flags: seq<bool>, x: T, f: bool, b: bool)
    requires |flags| == |s|
    ensures Select(s + [x], flags + [f], b) == Select(s, flags, b) + (if f == b then [x] else [])
  {
    assert (s + [x])[..|s|] == s;
    assert (flags + [f])[..|flags|] == flags;
  }

  /** The two selections of a sequence together hold exactly its elements. */
  lemma {:induction false} SelectPartition<T>(s: seq<T>, flags: seq<bool>)
    requires |flags| == |s|
    ensures multiset(Select(s, flags, true) + Select(s, flags, false)) == multiset(s)
    decreases |s|
  {
    if s != [] {
      var n := |s| - 1;
      SelectPartition(s[..n], flags[..n]);
      assert s == s[..n] + [s[n]];
    }
  }
}
