/**
 * The array operations the components use: `filter`, `slice(0, k)` and `map`,
 * each with the same left-to-right semantics as in JavaScript.
 */
module Seqs {
  import opened Wrappers

  /** `s.filter(p)`: the elements satisfying `p`, in their original order. */
  function Filter<T>(s: seq<T>, p: T -> bool): (r: seq<T>)
    ensures |r| <= |s|
    ensures forall i :: 0 <= i < |r| ==> r[i] in s && p(r[i])
    ensures forall i :: 0 <= i < |s| && p(s[i]) ==> s[i] in r
  {
    if s == [] then [] else (if p(s[0]) then [s[0]] else []) + Filter(s[1..], p)
  }

  /** `s.slice(0, k)`. */
  function Take<T>(s: seq<T>, k: nat): (r: seq<T>)
    ensures |r| == if k < |s| then k else |s|
    ensures r == s[..|r|]
  {
    if k < |s| then s[..k] else s
  }

  /** `s.find(p)`: the first element satisfying `p`, or nothing. */
  function Find<T>(s: seq<T>, p: T -> bool): (r: Option<T>)
    ensures r.None? <==> forall i :: 0 <= i < |s| ==> !p(s[i])
    ensures r.Some? ==> exists i ::
      (0 <= i < |s| && s[i] == r.value && p(s[i]) && forall j :: 0 <= j < i ==> !p(s[j]))
  {
    if s == [] then None
    else if p(s[0]) then Some(s[0])
    else
      var r := Find(s[1..], p);
      assert r.Some? ==> exists i ::
        (1 <= i < |s| && s[i] == r.value && p(s[i]) && forall j :: 0 <= j < i ==> !p(s[j])) by {
        if r.Some? {
          var i :| 0 <= i < |s| - 1 && s[1..][i] == r.value && p(s[1..][i]) &&
            forall j :: 0 <= j < i ==> !p(s[1..][j]);
          assert forall j :: 1 <= j < i + 1 ==> s[j] == s[1..][j - 1];
        }
      }
      r
  }

  /** `s.map(f)`. */
  function Map<T, U>(s: seq<T>, f: T -> U): (r: seq<U>)
    ensures |r| == |s|
    ensures forall i :: 0 <= i < |s| ==> r[i] == f(s[i])
  {
    if s == [] then [] else [f(s[0])] + Map(s[1..], f)
  }

  /** The positions of `s`, from `k` on, whose element satisfies `p`, in ascending order. */
  function PositionsFrom<T>(s: seq<T>, p: T -> bool, k: nat): (idx: seq<nat>)
    requires k <= |s|
    ensures forall i :: 0 <= i < |idx| ==> k <= idx[i] < |s|
    decreases |s| - k
  {
    if k == |s| then [] else (if p(s[k]) then [k] else []) + PositionsFrom(s, p, k + 1)
  }

  /** The positions found are strictly ascending. */
  lemma {:induction false} PositionsFromAscending<T>(s: seq<T>, p: T -> bool, k: nat)
    requires k <= |s|
    ensures forall i, j :: 0 <= i < j < |PositionsFrom(s, p, k)| ==> PositionsFrom(s, p, k)[i] < PositionsFrom(s, p, k)[j]
    decreases |s| - k
  {
    if k < |s| {
      PositionsFromAscending(s, p, k + 1);
      var rest, idx := PositionsFrom(s, p, k + 1), PositionsFrom(s, p, k);
      var d := if p(s[k]) then 1 else 0;
      assert idx == (if p(s[k]) then [k] else []) + rest;
      forall i, j | 0 <= i < j < |idx|
        ensures idx[i] < idx[j]
      {
        assert idx[j] == rest[j - d];
        if i >= d {
          assert idx[i] == rest[i - d];
        }
      }
    }
  }

  /** Every position from `k` on that passes the test is found. */
  lemma {:induction false} PositionsFromComplete<T>(s: seq<T>, p: T -> bool, k: nat)
    requires k <= |s|
    ensures forall m :: k <= m < |s| && p(s[m]) ==> m in PositionsFrom(s, p, k)
    decreases |s| - k
  {
    if k < |s| {
      PositionsFromComplete(s, p, k + 1);
      var rest, idx := PositionsFrom(s, p, k + 1), PositionsFrom(s, p, k);
      assert idx == (if p(s[k]) then [k] else []) + rest;
    }
  }

  /**
   * `r` holds the elements of `s` that satisfy `p`: one per such position, in
   * ascending order of position, so order and multiplicity are those of `s`.
   */
  ghost predicate FilteredFrom<T>(r: seq<T>, s: seq<T>, p: T -> bool) {
    var idx := PositionsFrom(s, p, 0);
    |r| == |idx| && forall i :: 0 <= i < |r| ==> r[i] == s[idx[i]]
  }

  lemma {:induction false} FilterFromPositions<T>(s: seq<T>, p: T -> bool, k: nat)
    requires k <= |s|
    ensures |Filter(s[k..], p)| == |PositionsFrom(s, p, k)|
    ensures forall i :: 0 <= i < |Filter(s[k..], p)| ==> Filter(s[k..], p)[i] == s[PositionsFrom(s, p, k)[i]]
    decreases |s| - k
  {
    if k < |s| {
      FilterFromPositions(s, p, k + 1);
      assert s[k..][1..] == s[k + 1..];
    }
  }

  /** `filter` keeps exactly the elements at the positions satisfying `p`, in their original order. */
  lemma FilterKeepsOrder<T>(s: seq<T>, p: T -> bool)
    ensures FilteredFrom(Filter(s, p), s, p)
    ensures var idx := PositionsFrom(s, p, 0);
      && (forall i, j :: 0 <= i < j < |idx| ==> idx[i] < idx[j])
      && (forall m :: 0 <= m < |s| && p(s[m]) ==> m in idx)
  {
    PositionsFromAscending(s, p, 0);
    PositionsFromComplete(s, p, 0);
    FilterFromPositions(s, p, 0);
    assert s[0..] == s;
  }

  lemma {:induction false} FilterConcat<T>(a: seq<T>, b: seq<T>, p: T -> bool)
    ensures Filter(a + b, p) == Filter(a, p) + Filter(b, p)
  {
    if a == [] {
      assert a + b == b;
    } else {
      assert (a + b)[1..] == a[1..] + b;
      FilterConcat(a[1..], b, p);
    }
  }

  /** Two filters with complementary predicates split `s`: nothing is lost or duplicated. */
  lemma {:induction false} FilterSplit<T>(s: seq<T>, p: T -> bool, q: T -> bool)
    requires forall x :: q(x) == !p(x)
    ensures |Filter(s, p)| + |Filter(s, q)| == |s|
    ensures multiset(Filter(s, p)) + multiset(Filter(s, q)) == multiset(s)
  {
    if s != [] {
      FilterSplit(s[1..], p, q);
      assert s == [s[0]] + s[1..];
    }
  }

  /** Filtering twice does not depend on the order of the two predicates. */
  lemma {:induction false} FilterCommute<T>(s: seq<T>, p: T -> bool, q: T -> bool)
    ensures Filter(Filter(s, p), q) == Filter(Filter(s, q), p)
  {
    if s != [] {
      FilterCommute(s[1..], p, q);
      var h := [s[0]];
      FilterConcat(if p(s[0]) then h else [], Filter(s[1..], p), q);
      FilterConcat(if q(s[0]) then h else [], Filter(s[1..], q), p);
    }
  }

  /** A filter whose predicate holds everywhere keeps everything. */
  lemma {:induction false} FilterKeepsAll<T>(s: seq<T>, p: T -> bool)
    requires forall i :: 0 <= i < |s| ==> p(s[i])
    ensures Filter(s, p) == s
  {
    if s != [] {
      FilterKeepsAll(s[1..], p);
    }
  }

  /** A filter whose predicate fails everywhere keeps nothing. */
  lemma {:induction false} FilterKeepsNone<T>(s: seq<T>, p: T -> bool)
    requires forall i :: 0 <= i < |s| ==> !p(s[i])
    ensures Filter(s, p) == []
  {
    if s != [] {
      FilterKeepsNone(s[1..], p);
    }
  }

  /** Mapping distributes over concatenation. */
  lemma {:induction false} MapConcat<T, U>(a: seq<T>, b: seq<T>, f: T -> U)
    ensures Map(a + b, f) == Map(a, f) + Map(b, f)
  {
    if a != [] {
      assert (a + b)[1..] == a[1..] + b;
      MapConcat(a[1..], b, f);
    }
  }

  /** Taking a prefix commutes with mapping. */
  lemma TakeMap<T, U>(s: seq<T>, f: T -> U, k: nat)
    ensures Take(Map(s, f), k) == Map(Take(s, k), f)
  {
  }
}
