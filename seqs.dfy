/**
 * The array operations the pages build their views from: `filter`, `map` with
 * replacement, and `Array.from(new Set(xs))`.
 */
module Seqs {

  /** `s.filter(p)`. */
  function Filter<T>(s: seq<T>, p: T -> bool): (r: seq<T>)
    ensures |r| <= |s|
    ensures forall k :: 0 <= k < |r| ==> p(r[k])
  {
    if s == [] then []
    else if p(s[0]) then [s[0]] + Filter(s[1..], p)
    else Filter(s[1..], p)
  }

  /** What `filter` keeps: exactly the elements of `s` that pass `p`. */
  lemma {:induction false} FilterMembers<T>(s: seq<T>, p: T -> bool)
    ensures var r := Filter(s, p); forall k :: 0 <= k < |r| ==> r[k] in s
    ensures var r := Filter(s, p); forall k :: 0 <= k < |s| ==> (s[k] in r <==> p(s[k]))
    decreases |s|
  {
    if s != [] {
      FilterMembers(s[1..], p);
      assert s == [s[0]] + s[1..];
    }
  }

  /** `filter` keeps each element at most as often as it occurs. */
  lemma {:induction false} FilterMultiset<T>(s: seq<T>, p: T -> bool)
    ensures multiset(Filter(s, p)) <= multiset(s)
    decreases |s|
  {
    if s != [] {
      FilterMultiset(s[1..], p);
      assert s == [s[0]] + s[1..];
    }
  }

  /** `filter` keeps every occurrence of a passing element and none of a failing one. */
  lemma {:induction false} FilterCounts<T>(s: seq<T>, p: T -> bool)
    ensures forall x :: multiset(Filter(s, p))[x] == if p(x) then multiset(s)[x] else 0
    decreases |s|
  {
    if s != [] {
      FilterCounts(s[1..], p);
      assert s == [s[0]] + s[1..];
    }
  }

  /** The positions of `s` whose element passes `p`. */
  ghost function Positions<T>(s: seq<T>, p: T -> bool): (r: set<int>)
    ensures forall k :: k in r <==> 0 <= k < |s| && p(s[k])
  {
    set k | 0 <= k < |s| && p(s[k])
  }

  /** The length of a filtered sequence is the number of positions whose element passes. */
  lemma {:induction false} FilterLengthCountsPositions<T>(s: seq<T>, p: T -> bool)
    ensures |Filter(s, p)| == |Positions(s, p)|
    decreases |s|
  {
    if s != [] {
      var init, last := s[..|s| - 1], s[|s| - 1];
      FilterLengthCountsPositions(init, p);
      assert s == init + [last];
      FilterAppend(init, [last], p);
      assert Filter([last], p) == if p(last) then [last] else [];
      if p(last) {
        assert Positions(s, p) == Positions(init, p) + {|s| - 1};
      } else {
        assert Positions(s, p) == Positions(init, p);
      }
    }
  }

  /** `r` is `s` with some elements left out and the rest in their original order. */
  ghost predicate SubsequenceOf<T>(r: seq<T>, s: seq<T>)
    decreases |s|
  {
    if s == [] then r == []
    else (r != [] && r[0] == s[0] && SubsequenceOf(r[1..], s[1..])) || SubsequenceOf(r, s[1..])
  }

  /** `filter` keeps the order of what it keeps. */
  lemma {:induction false} FilterIsSubsequence<T>(s: seq<T>, p: T -> bool)
    ensures SubsequenceOf(Filter(s, p), s)
    decreases |s|
  {
    if s != [] {
      FilterIsSubsequence(s[1..], p);
      if p(s[0]) {
        assert Filter(s, p)[1..] == Filter(s[1..], p);
      }
    }
  }

  /** A filter that keeps every element returns the sequence unchanged. */
  lemma {:induction false} FilterAll<T>(s: seq<T>, p: T -> bool)
    requires forall k :: 0 <= k < |s| ==> p(s[k])
    ensures Filter(s, p) == s
    decreases |s|
  {
    if s != [] {
      FilterAll(s[1..], p);
    }
  }

  /** A filter that keeps no element returns the empty sequence. */
  lemma {:induction false} FilterNone<T>(s: seq<T>, p: T -> bool)
    requires forall k :: 0 <= k < |s| ==> !p(s[k])
    ensures Filter(s, p) == []
    decreases |s|
  {
    if s != [] {
      FilterNone(s[1..], p);
    }
  }

  /** Filtering a concatenation filters each part. */
  lemma {:induction false} FilterAppend<T>(s: seq<T>, t: seq<T>, p: T -> bool)
    ensures Filter(s + t, p) == Filter(s, p) + Filter(t, p)
    decreases |s|
  {
    if s != [] {
      var u := s + t;
      assert u[0] == s[0] && u[1..] == s[1..] + t;
      FilterAppend(s[1..], t, p);
      if p(s[0]) {
        assert Filter(u, p) == [s[0]] + Filter(u[1..], p);
      } else {
        assert Filter(u, p) == Filter(u[1..], p);
      }
    } else {
      assert s + t == t;
    }
  }

  /**
   * Of two sequences of the same length, the one whose every element passing
   * `p` has a passing counterpart in the other keeps no more elements; one
   * position where only the other passes makes it keep strictly fewer.
   */
  lemma {:induction false} FilterLengthMonotone<T>(s: seq<T>, t: seq<T>, p: T -> bool)
    requires |s| == |t|
    requires forall k :: 0 <= k < |t| && p(t[k]) ==> p(s[k])
    ensures |Filter(t, p)| <= |Filter(s, p)|
    ensures (exists k :: 0 <= k < |s| && p(s[k]) && !p(t[k])) ==> |Filter(t, p)| < |Filter(s, p)|
    decreases |s|
  {
    if s != [] {
      assert forall k :: 0 <= k < |t| - 1 ==> t[1..][k] == t[k + 1] && s[1..][k] == s[k + 1];
      FilterLengthMonotone(s[1..], t[1..], p);
      if exists k :: 0 <= k < |s| && p(s[k]) && !p(t[k]) {
        var k :| 0 <= k < |s| && p(s[k]) && !p(t[k]);
        if k > 0 {
          assert p(s[1..][k - 1]) && !p(t[1..][k - 1]);
        }
      }
    }
  }

  // ---------------------------------------------------------------------------
  // The tag toggle of the equipment pickers
  // ---------------------------------------------------------------------------

  /** The test `e !== x`, as a function value. */
  function Other<T(==)>(x: T): T -> bool {
    e => e != x
  }

  /**
   * `s.includes(x) ? s.filter(e => e !== x) : [...s, x]`: an absent tag is
   * appended at the end; a present one loses every occurrence, and the other
   * tags stay, in their order.
   */
  function Toggle<T(==)>(s: seq<T>, x: T): (r: seq<T>)
    ensures x !in s ==> r == s + [x]
    ensures x in s ==> x !in r && SubsequenceOf(r, s)
    ensures x in s ==> multiset(r) == multiset(s)[x := 0]
    ensures forall k :: 0 <= k < |s| && s[k] != x ==> s[k] in r
    ensures forall k :: 0 <= k < |r| && r[k] != x ==> r[k] in s
  {
    if x in s then
      var r := Filter(s, Other(x));
      FilterMembers(s, Other(x));
      FilterIsSubsequence(s, Other(x));
      FilterOtherCounts(s, x);
      r
    else
      s + [x]
  }

  /** Filtering out `x` removes all its occurrences and keeps those of every other element. */
  lemma FilterOtherCounts<T>(s: seq<T>, x: T)
    ensures multiset(Filter(s, Other(x))) == multiset(s)[x := 0]
  {
    FilterCounts(s, Other(x));
    assert forall y :: multiset(Filter(s, Other(x)))[y] == multiset(s)[x := 0][y];
  }

  /** Toggling an absent tag twice gives back the original list. */
  lemma ToggleTwiceRestores<T>(s: seq<T>, x: T)
    requires x !in s
    ensures Toggle(Toggle(s, x), x) == s
  {
    FilterAll(s, Other(x));
    FilterAppend(s, [x], Other(x));
    assert Filter([x], Other(x)) == [];
  }

  /** `s.map(x => matches(x) ? y : x)`: every entry that matches is replaced by `y`. */
  function ReplaceWhere<T>(s: seq<T>, matches: T -> bool, y: T): (r: seq<T>)
    ensures |r| == |s|
    ensures forall k :: 0 <= k < |s| && !matches(s[k]) ==> r[k] == s[k]
    ensures forall k :: 0 <= k < |s| && matches(s[k]) ==> r[k] == y
  {
    seq(|s|, k requires 0 <= k < |s| => if matches(s[k]) then y else s[k])
  }

  // ---------------------------------------------------------------------------
  // Array.from(new Set(s))
  // ---------------------------------------------------------------------------

  predicate NoDuplicates<T(==)>(s: seq<T>) {
    forall i, j :: 0 <= i < j < |s| ==> s[i] != s[j]
  }

  /** The index of the first occurrence of `x` in `s`. */
  function FirstIndex<T(==)>(s: seq<T>, x: T): (i: nat)
    requires x in s
    ensures i < |s| && s[i] == x && x !in s[..i]
  {
    if s[0] == x then 0 else 1 + FirstIndex(s[1..], x)
  }

  /** The first index of an element of a prefix is its first index in the whole sequence. */
  lemma {:induction false} FirstIndexPrefix<T>(s: seq<T>, n: nat, x: T)
    requires n <= |s| && x in s[..n]
    ensures FirstIndex(s, x) == FirstIndex(s[..n], x)
    decreases n
  {
    if s[0] != x {
      assert s[..n][1..] == s[1..][..n - 1];
      FirstIndexPrefix(s[1..], n - 1, x);
    }
  }

  /**
   * `r` lists the distinct elements of `s` in order of first appearance: each
   * element of `s` exactly once, ordered by the index where it first occurs.
   */
  ghost predicate IsDistinctOf<T>(r: seq<T>, s: seq<T>) {
    && (forall k :: 0 <= k < |r| ==> r[k] in s)
    && (forall k :: 0 <= k < |s| ==> s[k] in r)
    && NoDuplicates(r)
    && (forall i, j :: 0 <= i < j < |r| ==> FirstIndex(s, r[i]) < FirstIndex(s, r[j]))
  }

  /** Elements of `init` keep their first index when `init` is extended by `last`. */
  lemma FirstIndexExtend<T>(init: seq<T>, last: T)
    ensures forall x :: x in init ==> FirstIndex(init + [last], x) == FirstIndex(init, x)
  {
    var s := init + [last];
    assert s[..|init|] == init;
    forall x | x in init ensures FirstIndex(s, x) == FirstIndex(init, x) {
      FirstIndexPrefix(s, |init|, x);
    }
  }

  /** A repeated element leaves the distinct elements as they were. */
  lemma DistinctStepSeen<T>(init: seq<T>, last: T, d: seq<T>)
    requires IsDistinctOf(d, init) && last in init
    ensures IsDistinctOf(d, init + [last])
  {
    var s := init + [last];
    FirstIndexExtend(init, last);
    assert forall k :: 0 <= k < |init| ==> s[k] == init[k];
    assert forall k :: 0 <= k < |d| ==> d[k] in init;
  }

  /** A new element is appended to the distinct elements. */
  lemma DistinctStepNew<T>(init: seq<T>, last: T, d: seq<T>)
    requires IsDistinctOf(d, init) && last !in init
    ensures IsDistinctOf(d + [last], init + [last])
  {
    var s, r := init + [last], d + [last];
    FirstIndexExtend(init, last);
    assert forall k :: 0 <= k < |init| ==> s[k] == init[k];
    assert forall k :: 0 <= k < |d| ==> r[k] == d[k] && r[k] in init;
    assert FirstIndex(s, last) == |init|;
    assert forall k :: 0 <= k < |d| ==> FirstIndex(s, r[k]) < |init|;
  }

  /** Extending `s` by one element extends its distinct elements by it, unless it was seen before. */
  lemma DistinctStep<T>(s: seq<T>, d: seq<T>)
    requires s != [] && IsDistinctOf(d, s[..|s| - 1])
    ensures var last := s[|s| - 1];
      IsDistinctOf(if last in s[..|s| - 1] then d else d + [last], s)
  {
    var init, last := s[..|s| - 1], s[|s| - 1];
    assert s == init + [last];
    if last in init {
      DistinctStepSeen(init, last, d);
    } else {
      DistinctStepNew(init, last, d);
    }
  }

  /** `Array.from(new Set(s))`. */
  function Distinct<T(==)>(s: seq<T>): (r: seq<T>)
    ensures IsDistinctOf(r, s)
    decreases |s|
  {
    if s == [] then []
    else
      var d := Distinct(s[..|s| - 1]);
      DistinctStep(s, d);
      if s[|s| - 1] in s[..|s| - 1] then d else d + [s[|s| - 1]]
  }
}
