/** The order statistics the pipeline borrows from numpy: np.percentile with
    its default linear method, np.median, and the built-in min and max.
    All of them are defined over the ascending rearrangement of their input. */
module Stats {
  import opened Common

  /** Inserts x into an ascending sequence, in front of the first element not below it. */
  function Insert(x: real, t: seq<real>): (r: seq<real>)
    ensures |r| == |t| + 1
  {
    if t == [] then [x]
    else if x <= t[0] then [x] + t
    else [t[0]] + Insert(x, t[1..])
  }

  /** Insertion adds exactly one x. */
  lemma {:induction false} InsertPermutes(x: real, t: seq<real>)
    ensures multiset(Insert(x, t)) == multiset(t) + multiset{x}
  {
    if t != [] && x > t[0] {
      InsertPermutes(x, t[1..]);
      assert t == [t[0]] + t[1..];
    }
  }

  /** Insertion keeps a sequence ascending and adds exactly one x. */
  lemma {:induction false} InsertSorted(x: real, t: seq<real>)
    requires Ascending(t)
    ensures Ascending(Insert(x, t))
    ensures multiset(Insert(x, t)) == multiset(t) + multiset{x}
  {
    InsertPermutes(x, t);
    if t != [] && x > t[0] {
      var rest := Insert(x, t[1..]);
      InsertSorted(x, t[1..]);
      InsertHeadBound(x, t);
      var r := [t[0]] + rest;
      assert Insert(x, t) == r;
      forall i, j | 0 <= i < j < |r|
        ensures r[i] <= r[j]
      {
        assert r[j] == rest[j - 1];
        if i > 0 {
          assert r[i] == rest[i - 1];
        }
      }
    }
  }

  /** Inserting an x above the head leaves every element at least the head. */
  lemma InsertHeadBound(x: real, t: seq<real>)
    requires Ascending(t) && t != [] && x > t[0]
    ensures forall k :: 0 <= k < |Insert(x, t[1..])| ==> t[0] <= Insert(x, t[1..])[k]
  {
    var rest := Insert(x, t[1..]);
    InsertPermutes(x, t[1..]);
    forall k | 0 <= k < |rest|
      ensures t[0] <= rest[k]
    {
      assert rest[k] in multiset(rest);
      if rest[k] != x {
        assert rest[k] in multiset(t[1..]);
      }
    }
  }

  /** The ascending rearrangement of s (what numpy sorts before it interpolates). */
  function Sort(s: seq<real>): (r: seq<real>)
    ensures |r| == |s|
  {
    if s == [] then [] else Insert(s[0], Sort(s[1..]))
  }

  /** Sort returns an ascending permutation of its input. */
  lemma {:induction false} SortSorted(s: seq<real>)
    ensures Ascending(Sort(s))
    ensures multiset(Sort(s)) == multiset(s)
  {
    if s != [] {
      SortSorted(s[1..]);
      InsertSorted(s[0], Sort(s[1..]));
      assert s == [s[0]] + s[1..];
    }
  }

  /** Python's min over a non-empty sequence. */
  function Min(s: seq<real>): (m: real)
    requires |s| > 0
    ensures m in s
    ensures forall x :: x in s ==> m <= x
  {
    if |s| == 1 then s[0]
    else
      var m' := Min(s[1..]);
      assert forall x :: x in s ==> x == s[0] || x in s[1..];
      if s[0] <= m' then s[0] else m'
  }

  /** Python's max over a non-empty sequence. */
  function Max(s: seq<real>): (m: real)
    requires |s| > 0
    ensures m in s
    ensures forall x :: x in s ==> x <= m
  {
    if |s| == 1 then s[0]
    else
      var m' := Max(s[1..]);
      assert forall x :: x in s ==> x == s[0] || x in s[1..];
      if s[0] >= m' then s[0] else m'
  }

  /** Every element of an ascending sequence lies between its ends. */
  lemma BetweenEnds(t: seq<real>, x: real)
    requires Ascending(t) && x in t
    ensures t[0] <= x <= t[|t| - 1]
  {
    var k :| 0 <= k < |t| && t[k] == x;
    assert k == 0 || t[0] <= t[k];
    assert k == |t| - 1 || t[k] <= t[|t| - 1];
  }

  /** Sorting keeps exactly the same elements. */
  lemma SortSameElements(s: seq<real>, x: real)
    ensures x in Sort(s) <==> x in s
  {
    SortSorted(s);
    assert x in Sort(s) <==> x in multiset(Sort(s));
    assert x in s <==> x in multiset(s);
  }

  /** The first element of the ascending rearrangement is the minimum. */
  lemma SortFirst(s: seq<real>)
    requires |s| > 0
    ensures Sort(s)[0] == Min(s)
  {
    var t := Sort(s);
    SortSorted(s);
    SortSameElements(s, t[0]);
    SortSameElements(s, Min(s));
    BetweenEnds(t, Min(s));
  }

  /** The last element of the ascending rearrangement is the maximum. */
  lemma SortLast(s: seq<real>)
    requires |s| > 0
    ensures Sort(s)[|s| - 1] == Max(s)
  {
    var t := Sort(s);
    SortSorted(s);
    SortSameElements(s, t[|s| - 1]);
    SortSameElements(s, Max(s));
    BetweenEnds(t, Max(s));
  }

  /** The point a fraction f of the way from a to b. */
  function Lerp(a: real, b: real, f: real): real
  {
    a + f * (b - a)
  }

  /** Linear interpolation in t at fractional position pos: between t[lo] and
      t[lo + 1], lo being the floor of pos (numpy's "linear" method). */
  function Interpolate(t: seq<real>, pos: real): real
    requires |t| > 0 && 0.0 <= pos <= (|t| - 1) as real
  {
    var lo := pos.Floor;
    if lo + 1 < |t| then Lerp(t[lo], t[lo + 1], pos - lo as real) else t[lo]
  }

  /** Where the q-th percentile falls in the ascending rearrangement of n values. */
  function Position(n: nat, q: real): (pos: real)
    requires n > 0 && 0.0 <= q <= 100.0
    ensures 0.0 <= pos <= (n - 1) as real
  {
    var m := (n - 1) as real;
    assert m * q <= m * 100.0;
    m * q / 100.0
  }

  /** np.percentile(s, q) with the default linear method. */
  function Percentile(s: seq<real>, q: real): real
    requires |s| > 0 && 0.0 <= q <= 100.0
  {
    Interpolate(Sort(s), Position(|s|, q))
  }

  /** np.median(s). */
  function Median(s: seq<real>): real
    requires |s| > 0
  {
    var t := Sort(s);
    var n := |s|;
    if n % 2 == 1 then t[n / 2] else (t[n / 2 - 1] + t[n / 2]) / 2.0
  }

  lemma MulNonneg(x: real, y: real)
    requires 0.0 <= x && 0.0 <= y
    ensures 0.0 <= x * y
  {
  }

  /** Moving a fraction in [0, 1] from a towards b >= a stays between them,
      and a larger fraction goes further. */
  lemma LerpMonotone(a: real, b: real, f1: real, f2: real)
    requires a <= b && 0.0 <= f1 <= f2 <= 1.0
    ensures a <= Lerp(a, b, f1) <= Lerp(a, b, f2) <= b
  {
    MulNonneg(f1, b - a);
    MulNonneg(f2 - f1, b - a);
    MulNonneg(1.0 - f2, b - a);
    assert (f2 - f1) * (b - a) == f2 * (b - a) - f1 * (b - a);
    assert (1.0 - f2) * (b - a) == (b - a) - f2 * (b - a);
  }

  /** An interpolated value lies between the sampled values on either side of it. */
  lemma InterpolateBetween(t: seq<real>, pos: real)
    requires |t| > 0 && 0.0 <= pos <= (|t| - 1) as real
    requires Ascending(t)
    ensures t[pos.Floor] <= Interpolate(t, pos)
    ensures pos.Floor + 1 < |t| ==> Interpolate(t, pos) <= t[pos.Floor + 1]
  {
    var lo := pos.Floor;
    if lo + 1 < |t| {
      var f := pos - lo as real;
      LerpMonotone(t[lo], t[lo + 1], f, f);
    }
  }

  /** Interpolation is monotone in the position over an ascending sequence. */
  lemma InterpolateMonotone(t: seq<real>, p1: real, p2: real)
    requires |t| > 0 && 0.0 <= p1 <= p2 <= (|t| - 1) as real
    requires Ascending(t)
    ensures Interpolate(t, p1) <= Interpolate(t, p2)
  {
    var lo1, lo2 := p1.Floor, p2.Floor;
    InterpolateBetween(t, p1);
    InterpolateBetween(t, p2);
    if lo1 == lo2 {
      if lo1 + 1 < |t| {
        LerpMonotone(t[lo1], t[lo1 + 1], p1 - lo1 as real, p2 - lo1 as real);
      }
    } else {
      assert t[lo1 + 1] <= t[lo2];
    }
  }

  lemma PositionMonotone(n: nat, q1: real, q2: real)
    requires n > 0 && 0.0 <= q1 <= q2 <= 100.0
    ensures Position(n, q1) <= Position(n, q2)
  {
    var m := (n - 1) as real;
    MulNonneg(m, q2 - q1);
    assert m * (q2 - q1) == m * q2 - m * q1;
    var x, y := m * q1, m * q2;
    assert x / 100.0 <= y / 100.0;
  }

  /** Every percentile lies between the minimum and the maximum. */
  lemma PercentileBounds(s: seq<real>, q: real)
    requires |s| > 0 && 0.0 <= q <= 100.0
    ensures Min(s) <= Percentile(s, q) <= Max(s)
  {
    var t := Sort(s);
    var pos := Position(|s|, q);
    SortSorted(s);
    SortFirst(s);
    SortLast(s);
    InterpolateMonotone(t, 0.0, pos);
    InterpolateMonotone(t, pos, (|s| - 1) as real);
  }

  /** A higher percentile is never below a lower one: in particular Q3 >= Q1,
      so an interquartile range is never negative. */
  lemma PercentileMonotone(s: seq<real>, q1: real, q2: real)
    requires |s| > 0 && 0.0 <= q1 <= q2 <= 100.0
    ensures Percentile(s, q1) <= Percentile(s, q2)
  {
    PositionMonotone(|s|, q1, q2);
    SortSorted(s);
    InterpolateMonotone(Sort(s), Position(|s|, q1), Position(|s|, q2));
  }

  /** The median lies between the minimum and the maximum. */
  lemma MedianBounds(s: seq<real>)
    requires |s| > 0
    ensures Min(s) <= Median(s) <= Max(s)
  {
    var t := Sort(s);
    var n := |s|;
    SortSorted(s);
    SortFirst(s);
    SortLast(s);
    assert n / 2 == 0 || t[0] <= t[n / 2];
    assert n / 2 == n - 1 || t[n / 2] <= t[n - 1];
    if n % 2 == 0 {
      assert n / 2 - 1 == 0 || t[0] <= t[n / 2 - 1];
      assert t[n / 2 - 1] <= t[n - 1];
    }
  }
}
