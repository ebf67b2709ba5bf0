/** The penalty map that steers the alpha-shape radius (src/SNT/penalty.py):
    an exact-match binary search, the window selection of the rolling
    maximum, the min-max rescaled difference of two envelopes, the in-place
    plateau ("step") transform and the radius formula. */
module Penalty {
  import opened Common
  import opened Stats

  // ---------------------------------------------------------------------
  // b_search
  // ---------------------------------------------------------------------

  /** The binary search of b_search restricted to arr[low..high]: the
      position of x found there, or -1. */
  function SearchIn(arr: seq<real>, x: real, low: int, high: int): (m: int)
    requires 0 <= low && high < |arr|
    ensures -1 <= m < |arr|
    ensures m >= 0 ==> arr[m] == x && low <= m <= high
    decreases high - low + 1
  {
    if low > high then -1
    else
      var mid := (high + low) / 2;
      if arr[mid] < x then SearchIn(arr, x, mid + 1, high)
      else if arr[mid] > x then SearchIn(arr, x, low, mid - 1)
      else mid
  }

  /** b_search(arr, x). */
  function Search(arr: seq<real>, x: real): (m: int)
    ensures -1 <= m < |arr|
    ensures m >= 0 ==> arr[m] == x
  {
    SearchIn(arr, x, 0, |arr| - 1)
  }

  /** On an ascending range that holds x, the search finds it. */
  lemma {:induction false} SearchInComplete(arr: seq<real>, x: real, low: int, high: int, k: int)
    requires 0 <= low && high < |arr|
    requires Ascending(arr)
    requires low <= k <= high && arr[k] == x
    ensures SearchIn(arr, x, low, high) >= 0
    decreases high - low + 1
  {
    var mid := (high + low) / 2;
    assert low <= mid <= high;
    if arr[mid] < x {
      assert arr[mid] < arr[k];
      SearchInComplete(arr, x, mid + 1, high, k);
    } else if arr[mid] > x {
      assert arr[k] < arr[mid];
      SearchInComplete(arr, x, low, mid - 1, k);
    }
  }

  /** b_search on an ascending array returns -1 exactly when x is absent,
      and otherwise a position holding x. */
  lemma SearchCorrect(arr: seq<real>, x: real)
    requires Ascending(arr)
    ensures Search(arr, x) == -1 <==> x !in arr
    ensures Search(arr, x) >= 0 ==> arr[Search(arr, x)] == x
  {
    if x in arr {
      var k :| 0 <= k < |arr| && arr[k] == x;
      SearchInComplete(arr, x, 0, |arr| - 1, k);
    }
  }

  /** b_search(arr, x), with its while loop over low and high. */
  method BSearch(arr: seq<real>, x: real) returns (m: int)
    ensures m == Search(arr, x)
  {
    var low := 0;
    var high := |arr| - 1;
    while low <= high
      invariant 0 <= low && high < |arr|
      invariant SearchIn(arr, x, low, high) == Search(arr, x)
      decreases high - low
    {
      var mid := (high + low) / 2;
      if arr[mid] < x {
        low := mid + 1;
      } else if arr[mid] > x {
        high := mid - 1;
      } else {
        return mid;
      }
    }
    return -1;
  }

  // ---------------------------------------------------------------------
  // rolling_max: the choice of one sample per window
  // ---------------------------------------------------------------------

  /** end_inter after k increments: the right edge of window k, which is
      [min(xs) + k·w, min(xs) + (k+1)·w). */
  function WindowEnd(lo: real, w: real, k: nat): real
  {
    if k == 0 then lo + w else WindowEnd(lo, w, k - 1) + w
  }

  /** The left edge of window k. */
  function WindowStart(lo: real, w: real, k: nat): real
  {
    if k == 0 then lo else WindowEnd(lo, w, k - 1)
  }

  lemma {:induction false} WindowEndIsProduct(lo: real, w: real, k: nat)
    ensures WindowEnd(lo, w, k) == lo + (k + 1) as real * w
    ensures WindowStart(lo, w, k) == lo + k as real * w
  {
    if k > 0 {
      WindowEndIsProduct(lo, w, k - 1);
    }
  }

  /** With a positive width the edges grow with k. */
  lemma {:induction false} WindowEndMonotone(lo: real, w: real, k: nat, l: nat)
    requires w > 0.0 && k <= l
    ensures WindowEnd(lo, w, k) <= WindowEnd(lo, w, l)
    ensures k < l ==> WindowEnd(lo, w, k) <= WindowStart(lo, w, l)
    decreases l
  {
    if k < l {
      WindowEndMonotone(lo, w, k, l - 1);
    }
  }

  /** Position of the first entry whose second component is maximal: what
      max(points, key=lambda v: v[1]) returns. */
  function FirstMax(ps: seq<(real, real)>): (r: nat)
    requires |ps| > 0
    ensures r < |ps|
    ensures forall k :: 0 <= k < |ps| ==> ps[k].1 <= ps[r].1
    ensures forall k :: 0 <= k < r ==> ps[k].1 < ps[r].1
  {
    if |ps| == 1 then 0
    else
      var r' := FirstMax(ps[..|ps| - 1]);
      if ps[|ps| - 1].1 > ps[r'].1 then |ps| - 1 else r'
  }

  /** Window k consists of the visited samples bounds[k] .. bounds[k+1]-1:
      all lie left of the window's end, the sample that closed the
      previous window lies at or beyond that window's end, and ks[k] is
      the first sample of the block with the largest flux. */
  predicate WindowChosen(xs: seq<real>, ys: seq<real>, lo: real, w: real,
                         ks: seq<nat>, bounds: seq<nat>, k: nat)
    requires |ys| == |xs| && |bounds| == |ks| + 1 && k < |ks|
    requires forall l :: 0 <= l < |bounds| ==> bounds[l] < |xs|
  {
    bounds[k] <= ks[k] < bounds[k + 1] &&
    (k > 0 ==> WindowStart(lo, w, k) <= xs[bounds[k]]) &&
    (forall j :: bounds[k] <= j < bounds[k + 1] ==>
       xs[j] < WindowEnd(lo, w, k) && ys[j] <= ys[ks[k]]) &&
    (forall j :: bounds[k] <= j < ks[k] ==> ys[j] < ys[ks[k]])
  }

  /** The windows chosen so far partition the samples 0 .. bounds[|ks|]-1. */
  predicate WindowsChosen(xs: seq<real>, ys: seq<real>, w: real, ks: seq<nat>, bounds: seq<nat>)
    requires |ys| == |xs| > 0
  {
    |bounds| == |ks| + 1 && bounds[0] == 0 &&
    (forall l :: 0 <= l < |bounds| ==> bounds[l] < |xs|) &&
    (forall k :: 0 <= k < |ks| ==> WindowChosen(xs, ys, Min(xs), w, ks, bounds, k))
  }

  /** The inner loop of rolling_max from sample i0 with window end endInter:
      appends samples while they lie left of the end, and stops after the
      second-to-last sample. ValueError when no sample was taken (max of an
      empty list); IndexError when the loop runs past the last sample. */
  method CollectWindow(ys: seq<real>, xs: seq<real>, i0: nat, endInter: real)
    returns (o: Outcome, i: nat, best: nat, last: bool)
    requires |ys| == |xs| && i0 < |xs|
    ensures o == Fail(ValueError) <==> !(xs[i0] < endInter)
    ensures o == Fail(IndexError) <==> xs[i0] < endInter && i0 == |xs| - 1
    ensures o.Fail? ==> o == Fail(ValueError) || o == Fail(IndexError)
    ensures o.Pass? ==> i0 < i < |xs| && (last <==> i == |xs| - 1)
    ensures o.Pass? && !last ==> endInter <= xs[i]
    ensures o.Pass? ==> i0 <= best < i
    ensures o.Pass? ==> forall j :: i0 <= j < i ==> xs[j] < endInter && ys[j] <= ys[best]
    ensures o.Pass? ==> forall j :: i0 <= j < best ==> ys[j] < ys[best]
  {
    var points: seq<(real, real)> := [];
    i, best := i0, i0;
    last := false;
    while true
      invariant i0 <= i <= |xs|
      invariant |points| == i - i0
      invariant forall k :: 0 <= k < |points| ==> points[k] == (xs[i0 + k], ys[i0 + k])
      invariant forall j :: i0 <= j < i ==> xs[j] < endInter
      invariant i0 < i ==> i != |xs| - 1
      invariant i == |xs| ==> i0 == |xs| - 1
      decreases |xs| - i
    {
      if i >= |xs| {
        o := Fail(IndexError);
        return;
      }
      if !(xs[i] < endInter) {
        break;
      }
      points := points + [(xs[i], ys[i])];
      i := i + 1;
      if i == |xs| - 1 {
        last := true;
        break;
      }
    }
    if points == [] {
      o := Fail(ValueError);
      return;
    }
    var f := FirstMax(points);
    best := i0 + f;
    forall j | i0 <= j < i
      ensures ys[j] <= ys[best] && (j < best ==> ys[j] < ys[best])
    {
      assert points[j - i0].1 == ys[j];
    }
    o := Pass;
  }

  /** The window selection of rolling_max(ys, xs, w_size): the chosen
      positions ks (x_cont and y_cont are the samples there). The windows'
      blocks are returned in bounds. */
  method RollingMax(ys: seq<real>, xs: seq<real>, w: real)
    returns (o: Outcome, xCont: seq<real>, yCont: seq<real>, ks: seq<nat>, ghost bounds: seq<nat>)
    requires |ys| == |xs|
    ensures |xs| == 0 ==> o == Fail(ValueError)
    ensures |xs| > 0 ==> WindowsChosen(xs, ys, w, ks, bounds)
    ensures forall k :: 0 <= k < |ks| ==> ks[k] < |xs| - 1
    ensures xCont == Select(xs, ks) && yCont == Select(ys, ks)
    ensures o.Pass? ==> |ks| > 0 && bounds[|ks|] == |xs| - 1
    ensures o == Fail(IndexError) <==> |xs| == 1 && w > 0.0
    ensures o.Fail? ==> o == Fail(ValueError) || o == Fail(IndexError)
    ensures o == Fail(ValueError) && |xs| > 0 ==>
              xs[bounds[|ks|]] >= WindowEnd(Min(xs), w, |ks|)
    ensures |xs| > 0 && w <= 0.0 ==> o == Fail(ValueError)
  {
    xCont, yCont, ks, bounds := [], [], [], [0];
    if |xs| == 0 {
      o := Fail(ValueError);
      return;
    }
    var lo := Min(xs);
    var i: nat := 0;
    var endInter := lo + w;
    while true
      invariant i < |xs| && |bounds| == |ks| + 1 && bounds[|ks|] == i
      invariant WindowsChosen(xs, ys, w, ks, bounds)
      invariant forall k :: 0 <= k < |ks| ==> ks[k] < |xs| - 1
      invariant xCont == Select(xs, ks) && yCont == Select(ys, ks)
      invariant endInter == WindowEnd(lo, w, |ks|)
      invariant i > 0 ==> i < |xs| - 1 && WindowStart(lo, w, |ks|) <= xs[i]
      invariant |ks| > 0 ==> i > 0
      invariant |xs| == 1 || w <= 0.0 ==> ks == []
      decreases |xs| - i
    {
      var oc, next, best, last := CollectWindow(ys, xs, i, endInter);
      if oc.Fail? {
        o := oc;
        return;
      }
      ChooseWindow(xs, ys, w, ks, bounds, best, next);
      xCont, yCont := xCont + [xs[best]], yCont + [ys[best]];
      ks, bounds := ks + [best], bounds + [next];
      endInter := endInter + w;
      if last {
        o := Pass;
        return;
      }
      i := next;
    }
  }

  /** A window taken from bounds[|ks|] up to next, with its maximum at best,
      extends the windows chosen so far. */
  lemma ChooseWindow(xs: seq<real>, ys: seq<real>, w: real, ks: seq<nat>, bounds: seq<nat>, best: nat, next: nat)
    requires |ys| == |xs| > 0 && WindowsChosen(xs, ys, w, ks, bounds)
    requires bounds[|ks|] <= best < next < |xs|
    requires |ks| > 0 ==> WindowStart(Min(xs), w, |ks|) <= xs[bounds[|ks|]]
    requires forall j :: bounds[|ks|] <= j < next ==> xs[j] < WindowEnd(Min(xs), w, |ks|) && ys[j] <= ys[best]
    requires forall j :: bounds[|ks|] <= j < best ==> ys[j] < ys[best]
    ensures WindowsChosen(xs, ys, w, ks + [best], bounds + [next])
  {
    var ks', bounds' := ks + [best], bounds + [next];
    assert WindowChosen(xs, ys, Min(xs), w, ks', bounds', |ks|);
    forall l | 0 <= l < |ks|
      ensures WindowChosen(xs, ys, Min(xs), w, ks', bounds', l)
    {
      assert WindowChosen(xs, ys, Min(xs), w, ks, bounds, l);
    }
  }

  /** Block boundaries only grow. */
  lemma {:induction false} BoundsIncrease(xs: seq<real>, ys: seq<real>, w: real, ks: seq<nat>, bounds: seq<nat>,
                                          k: nat, l: nat)
    requires |ys| == |xs| > 0 && WindowsChosen(xs, ys, w, ks, bounds)
    requires k < l <= |ks|
    ensures bounds[k] < bounds[l]
    decreases l
  {
    assert WindowChosen(xs, ys, Min(xs), w, ks, bounds, l - 1);
    if k < l - 1 {
      BoundsIncrease(xs, ys, w, ks, bounds, k, l - 1);
    }
  }

  /** Every sample before bounds[|ks|] lies in exactly one block. */
  lemma {:induction false} BlockOf(xs: seq<real>, ys: seq<real>, w: real, ks: seq<nat>, bounds: seq<nat>, j: nat)
    returns (k: nat)
    requires |ys| == |xs| > 0 && WindowsChosen(xs, ys, w, ks, bounds)
    requires j < bounds[|ks|]
    ensures k < |ks| && bounds[k] <= j < bounds[k + 1]
  {
    k := 0;
    while bounds[k + 1] <= j
      invariant k < |ks| && bounds[k] <= j
      decreases |ks| - k
    {
      k := k + 1;
    }
  }

  /** On ascending wavelengths with a positive width, block k holds exactly
      the visited samples of the window [min(xs)+k·w, min(xs)+(k+1)·w). */
  lemma RollingMaxWindows(xs: seq<real>, ys: seq<real>, w: real, ks: seq<nat>, bounds: seq<nat>,
                          k: nat, j: nat)
    requires |ys| == |xs| > 0 && WindowsChosen(xs, ys, w, ks, bounds)
    requires Ascending(xs) && w > 0.0
    requires k < |ks| && j < bounds[|ks|]
    ensures bounds[k] <= j < bounds[k + 1] <==>
              WindowStart(Min(xs), w, k) <= xs[j] < WindowEnd(Min(xs), w, k)
  {
    var lo := Min(xs);
    assert xs[j] in xs;
    if bounds[k] <= j < bounds[k + 1] {
      assert WindowChosen(xs, ys, lo, w, ks, bounds, k);
      if k > 0 {
        assert bounds[k] <= j;
        assert xs[bounds[k]] <= xs[j];
      }
    } else {
      var k' := BlockOf(xs, ys, w, ks, bounds, j);
      assert WindowChosen(xs, ys, lo, w, ks, bounds, k');
      if k' < k {
        WindowEndMonotone(lo, w, k', k);
      } else {
        assert k < k';
        WindowEndMonotone(lo, w, k, k');
        assert xs[bounds[k']] <= xs[j];
      }
    }
  }

  /** The recorded wavelengths increase when the input ones do. */
  lemma RollingMaxIncreasing(xs: seq<real>, ys: seq<real>, w: real, ks: seq<nat>, bounds: seq<nat>)
    requires |ys| == |xs| > 0 && WindowsChosen(xs, ys, w, ks, bounds)
    requires StrictlyIncreasing(xs)
    ensures IncreasingIndices(ks, |xs|)
    ensures StrictlyIncreasing(Select(xs, ks))
  {
    forall k, l | 0 <= k < l < |ks|
      ensures ks[k] < ks[l]
    {
      assert WindowChosen(xs, ys, Min(xs), w, ks, bounds, k);
      assert WindowChosen(xs, ys, Min(xs), w, ks, bounds, l);
      if k + 1 < l {
        BoundsIncrease(xs, ys, w, ks, bounds, k + 1, l);
      }
    }
    forall k | 0 <= k < |ks|
      ensures ks[k] < |xs|
    {
      assert WindowChosen(xs, ys, Min(xs), w, ks, bounds, k);
    }
  }

  // ---------------------------------------------------------------------
  // penalty
  // ---------------------------------------------------------------------

  /** A raw penalty entry: the Python int 0 appended for a NaN envelope or a
      zero s2, or the numpy float s2 - s1. The distinction matters only for
      a division by zero, which raises for ints and gives NaN for numpy. */
  datatype Raw = Zero | Diff(d: real)

  function RawValue(e: Raw): real
  {
    match e
    case Zero => 0.0
    case Diff(d) => d
  }

  /** The raw penalty at one wavelength; None stands for NaN. */
  function RawEntry(s1w: Option<real>, s2w: Option<real>): (e: Raw)
    ensures RawValue(e) == (if s1w.None? || s2w.None? || s2w.value == 0.0 then 0.0
                            else s2w.value - s1w.value)
  {
    if s1w.None? || s2w.None? || s2w.value == 0.0 then Zero
    else Diff(s2w.value - s1w.value)
  }

  /** The raw penalties over zip(s1_w, s2_w), which stops at the shorter. */
  function RawPenalties(s1w: seq<Option<real>>, s2w: seq<Option<real>>): (ps: seq<Raw>)
    ensures |ps| == if |s1w| <= |s2w| then |s1w| else |s2w|
    ensures forall k :: 0 <= k < |ps| ==> ps[k] == RawEntry(s1w[k], s2w[k])
  {
    if |s1w| == 0 || |s2w| == 0 then []
    else [RawEntry(s1w[0], s2w[0])] + RawPenalties(s1w[1..], s2w[1..])
  }

  function Values(ps: seq<Raw>): (vs: seq<real>)
    ensures |vs| == |ps|
    ensures forall k :: 0 <= k < |ps| ==> vs[k] == RawValue(ps[k])
  {
    seq(|ps|, k requires 0 <= k < |ps| => RawValue(ps[k]))
  }

  /** Min-max rescaling of p. */
  function Rescale(p: real, lo: real, hi: real): real
    requires lo < hi
  {
    (p - lo) / (hi - lo)
  }

  /** Rescaling is undone by lo + v·(hi - lo). */
  lemma RescaleInverse(p: real, lo: real, hi: real)
    requires lo < hi
    ensures lo + Rescale(p, lo, hi) * (hi - lo) == p
  {
  }

  /** Rescaling maps [lo, hi] onto [0, 1], lo to 0, hi to 1, preserving order. */
  lemma RescaleBounds(p: real, q: real, lo: real, hi: real)
    requires lo < hi && lo <= p <= hi
    ensures 0.0 <= Rescale(p, lo, hi) <= 1.0
    ensures p == lo ==> Rescale(p, lo, hi) == 0.0
    ensures p == hi ==> Rescale(p, lo, hi) == 1.0
    ensures p <= q ==> Rescale(p, lo, hi) <= Rescale(q, lo, hi)
  {
    var d := hi - lo;
    var r := Rescale(p, lo, hi);
    assert r * d == p - lo;
    if p <= q {
      assert Rescale(q, lo, hi) * d == q - lo;
    }
  }

  /** Every value of vs rescaled between its minimum and maximum. */
  function RescaleAll(vs: seq<real>): (r: seq<Option<real>>)
    requires |vs| > 0 && Min(vs) < Max(vs)
    ensures |r| == |vs|
    ensures forall k :: 0 <= k < |vs| ==> r[k] == Some(Rescale(vs[k], Min(vs), Max(vs)))
  {
    seq(|vs|, k requires 0 <= k < |vs| => Some(Rescale(vs[k], Min(vs), Max(vs))))
  }

  /** The list penalty returns, with None for NaN: ValueError on an empty
      list (min of nothing); when all entries are equal the division is by
      zero, which raises when the first entry is the int 0 and gives NaN
      everywhere when it is a numpy float. */
  function PenaltyResult(s1w: seq<Option<real>>, s2w: seq<Option<real>>): Result<seq<Option<real>>>
  {
    var ps := RawPenalties(s1w, s2w);
    if ps == [] then Failure(ValueError)
    else
      var vs := Values(ps);
      if Min(vs) < Max(vs) then Success(RescaleAll(vs))
      else if ps[0].Zero? then Failure(ZeroDivisionError)
      else Success(seq(|vs|, k => None))
  }

  /** Rescaled values lie in [0, 1], the minimum goes to 0, the maximum to 1,
      and the order of the values is kept. */
  lemma RescaleAllBounds(vs: seq<real>, k: nat, l: nat)
    requires |vs| > 0 && Min(vs) < Max(vs) && k < |vs| && l < |vs|
    ensures 0.0 <= RescaleAll(vs)[k].value <= 1.0
    ensures vs[k] == Min(vs) ==> RescaleAll(vs)[k] == Some(0.0)
    ensures vs[k] == Max(vs) ==> RescaleAll(vs)[k] == Some(1.0)
    ensures vs[k] <= vs[l] ==> RescaleAll(vs)[k].value <= RescaleAll(vs)[l].value
  {
    assert vs[k] in vs;
    RescaleBounds(vs[k], vs[l], Min(vs), Max(vs));
  }

  /** One entry per wavelength, every entry in [0, 1], the smallest raw
      penalty mapped to 0, the largest to 1, and order kept, whenever the
      raw penalties are not all equal. */
  lemma PenaltyBounds(s1w: seq<Option<real>>, s2w: seq<Option<real>>, k: nat, l: nat)
    requires var vs := Values(RawPenalties(s1w, s2w)); |vs| > 0 && Min(vs) < Max(vs)
    requires k < |RawPenalties(s1w, s2w)| && l < |RawPenalties(s1w, s2w)|
    ensures PenaltyResult(s1w, s2w).Success?
    ensures |PenaltyResult(s1w, s2w).value| == |RawPenalties(s1w, s2w)|
    ensures PenaltyResult(s1w, s2w).value[k].Some?
    ensures 0.0 <= PenaltyResult(s1w, s2w).value[k].value <= 1.0
    ensures var vs := Values(RawPenalties(s1w, s2w));
            vs[k] == Min(vs) ==> PenaltyResult(s1w, s2w).value[k] == Some(0.0)
    ensures var vs := Values(RawPenalties(s1w, s2w));
            vs[k] == Max(vs) ==> PenaltyResult(s1w, s2w).value[k] == Some(1.0)
    ensures var vs := Values(RawPenalties(s1w, s2w));
            vs[k] <= vs[l] ==> PenaltyResult(s1w, s2w).value[k].value <= PenaltyResult(s1w, s2w).value[l].value
  {
    RescaleAllBounds(Values(RawPenalties(s1w, s2w)), k, l);
  }

  /** When the raw penalties are all equal, penalty divides by zero. */
  lemma PenaltyDegenerate(s1w: seq<Option<real>>, s2w: seq<Option<real>>)
    requires var ps := RawPenalties(s1w, s2w); |ps| > 0 && forall k :: 0 <= k < |ps| ==> RawValue(ps[k]) == RawValue(ps[0])
    ensures var ps := RawPenalties(s1w, s2w);
            ps[0].Zero? ==> PenaltyResult(s1w, s2w) == Failure(ZeroDivisionError)
    ensures var ps := RawPenalties(s1w, s2w);
            ps[0].Diff? ==> PenaltyResult(s1w, s2w).Success? &&
                            forall k :: 0 <= k < |ps| ==> PenaltyResult(s1w, s2w).value[k].None?
  {
    var vs := Values(RawPenalties(s1w, s2w));
    assert Min(vs) == vs[0] && Max(vs) == vs[0];
  }

  /** The first loop of penalty: one raw entry per pair of zip(s1_w, s2_w). */
  method CollectRaw(s1w: seq<Option<real>>, s2w: seq<Option<real>>) returns (ps: seq<Raw>)
    ensures ps == RawPenalties(s1w, s2w)
  {
    var n := if |s1w| <= |s2w| then |s1w| else |s2w|;
    ps := [];
    for i := 0 to n
      invariant ps == RawPenalties(s1w, s2w)[..i]
    {
      ps := ps + [RawEntry(s1w[i], s2w[i])];
    }
  }

  /** penalty(s1, s2, wavelengths) on the envelopes evaluated at the
      wavelengths: builds the raw list, then rewrites it in place. */
  method ComputePenalty(s1w: seq<Option<real>>, s2w: seq<Option<real>>) returns (r: Result<seq<Option<real>>>)
    ensures r == PenaltyResult(s1w, s2w)
  {
    var ps := CollectRaw(s1w, s2w);
    if ps == [] {
      return Failure(ValueError);
    }
    var vs := Values(ps);
    var minp, maxp := Min(vs), Max(vs);
    var out := seq(|vs|, k requires 0 <= k < |vs| => Some(vs[k]));
    for idx := 0 to |vs|
      invariant |out| == |vs|
      invariant forall k :: idx <= k < |vs| ==> out[k] == Some(vs[k])
      invariant minp < maxp ==> forall k :: 0 <= k < idx ==> out[k] == RescaleAll(vs)[k]
      invariant minp >= maxp ==> forall k :: 0 <= k < idx ==> out[k] == None
      invariant idx > 0 && minp == maxp ==> ps[0].Diff?
    {
      if minp < maxp {
        out := out[idx := Some(Rescale(out[idx].value, minp, maxp))];
      } else if idx == 0 && ps[0].Zero? {
        return Failure(ZeroDivisionError);
      } else {
        out := out[idx := None];
      }
    }
    if minp < maxp {
      assert out == RescaleAll(vs);
    } else {
      assert out == seq(|vs|, k => None);
    }
    return Success(out);
  }

  // ---------------------------------------------------------------------
  // step_transform
  // ---------------------------------------------------------------------

  /** One past the right end of the plateau around peak h: the first h + j
      (from j) that is past the end or at least step to the right of xs[h]. */
  function RightStop(xs: seq<real>, h: nat, step: real, j: nat): (r: nat)
    requires h < |xs| && h + j <= |xs|
    ensures h + j <= r <= |xs|
    decreases |xs| - (h + j)
  {
    if h + j < |xs| && xs[h + j] < xs[h] + step then RightStop(xs, h, step, j + 1) else h + j
  }

  /** One before the left end of the plateau around peak h (possibly -1). */
  function LeftStop(xs: seq<real>, h: nat, step: real, j: nat): (r: int)
    requires h < |xs| && j <= h + 1
    ensures -1 <= r <= h - j
    decreases h + 1 - j
  {
    if h - j >= 0 && xs[h - j] > xs[h] - step then LeftStop(xs, h, step, j + 1) else h - j
  }

  /** s with the positions lo .. hi-1 set to v. */
  function SetRange(s: seq<real>, lo: int, hi: int, v: real): (r: seq<real>)
    ensures |r| == |s|
    ensures forall p :: 0 <= p < |s| ==> r[p] == if lo <= p < hi then v else s[p]
  {
    seq(|s|, p requires 0 <= p < |s| => if lo <= p < hi then v else s[p])
  }

  /** Position p lies strictly inside the plateau of the peak at h. */
  predicate InPlateau(xs: seq<real>, h: nat, step: real, p: int)
    requires h < |xs|
  {
    LeftStop(xs, h, step, 0) < p < RightStop(xs, h, step, 0)
  }

  /** ys after the walks right and left of the peak at h. */
  function Plateau(ys: seq<real>, xs: seq<real>, h: nat, step: real): (r: seq<real>)
    requires |ys| == |xs| && h < |xs|
    ensures |r| == |ys|
  {
    SetRange(ys, LeftStop(xs, h, step, 0) + 1, RightStop(xs, h, step, 0), ys[h])
  }

  /** ys after the plateaus of the peaks hs, in that order. */
  function Steps(ys: seq<real>, xs: seq<real>, hs: seq<nat>, step: real): (r: seq<real>)
    requires |ys| == |xs|
    requires forall k :: 0 <= k < |hs| ==> hs[k] < |xs|
    ensures |r| == |ys|
    decreases |hs|
  {
    if hs == [] then ys else Steps(Plateau(ys, xs, hs[0], step), xs, hs[1..], step)
  }

  /** On ascending wavelengths, the walk right of h stops at the first
      position at least step to the right of xs[h]. */
  lemma {:induction false} RightStopSorted(xs: seq<real>, h: nat, step: real, j: nat, p: nat)
    requires h < |xs| && h + j <= |xs| && Ascending(xs)
    requires forall m :: h <= m < h + j ==> xs[m] < xs[h] + step
    requires h <= p < |xs|
    ensures p < RightStop(xs, h, step, j) <==> xs[p] < xs[h] + step
    decreases |xs| - (h + j)
  {
    if h + j < |xs| && xs[h + j] < xs[h] + step {
      RightStopSorted(xs, h, step, j + 1, p);
    } else if h + j < |xs| && h + j <= p {
      assert xs[h + j] <= xs[p];
    }
  }

  /** On ascending wavelengths, the walk left of h stops at the first
      position at least step to the left of xs[h]. */
  lemma {:induction false} LeftStopSorted(xs: seq<real>, h: nat, step: real, j: nat, p: nat)
    requires h < |xs| && j <= h + 1 && Ascending(xs)
    requires forall m :: h - j < m <= h ==> xs[m] > xs[h] - step
    requires p <= h
    ensures LeftStop(xs, h, step, j) < p <==> xs[p] > xs[h] - step
    decreases h + 1 - j
  {
    if h - j >= 0 && xs[h - j] > xs[h] - step {
      LeftStopSorted(xs, h, step, j + 1, p);
    } else if h - j >= 0 && p <= h - j {
      assert xs[p] <= xs[h - j];
    }
  }

  /** On ascending wavelengths with a positive step, the plateau of the peak
      at h covers exactly the samples strictly within step of xs[h]. */
  lemma PlateauSorted(xs: seq<real>, h: nat, step: real, p: nat)
    requires h < |xs| && p < |xs| && Ascending(xs) && step > 0.0
    ensures InPlateau(xs, h, step, p) <==> xs[h] - step < xs[p] < xs[h] + step
  {
    if p >= h {
      RightStopSorted(xs, h, step, 0, p);
      RightStopSorted(xs, h, step, 0, h);
      LeftStopSorted(xs, h, step, 0, h);
      assert xs[h] <= xs[p];
    } else {
      LeftStopSorted(xs, h, step, 0, p);
      RightStopSorted(xs, h, step, 0, h);
      assert xs[p] <= xs[h];
    }
  }

  /** Entries outside every plateau keep their value. */
  lemma {:induction false} StepsOutside(ys: seq<real>, xs: seq<real>, hs: seq<nat>, step: real, p: nat)
    requires |ys| == |xs| && p < |ys|
    requires forall k :: 0 <= k < |hs| ==> hs[k] < |xs|
    requires forall k :: 0 <= k < |hs| ==> !InPlateau(xs, hs[k], step, p)
    ensures Steps(ys, xs, hs, step)[p] == ys[p]
    decreases |hs|
  {
    if hs != [] {
      assert !InPlateau(xs, hs[0], step, p);
      StepsOutside(Plateau(ys, xs, hs[0], step), xs, hs[1..], step, p);
    }
  }

  /** Every value of the transformed fluxes is one of the original fluxes. */
  lemma {:induction false} StepsValues(ys: seq<real>, xs: seq<real>, hs: seq<nat>, step: real, p: nat)
    requires |ys| == |xs| && p < |ys|
    requires forall k :: 0 <= k < |hs| ==> hs[k] < |xs|
    ensures Steps(ys, xs, hs, step)[p] in ys
    decreases |hs|
  {
    if hs != [] {
      var ys' := Plateau(ys, xs, hs[0], step);
      StepsValues(ys', xs, hs[1..], step, p);
      var q :| 0 <= q < |ys'| && ys'[q] == Steps(ys, xs, hs, step)[p];
      assert ys'[q] in ys;
    }
  }

  /** order[k] is the position np.argpartition(heights, -(k+1))[-(k+1)]
      returns: a peak whose height is the (k+1)-th largest. */
  predicate RankOrder(heights: seq<real>, order: seq<nat>)
  {
    |order| == |heights| &&
    forall k :: 0 <= k < |order| ==>
      order[k] < |heights| && heights[order[k]] == Sort(heights)[|heights| - 1 - k]
  }

  /** The peak positions in the order step_transform processes them. */
  function Processing(peakIndices: seq<nat>, order: seq<nat>): (hs: seq<nat>)
    requires forall k :: 0 <= k < |order| ==> order[k] < |peakIndices|
    ensures |hs| == |order|
  {
    seq(|order|, k requires 0 <= k < |order| => peakIndices[order[k]])
  }

  /** Peaks are processed by descending height. */
  lemma ProcessedByHeight(heights: seq<real>, order: seq<nat>, k: nat, l: nat)
    requires RankOrder(heights, order) && k <= l < |order|
    ensures heights[order[l]] <= heights[order[k]]
  {
    SortSorted(heights);
  }

  /** The plateau of the peak at h, by the two walks of step_transform. */
  method ApplyPlateau(ys: array<real>, xs: seq<real>, h: nat, step: real)
    requires ys.Length == |xs| && h < |xs|
    modifies ys
    ensures ys[..] == Plateau(old(ys[..]), xs, h, step)
  {
    ghost var ys0 := ys[..];
    ghost var v := ys0[h];
    ghost var hi := RightStop(xs, h, step, 0);
    var j := 0;
    while h + j < |xs| && xs[h + j] < xs[h] + step
      invariant h + j <= |xs|
      invariant RightStop(xs, h, step, j) == hi
      invariant ys[..] == SetRange(ys0, h, h + j, v)
      decreases |xs| - (h + j)
    {
      ys[h + j] := ys[h];
      j := j + 1;
    }
    assert h + j == hi;
    assert ys[..] == SetRange(ys0, h + 1, hi, v);
    j := 0;
    while h - j >= 0 && xs[h - j] > xs[h] - step
      invariant j <= h + 1
      invariant LeftStop(xs, h, step, j) == LeftStop(xs, h, step, 0)
      invariant ys[..] == SetRange(ys0, h - j + 1, hi, v)
      decreases h + 1 - j
    {
      ys[h - j] := ys[h];
      j := j + 1;
    }
  }

  /** step_transform(ys, xs, step_size) with find_peaks' indices and heights
      given, and order[i-1] standing for np.argpartition(heights, -i)[-i]. */
  method StepTransform(ys: array<real>, xs: seq<real>, peakIndices: seq<nat>, heights: seq<real>,
                       order: seq<nat>, step: real)
    requires ys.Length == |xs| && |peakIndices| == |heights|
    requires forall k :: 0 <= k < |peakIndices| ==> peakIndices[k] < |xs|
    requires RankOrder(heights, order)
    modifies ys
    ensures ys[..] == Steps(old(ys[..]), xs, Processing(peakIndices, order), step)
  {
    ghost var hs := Processing(peakIndices, order);
    for i := 1 to |peakIndices| + 1
      invariant Steps(old(ys[..]), xs, hs, step) == Steps(ys[..], xs, hs[i - 1..], step)
    {
      var h := peakIndices[order[i - 1]];
      assert hs[i - 1..][0] == h && hs[i - 1..][1..] == hs[i..];
      ApplyPlateau(ys, xs, h, step);
    }
  }

  // ---------------------------------------------------------------------
  // r_map
  // ---------------------------------------------------------------------

  function Pow(p: real, n: nat): real
  {
    if n == 0 then 1.0 else p * Pow(p, n - 1)
  }

  lemma {:induction false} PowUnit(p: real, n: nat)
    requires 0.0 <= p <= 1.0
    ensures 0.0 <= Pow(p, n) <= 1.0
  {
    if n > 0 {
      PowUnit(p, n - 1);
      MulNonneg(p, Pow(p, n - 1));
      MulNonneg(1.0 - p, Pow(p, n - 1));
    }
  }

  /** The position of p_y that p_y[b_search(p_x, x)] reads: -1 reads the
      last element; IndexError when there is none. */
  function PenaltyIndex(py: seq<real>, px: seq<real>, x: real): (r: Result<nat>)
    ensures r.Failure? ==> r.error == IndexError
    ensures r.Success? ==> r.value < |py|
  {
    var m := Search(px, x);
    var pos := if m < 0 then m + |py| else m;
    if 0 <= pos < |py| then Success(pos) else Failure(IndexError)
  }

  /** r_map(x, p_y, p_x, lambda_min, r_min, r_max, nu) with an integer
      exponent nu. */
  function RMap(x: real, py: seq<real>, px: seq<real>, lambdaMin: real, rMin: real, rMax: real, nu: nat): (r: Result<real>)
    requires lambdaMin != 0.0
    ensures r.Failure? <==> PenaltyIndex(py, px, x).Failure?
  {
    match PenaltyIndex(py, px, x)
    case Failure(e) => Failure(e)
    case Success(pos) =>
      var c := x / lambdaMin;
      Success(c * (rMin + (rMax - rMin) * Pow(py[pos], nu)))
  }

  /** On ascending p_x, a hit reads the penalty at x itself; a miss reads
      the last penalty; the lookup fails only on an empty p_y or a hit
      beyond its end. */
  lemma PenaltyIndexCases(py: seq<real>, px: seq<real>, x: real)
    requires Ascending(px)
    ensures x in px && Search(px, x) < |py| ==>
              Search(px, x) >= 0 && PenaltyIndex(py, px, x) == Success(Search(px, x)) && px[Search(px, x)] == x
    ensures x !in px ==>
              PenaltyIndex(py, px, x) == (if |py| == 0 then Failure(IndexError) else Success(|py| - 1))
  {
    SearchCorrect(px, x);
  }

  /** With penalties in [0, 1], r_min <= r_max and x/lambda_min >= 0, the
      radius lies between c·r_min and c·r_max. */
  lemma RMapBounds(x: real, py: seq<real>, px: seq<real>, lambdaMin: real, rMin: real, rMax: real, nu: nat)
    requires lambdaMin != 0.0 && x / lambdaMin >= 0.0 && rMin <= rMax
    requires forall k :: 0 <= k < |py| ==> 0.0 <= py[k] <= 1.0
    requires PenaltyIndex(py, px, x).Success?
    ensures (x / lambdaMin) * rMin <= RMap(x, py, px, lambdaMin, rMin, rMax, nu).value <= (x / lambdaMin) * rMax
  {
    var c := x / lambdaMin;
    var p := Pow(py[PenaltyIndex(py, px, x).value], nu);
    PowUnit(py[PenaltyIndex(py, px, x).value], nu);
    MulNonneg(rMax - rMin, p);
    MulNonneg(rMax - rMin, 1.0 - p);
    MulNonneg(c, (rMax - rMin) * p);
    MulNonneg(c, (rMax - rMin) * (1.0 - p));
  }
}
