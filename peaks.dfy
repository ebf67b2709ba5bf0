/** remove_peaks and abs_rl_slope (src/SNT/smooth.py): repeatedly drop the
    anchors whose slope score is above the 99.5th percentile of all scores. */
module Peaks {
  import opened Common
  import opened Stats
  import opened PyLists

  function Abs(v: real): real
  {
    if v < 0.0 then -v else v
  }

  /** Slope of the segment from a to b, points being (wavelength, flux). */
  function Slope(a: (real, real), b: (real, real)): real
    requires b.0 != a.0
  {
    (b.1 - a.1) / (b.0 - a.0)
  }

  /** abs_rl_slope: the sum of the absolute left and right slopes at b when
      they have opposite signs, and 0 otherwise. */
  function AbsRlSlope(a: (real, real), b: (real, real), c: (real, real)): (r: real)
    requires b.0 != a.0 && c.0 != b.0
    ensures r >= 0.0
  {
    var left := Slope(a, b);
    var right := Slope(b, c);
    if left * right < 0.0 then Abs(left) + Abs(right) else 0.0
  }

  lemma QuotientSign(n: real, d: real)
    requires d > 0.0
    ensures n / d > 0.0 <==> n > 0.0
    ensures n / d < 0.0 <==> n < 0.0
  {
    var q := n / d;
    assert q * d == n;
    if q >= 0.0 { MulNonneg(q, d); } else { MulNonneg(-q, d); }
  }

  lemma ProductSign(u: real, v: real)
    ensures u * v < 0.0 <==> (u > 0.0 && v < 0.0) || (u < 0.0 && v > 0.0)
  {
    if u >= 0.0 && v >= 0.0 { MulNonneg(u, v); }
    if u <= 0.0 && v <= 0.0 { MulNonneg(-u, -v); }
    if u > 0.0 && v < 0.0 { assert u * v == -(u * -v); }
    if u < 0.0 && v > 0.0 { assert u * v == -(-u * v); }
  }

  /** Along increasing wavelengths the score is non-zero exactly at a strict
      local maximum or a strict local minimum of the flux. */
  lemma AbsRlSlopeExtremum(a: (real, real), b: (real, real), c: (real, real))
    requires a.0 < b.0 < c.0
    ensures AbsRlSlope(a, b, c) > 0.0 <==>
              (b.1 > a.1 && b.1 > c.1) || (b.1 < a.1 && b.1 < c.1)
  {
    QuotientSign(b.1 - a.1, b.0 - a.0);
    QuotientSign(c.1 - b.1, c.0 - b.0);
    ProductSign(Slope(a, b), Slope(b, c));
  }

  /** A strict local maximum or minimum of ys at interior position i. */
  predicate LocalExtremum(ys: seq<real>, i: nat)
    requires 0 < i < |ys| - 1
  {
    (ys[i] > ys[i - 1] && ys[i] > ys[i + 1]) || (ys[i] < ys[i - 1] && ys[i] < ys[i + 1])
  }

  /** An entry of remove_peaks' derivatives list: an anchor's wavelength, its
      flux and its slope score. */
  datatype Peak = Peak(x: real, y: real, score: real)

  /** The three anchor lists remove_peaks alters in place: wavelengths,
      fluxes and positions in the spectrum. */
  datatype Anchors = Anchors(xs: seq<real>, ys: seq<real>, idx: seq<int>)

  predicate Aligned(a: Anchors)
  {
    |a.ys| == |a.xs| && |a.idx| == |a.xs|
  }

  /** The anchors as (wavelength, flux, index) triples. */
  function Triples(a: Anchors): (r: seq<(real, real, int)>)
    requires Aligned(a)
    ensures |r| == |a.xs|
    ensures forall i :: 0 <= i < |r| ==> r[i] == (a.xs[i], a.ys[i], a.idx[i])
  {
    seq(|a.xs|, i requires 0 <= i < |a.xs| => (a.xs[i], a.ys[i], a.idx[i]))
  }

  /** The anchors as (wavelength, index) pairs. */
  function Pairs(a: Anchors): (r: seq<(real, int)>)
    requires Aligned(a)
    ensures |r| == |a.xs|
    ensures forall i :: 0 <= i < |r| ==> r[i] == (a.xs[i], a.idx[i])
  {
    seq(|a.xs|, i requires 0 <= i < |a.xs| => (a.xs[i], a.idx[i]))
  }

  function Xs(ps: seq<Peak>): (r: seq<real>)
    ensures |r| == |ps|
    ensures forall i :: 0 <= i < |ps| ==> r[i] == ps[i].x
  {
    seq(|ps|, i requires 0 <= i < |ps| => ps[i].x)
  }

  function Ys(ps: seq<Peak>): (r: seq<real>)
    ensures |r| == |ps|
    ensures forall i :: 0 <= i < |ps| ==> r[i] == ps[i].y
  {
    seq(|ps|, i requires 0 <= i < |ps| => ps[i].y)
  }

  /** The dvalues list: the scores of the recorded peaks. */
  function Scores(ps: seq<Peak>): (r: seq<real>)
    ensures |r| == |ps|
    ensures forall i :: 0 <= i < |ps| ==> r[i] == ps[i].score
  {
    seq(|ps|, i requires 0 <= i < |ps| => ps[i].score)
  }

  /** The score of the anchor at interior position i. */
  function ScoreAt(xs: seq<real>, ys: seq<real>, i: nat): real
    requires |xs| == |ys| && StrictlyIncreasing(xs) && 0 < i < |xs| - 1
  {
    AbsRlSlope((xs[i - 1], ys[i - 1]), (xs[i], ys[i]), (xs[i + 1], ys[i + 1]))
  }

  /** The derivatives list once the first loop has visited positions 1 .. hi - 1. */
  function PeaksBelow(xs: seq<real>, ys: seq<real>, hi: nat): seq<Peak>
    requires |xs| == |ys| && StrictlyIncreasing(xs) && 1 <= hi && (hi == 1 || hi < |xs|)
  {
    if hi == 1 then []
    else
      var i := hi - 1;
      var s := ScoreAt(xs, ys, i);
      PeaksBelow(xs, ys, i) + (if s != 0.0 then [Peak(xs[i], ys[i], s)] else [])
  }

  /** The derivatives list built from the whole anchor list. */
  function InitialPeaks(xs: seq<real>, ys: seq<real>): seq<Peak>
    requires |xs| == |ys| && StrictlyIncreasing(xs)
  {
    PeaksBelow(xs, ys, if |xs| > 2 then |xs| - 1 else 1)
  }

  /** v is one of the wavelengths and lies strictly between the first and the last. */
  predicate Interior(xs: seq<real>, v: real)
  {
    |xs| > 0 && xs[0] < v < xs[|xs| - 1] && v in xs
  }

  /** What holds of the derivatives list and the anchors between removals.
      The flux clause is what lets anchors_y.remove find every recorded flux. */
  predicate ValidState(peaks: seq<Peak>, a: Anchors, popByPosition: bool)
  {
    Aligned(a) && StrictlyIncreasing(a.xs) && StrictlyIncreasing(Xs(peaks)) &&
    (forall k :: 0 <= k < |peaks| ==> Interior(a.xs, peaks[k].x)) &&
    (!popByPosition ==> multiset(Ys(peaks)) <= multiset(a.ys))
  }

  /** Removing one anchor for peak d: anchors_idx and anchors_x lose the
      position of d's wavelength; anchors_y loses the first flux equal to d's
      (as written), or the same position (popByPosition). */
  function RemoveAnchor(a: Anchors, d: Peak, popByPosition: bool): (r: Anchors)
    requires Aligned(a) && d.x in a.xs && (!popByPosition ==> d.y in a.ys)
    ensures Aligned(r) && |r.xs| == |a.xs| - 1
  {
    var pos := IndexOf(a.xs, d.x).value;
    var py := if popByPosition then pos else IndexOf(a.ys, d.y).value;
    Anchors(RemoveAt(a.xs, pos), RemoveAt(a.ys, py), RemoveAt(a.idx, pos))
  }

  lemma MultisetRemoveAt<T>(s: seq<T>, i: nat)
    requires i < |s|
    ensures multiset(RemoveAt(s, i)) == multiset(s) - multiset{s[i]}
  {
    assert s == s[..i] + [s[i]] + s[i + 1..];
  }

  lemma RemoveAtIncreasing(s: seq<real>, i: nat)
    requires i < |s| && StrictlyIncreasing(s)
    ensures StrictlyIncreasing(RemoveAt(s, i))
  {
    var r := RemoveAt(s, i);
    forall m, n | 0 <= m < n < |r|
      ensures r[m] < r[n]
    {
      var m' := if m < i then m else m + 1;
      var n' := if n < i then n else n + 1;
      assert r[m] == s[m'] && r[n] == s[n'];
    }
  }

  /** An interior wavelength other than the removed one stays interior. */
  lemma InteriorAfterRemove(xs: seq<real>, pos: nat, v: real)
    requires StrictlyIncreasing(xs) && 0 < pos < |xs| - 1
    requires Interior(xs, v) && v != xs[pos]
    ensures Interior(RemoveAt(xs, pos), v)
  {
    var r := RemoveAt(xs, pos);
    var t :| 0 <= t < |xs| && xs[t] == v;
    if t < pos { assert r[t] == v; } else { assert r[t - 1] == v; }
  }

  /** Where a peak's wavelength sits among the anchors: strictly inside. */
  lemma PeakPosition(peaks: seq<Peak>, a: Anchors, k: nat, popByPosition: bool)
    requires ValidState(peaks, a, popByPosition) && k < |peaks|
    ensures peaks[k].x in a.xs && (!popByPosition ==> peaks[k].y in a.ys)
    ensures 0 < IndexOf(a.xs, peaks[k].x).value < |a.xs| - 1
  {
    var d := peaks[k];
    assert Interior(a.xs, d.x);
    if !popByPosition {
      assert Ys(peaks)[k] == d.y;
      assert d.y in multiset(Ys(peaks));
    }
  }

  /** b arises from a by dropping anchors: the two end wavelengths stay, and
      every (wavelength, index) pair of b -- every triple when fluxes are
      popped by position -- is one of a's. */
  predicate KeepsShape(a: Anchors, b: Anchors, popByPosition: bool)
  {
    Aligned(a) && Aligned(b) &&
    (|a.xs| > 0 ==> |b.xs| > 0 && b.xs[0] == a.xs[0] && b.xs[|b.xs| - 1] == a.xs[|a.xs| - 1]) &&
    multiset(Pairs(b)) <= multiset(Pairs(a)) &&
    (popByPosition ==> multiset(Triples(b)) <= multiset(Triples(a)))
  }

  lemma KeepsShapeTrans(a: Anchors, b: Anchors, c: Anchors, popByPosition: bool)
    requires KeepsShape(a, b, popByPosition) && KeepsShape(b, c, popByPosition)
    ensures KeepsShape(a, c, popByPosition)
  {
  }

  /** Removing the anchor of an interior wavelength keeps the wavelengths
      increasing and the two end anchors, and leaves only pairs (triples when
      the flux is popped by position) that were there before. */
  lemma RemoveAnchorShape(a: Anchors, d: Peak, popByPosition: bool)
    requires Aligned(a) && StrictlyIncreasing(a.xs) && Interior(a.xs, d.x)
    requires 0 < IndexOf(a.xs, d.x).value < |a.xs| - 1
    requires !popByPosition ==> d.y in a.ys
    ensures StrictlyIncreasing(RemoveAnchor(a, d, popByPosition).xs)
    ensures KeepsShape(a, RemoveAnchor(a, d, popByPosition), popByPosition)
  {
    var pos := IndexOf(a.xs, d.x).value;
    var r := RemoveAnchor(a, d, popByPosition);
    RemoveAtIncreasing(a.xs, pos);
    assert r.xs[0] == a.xs[0] && r.xs[|r.xs| - 1] == a.xs[|a.xs| - 1];
    RemoveAnchorPairs(a, d, popByPosition);
    if popByPosition {
      RemoveAnchorTriples(a, d);
    }
  }

  /** Removing an anchor leaves only (wavelength, index) pairs that were there. */
  lemma RemoveAnchorPairs(a: Anchors, d: Peak, popByPosition: bool)
    requires Aligned(a) && d.x in a.xs && (!popByPosition ==> d.y in a.ys)
    ensures multiset(Pairs(RemoveAnchor(a, d, popByPosition))) <= multiset(Pairs(a))
  {
    var pos := IndexOf(a.xs, d.x).value;
    PairsRemoveAt(a, RemoveAnchor(a, d, popByPosition), pos);
    MultisetRemoveAt(Pairs(a), pos);
  }

  /** Popping the flux by position leaves only triples that were there. */
  lemma RemoveAnchorTriples(a: Anchors, d: Peak)
    requires Aligned(a) && d.x in a.xs
    ensures multiset(Triples(RemoveAnchor(a, d, true))) <= multiset(Triples(a))
  {
    var pos := IndexOf(a.xs, d.x).value;
    TriplesRemoveAt(a, RemoveAnchor(a, d, true), pos);
    MultisetRemoveAt(Triples(a), pos);
  }

  lemma PairsRemoveAt(a: Anchors, r: Anchors, pos: nat)
    requires Aligned(a) && Aligned(r) && pos < |a.xs|
    requires r.xs == RemoveAt(a.xs, pos) && r.idx == RemoveAt(a.idx, pos)
    ensures Pairs(r) == RemoveAt(Pairs(a), pos)
  {
    var p, q := Pairs(r), RemoveAt(Pairs(a), pos);
    forall m | 0 <= m < |p|
      ensures p[m] == q[m]
    {
      if m < pos { assert q[m] == Pairs(a)[m]; } else { assert q[m] == Pairs(a)[m + 1]; }
    }
  }

  lemma TriplesRemoveAt(a: Anchors, r: Anchors, pos: nat)
    requires Aligned(a) && Aligned(r) && pos < |a.xs|
    requires r.xs == RemoveAt(a.xs, pos) && r.ys == RemoveAt(a.ys, pos) && r.idx == RemoveAt(a.idx, pos)
    ensures Triples(r) == RemoveAt(Triples(a), pos)
  {
    var p, q := Triples(r), RemoveAt(Triples(a), pos);
    forall m | 0 <= m < |p|
      ensures p[m] == q[m]
    {
      if m < pos { assert q[m] == Triples(a)[m]; } else { assert q[m] == Triples(a)[m + 1]; }
    }
  }

  /** One removal keeps the state valid. */
  lemma RemoveKeepsValid(peaks: seq<Peak>, a: Anchors, k: nat, popByPosition: bool)
    requires ValidState(peaks, a, popByPosition) && k < |peaks|
    ensures peaks[k].x in a.xs && (!popByPosition ==> peaks[k].y in a.ys)
    ensures ValidState(RemoveAt(peaks, k), RemoveAnchor(a, peaks[k], popByPosition), popByPosition)
  {
    var d := peaks[k];
    PeakPosition(peaks, a, k, popByPosition);
    var pos := IndexOf(a.xs, d.x).value;
    var r := RemoveAnchor(a, d, popByPosition);
    RemoveAtIncreasing(a.xs, pos);
    var rest := RemoveAt(peaks, k);
    assert Xs(rest) == RemoveAt(Xs(peaks), k);
    RemoveAtIncreasing(Xs(peaks), k);
    forall m | 0 <= m < |rest|
      ensures Interior(r.xs, rest[m].x)
    {
      var m' := if m < k then m else m + 1;
      assert rest[m] == peaks[m'] && Xs(peaks)[m'] != Xs(peaks)[k];
      InteriorAfterRemove(a.xs, pos, rest[m].x);
    }
    if !popByPosition {
      var py := IndexOf(a.ys, d.y).value;
      assert Ys(rest) == RemoveAt(Ys(peaks), k);
      MultisetRemoveAt(Ys(peaks), k);
      MultisetRemoveAt(a.ys, py);
    }
  }

  /** What one sweep of the enumerate loop leaves: the peaks still recorded,
      the peaks it removed (in order) and the anchors. */
  datatype RoundResult = RoundResult(kept: seq<Peak>, removed: seq<Peak>, anchors: Anchors)

  /** One sweep from position k with threshold pv. A removal shifts the rest
      of the derivatives list left while enumerate moves on to k + 1, so the
      peak right after a removed one is not looked at in this sweep. */
  function Round(peaks: seq<Peak>, a: Anchors, pv: real, k: nat, popByPosition: bool): RoundResult
    requires ValidState(peaks, a, popByPosition)
    decreases |peaks| - k
  {
    if k >= |peaks| then RoundResult(peaks, [], a)
    else if peaks[k].score > pv then
      RemoveKeepsValid(peaks, a, k, popByPosition);
      var r := Round(RemoveAt(peaks, k), RemoveAnchor(a, peaks[k], popByPosition), pv, k + 1, popByPosition);
      RoundResult(r.kept, [peaks[k]] + r.removed, r.anchors)
    else
      Round(peaks, a, pv, k + 1, popByPosition)
  }

  /** A sweep that meets a peak above the threshold removes it and carries on after it. */
  lemma RoundRemoveStep(peaks: seq<Peak>, a: Anchors, pv: real, k: nat, popByPosition: bool)
    requires ValidState(peaks, a, popByPosition) && k < |peaks| && peaks[k].score > pv
    ensures peaks[k].x in a.xs && (!popByPosition ==> peaks[k].y in a.ys)
    ensures ValidState(RemoveAt(peaks, k), RemoveAnchor(a, peaks[k], popByPosition), popByPosition)
    ensures var r := Round(RemoveAt(peaks, k), RemoveAnchor(a, peaks[k], popByPosition), pv, k + 1, popByPosition);
            Round(peaks, a, pv, k, popByPosition) == RoundResult(r.kept, [peaks[k]] + r.removed, r.anchors)
  {
    RemoveKeepsValid(peaks, a, k, popByPosition);
  }

  /** A sweep passes over a peak at or below the threshold. */
  lemma RoundKeepStep(peaks: seq<Peak>, a: Anchors, pv: real, k: nat, popByPosition: bool)
    requires ValidState(peaks, a, popByPosition) && k < |peaks| && !(peaks[k].score > pv)
    ensures Round(peaks, a, pv, k, popByPosition) == Round(peaks, a, pv, k + 1, popByPosition)
  {
  }

  lemma ScoresRemoveAt(peaks: seq<Peak>, k: nat)
    requires k < |peaks|
    ensures Scores(RemoveAt(peaks, k)) == RemoveAt(Scores(peaks), k)
  {
  }

  /** A sweep leaves a valid state. */
  lemma {:induction false} RoundValid(peaks: seq<Peak>, a: Anchors, pv: real, k: nat, popByPosition: bool)
    requires ValidState(peaks, a, popByPosition)
    ensures var r := Round(peaks, a, pv, k, popByPosition);
            ValidState(r.kept, r.anchors, popByPosition)
    decreases |peaks| - k
  {
    if k < |peaks| {
      RemoveKeepsValid(peaks, a, k, popByPosition);
      if peaks[k].score > pv {
        RoundValid(RemoveAt(peaks, k), RemoveAnchor(a, peaks[k], popByPosition), pv, k + 1, popByPosition);
      } else {
        RoundValid(peaks, a, pv, k + 1, popByPosition);
      }
    }
  }

  /** The state after the ntimes loop, and whether np.percentile raised. */
  datatype RoundsResult = RoundsResult(peaks: seq<Peak>, anchors: Anchors, outcome: Outcome)

  /** j more sweeps, each with the 99.5th percentile of the scores then
      recorded; np.percentile of an empty list raises IndexError. */
  function Rounds(peaks: seq<Peak>, a: Anchors, j: nat, popByPosition: bool): RoundsResult
    requires ValidState(peaks, a, popByPosition)
    decreases j
  {
    if j == 0 then RoundsResult(peaks, a, Pass)
    else if peaks == [] then RoundsResult(peaks, a, Fail(IndexError))
    else
      var pv := Percentile(Scores(peaks), 99.5);
      RoundValid(peaks, a, pv, 0, popByPosition);
      var r := Round(peaks, a, pv, 0, popByPosition);
      Rounds(r.kept, r.anchors, j - 1, popByPosition)
  }

  /** remove_peaks on the three anchor lists. */
  function RemovePeaksResult(xs: seq<real>, ys: seq<real>, idx: seq<int>, ntimes: nat, popByPosition: bool): RoundsResult
    requires |ys| == |xs| && |idx| == |xs| && StrictlyIncreasing(xs)
  {
    InitialValid(xs, ys, idx, popByPosition);
    Rounds(InitialPeaks(xs, ys), Anchors(xs, ys, idx), ntimes, popByPosition)
  }

  /** The first loop records peaks in order of wavelength, each at an
      interior anchor below position hi, each with a positive score. */
  lemma {:induction false} PeaksBelowOrder(xs: seq<real>, ys: seq<real>, hi: nat)
    requires |xs| == |ys| && |xs| > 2 && StrictlyIncreasing(xs) && 1 <= hi < |xs|
    ensures var r := PeaksBelow(xs, ys, hi);
            StrictlyIncreasing(Xs(r)) &&
            forall k :: 0 <= k < |r| ==> xs[0] < r[k].x < xs[hi] && r[k].x in xs && r[k].score > 0.0
  {
    if hi > 1 {
      var i := hi - 1;
      var prev := PeaksBelow(xs, ys, i);
      PeaksBelowOrder(xs, ys, i);
      if ScoreAt(xs, ys, i) != 0.0 {
        assert Xs(PeaksBelow(xs, ys, hi)) == Xs(prev) + [xs[i]];
      }
    }
  }

  /** An interior anchor below hi is recorded exactly when its score is non-zero. */
  lemma {:induction false} PeaksBelowMember(xs: seq<real>, ys: seq<real>, hi: nat, i: nat)
    requires |xs| == |ys| && |xs| > 2 && StrictlyIncreasing(xs) && 1 <= hi < |xs| && 0 < i < hi
    ensures xs[i] in Xs(PeaksBelow(xs, ys, hi)) <==> ScoreAt(xs, ys, i) != 0.0
  {
    var top := hi - 1;
    var prev := PeaksBelow(xs, ys, top);
    var r := PeaksBelow(xs, ys, hi);
    var added := ScoreAt(xs, ys, top) != 0.0;
    if added {
      assert Xs(r) == Xs(prev) + [xs[top]];
    } else {
      assert r == prev;
    }
    if i == top {
      if !added {
        PeaksBelowOrder(xs, ys, top);
        assert forall k :: 0 <= k < |r| ==> Xs(r)[k] < xs[i];
      }
    } else {
      PeaksBelowMember(xs, ys, top, i);
      assert xs[i] < xs[top];
    }
  }

  /** The recorded fluxes come from distinct positions 1 .. hi - 1. */
  lemma {:induction false} PeaksBelowFluxes(xs: seq<real>, ys: seq<real>, hi: nat)
    requires |xs| == |ys| && |xs| > 2 && StrictlyIncreasing(xs) && 1 <= hi < |xs|
    ensures multiset(Ys(PeaksBelow(xs, ys, hi))) <= multiset(ys[1..hi])
  {
    if hi > 1 {
      var i := hi - 1;
      var prev := PeaksBelow(xs, ys, i);
      PeaksBelowFluxes(xs, ys, i);
      assert ys[1..hi] == ys[1..i] + [ys[i]];
      assert multiset(ys[1..hi]) == multiset(ys[1..i]) + multiset{ys[i]};
      if ScoreAt(xs, ys, i) != 0.0 {
        assert PeaksBelow(xs, ys, hi) == prev + [Peak(xs[i], ys[i], ScoreAt(xs, ys, i))];
        assert Ys(PeaksBelow(xs, ys, hi)) == Ys(prev) + [ys[i]];
        assert multiset(Ys(PeaksBelow(xs, ys, hi))) == multiset(Ys(prev)) + multiset{ys[i]};
      } else {
        assert PeaksBelow(xs, ys, hi) == prev;
      }
    }
  }

  /** The state remove_peaks starts its rounds from is valid. */
  lemma InitialValid(xs: seq<real>, ys: seq<real>, idx: seq<int>, popByPosition: bool)
    requires |ys| == |xs| && |idx| == |xs| && StrictlyIncreasing(xs)
    ensures ValidState(InitialPeaks(xs, ys), Anchors(xs, ys, idx), popByPosition)
  {
    if |xs| > 2 {
      PeaksBelowOrder(xs, ys, |xs| - 1);
      PeaksBelowFluxes(xs, ys, |xs| - 1);
      assert ys == ys[..1] + ys[1..|xs| - 1] + ys[|xs| - 1..];
    }
  }

  /** remove_peaks records exactly the interior anchors where the flux has a
      strict local maximum or minimum. */
  lemma InitialPeaksExtrema(xs: seq<real>, ys: seq<real>, i: nat)
    requires |ys| == |xs| && StrictlyIncreasing(xs) && 0 < i < |xs| - 1
    ensures xs[i] in Xs(InitialPeaks(xs, ys)) <==> LocalExtremum(ys, i)
  {
    PeaksBelowMember(xs, ys, |xs| - 1, i);
    AbsRlSlopeExtremum((xs[i - 1], ys[i - 1]), (xs[i], ys[i]), (xs[i + 1], ys[i + 1]));
  }

  /** One sweep: the kept and removed peaks together are the peaks it
      started with. */
  lemma {:induction false} RoundPartition(peaks: seq<Peak>, a: Anchors, pv: real, k: nat, popByPosition: bool)
    requires ValidState(peaks, a, popByPosition)
    ensures var r := Round(peaks, a, pv, k, popByPosition);
            multiset(r.kept) + multiset(r.removed) == multiset(peaks)
    decreases |peaks| - k
  {
    if k < |peaks| {
      if peaks[k].score > pv {
        var d := peaks[k];
        RemoveKeepsValid(peaks, a, k, popByPosition);
        var rest, a' := RemoveAt(peaks, k), RemoveAnchor(a, d, popByPosition);
        RoundPartition(rest, a', pv, k + 1, popByPosition);
        RoundRemoveStep(peaks, a, pv, k, popByPosition);
        var r := Round(rest, a', pv, k + 1, popByPosition);
        assert multiset([d] + r.removed) == multiset{d} + multiset(r.removed);
        MultisetRemoveAt(peaks, k);
        PartitionStep(multiset(peaks), multiset(rest), multiset(r.kept), multiset(r.removed), d);
      } else {
        RoundPartition(peaks, a, pv, k + 1, popByPosition);
      }
    }
  }

  /** Putting a removed peak back in front of the removed ones restores the whole. */
  lemma PartitionStep(whole: multiset<Peak>, rest: multiset<Peak>, kept: multiset<Peak>, removed: multiset<Peak>, d: Peak)
    requires kept + removed == rest && rest == whole - multiset{d} && d in whole
    ensures kept + (multiset{d} + removed) == whole
  {
    assert kept + (multiset{d} + removed) == rest + multiset{d};
    assert forall x :: (rest + multiset{d})[x] == whole[x];
  }

  /** Every peak in ps scores above pv. */
  predicate AllAbove(ps: seq<Peak>, pv: real)
  {
    forall m :: 0 <= m < |ps| ==> ps[m].score > pv
  }

  /** One sweep removes only peaks scoring above the threshold. */
  lemma {:induction false} RoundRemovesHighScores(peaks: seq<Peak>, a: Anchors, pv: real, k: nat, popByPosition: bool)
    requires ValidState(peaks, a, popByPosition)
    ensures AllAbove(Round(peaks, a, pv, k, popByPosition).removed, pv)
    decreases |peaks| - k
  {
    if k < |peaks| {
      if peaks[k].score > pv {
        RoundRemoveStep(peaks, a, pv, k, popByPosition);
        var rest, a' := RemoveAt(peaks, k), RemoveAnchor(a, peaks[k], popByPosition);
        RoundRemovesHighScores(rest, a', pv, k + 1, popByPosition);
        var removed := Round(rest, a', pv, k + 1, popByPosition).removed;
        assert Round(peaks, a, pv, k, popByPosition).removed == [peaks[k]] + removed;
      } else {
        RoundKeepStep(peaks, a, pv, k, popByPosition);
        RoundRemovesHighScores(peaks, a, pv, k + 1, popByPosition);
      }
    }
  }

  /** One sweep drops one anchor per removed peak. */
  lemma {:induction false} RoundCount(peaks: seq<Peak>, a: Anchors, pv: real, k: nat, popByPosition: bool)
    requires ValidState(peaks, a, popByPosition)
    ensures var r := Round(peaks, a, pv, k, popByPosition);
            |r.anchors.xs| + |r.removed| == |a.xs|
    decreases |peaks| - k
  {
    if k < |peaks| {
      if peaks[k].score > pv {
        RemoveKeepsValid(peaks, a, k, popByPosition);
        RoundCount(RemoveAt(peaks, k), RemoveAnchor(a, peaks[k], popByPosition), pv, k + 1, popByPosition);
      } else {
        RoundCount(peaks, a, pv, k + 1, popByPosition);
      }
    }
  }

  /** One sweep keeps the end anchors and only original pairs (triples). */
  lemma {:induction false} RoundShape(peaks: seq<Peak>, a: Anchors, pv: real, k: nat, popByPosition: bool)
    requires ValidState(peaks, a, popByPosition)
    ensures KeepsShape(a, Round(peaks, a, pv, k, popByPosition).anchors, popByPosition)
    decreases |peaks| - k
  {
    if k < |peaks| {
      var r := Round(peaks, a, pv, k, popByPosition);
      if peaks[k].score > pv {
        var d := peaks[k];
        PeakPosition(peaks, a, k, popByPosition);
        RoundRemoveStep(peaks, a, pv, k, popByPosition);
        RemoveAnchorShape(a, d, popByPosition);
        var rest, a' := RemoveAt(peaks, k), RemoveAnchor(a, d, popByPosition);
        RoundShape(rest, a', pv, k + 1, popByPosition);
        KeepsShapeTrans(a, a', r.anchors, popByPosition);
      } else {
        RoundKeepStep(peaks, a, pv, k, popByPosition);
        RoundShape(peaks, a, pv, k + 1, popByPosition);
      }
    }
  }

  /** A peak scoring at most the threshold survives the sweep. */
  lemma RoundKeepsLowScores(peaks: seq<Peak>, a: Anchors, pv: real, i: nat, popByPosition: bool)
    requires ValidState(peaks, a, popByPosition) && i < |peaks| && peaks[i].score <= pv
    ensures peaks[i] in Round(peaks, a, pv, 0, popByPosition).kept
  {
    var r := Round(peaks, a, pv, 0, popByPosition);
    RoundPartition(peaks, a, pv, 0, popByPosition);
    RoundRemovesHighScores(peaks, a, pv, 0, popByPosition);
    assert peaks[i] in multiset(peaks);
    assert peaks[i] !in multiset(r.removed);
  }

  /** The rounds: np.percentile raises IndexError exactly when a round starts
      with no recorded peak, which only happens before the first round (the
      lowest score never exceeds the percentile, so a sweep keeps at least
      one peak); on that error the anchors are untouched. */
  lemma RoundsOutcome(peaks: seq<Peak>, a: Anchors, j: nat, popByPosition: bool)
    requires ValidState(peaks, a, popByPosition)
    ensures var r := Rounds(peaks, a, j, popByPosition);
            (r.outcome.Fail? <==> j > 0 && peaks == []) &&
            (r.outcome.Fail? ==> r.outcome.error == IndexError && r.anchors == a)
  {
    RoundsOutcomeOf(peaks, a, j, popByPosition, Rounds(peaks, a, j, popByPosition));
  }

  /** RoundsOutcome, with res naming the result of the rounds. */
  lemma {:induction false} RoundsOutcomeOf(peaks: seq<Peak>, a: Anchors, j: nat, popByPosition: bool, res: RoundsResult)
    requires ValidState(peaks, a, popByPosition)
    requires res == Rounds(peaks, a, j, popByPosition)
    ensures (res.outcome.Fail? <==> j > 0 && peaks == []) &&
            (res.outcome.Fail? ==> res.outcome.error == IndexError && res.anchors == a)
    decreases j
  {
    if j > 0 && peaks != [] {
      var r := RoundsStep(peaks, a, j, popByPosition);
      var i := LowestPeak(peaks);
      RoundKeepsLowScores(peaks, a, Percentile(Scores(peaks), 99.5), i, popByPosition);
      RoundsOutcomeOf(r.kept, r.anchors, j - 1, popByPosition, res);
    }
  }

  /** Some peak scores no more than the 99.5th percentile of the scores. */
  lemma LowestPeak(peaks: seq<Peak>) returns (i: nat)
    requires peaks != []
    ensures i < |peaks| && peaks[i].score <= Percentile(Scores(peaks), 99.5)
  {
    var sc := Scores(peaks);
    PercentileBounds(sc, 99.5);
    i :| 0 <= i < |sc| && sc[i] == Min(sc);
  }

  /** Whatever the outcome, the rounds keep the end anchors and leave only
      (wavelength, index) pairs -- triples when fluxes are popped by
      position -- that were there before. */
  lemma RoundsShape(peaks: seq<Peak>, a: Anchors, j: nat, popByPosition: bool)
    requires ValidState(peaks, a, popByPosition)
    ensures KeepsShape(a, Rounds(peaks, a, j, popByPosition).anchors, popByPosition)
  {
    RoundsShapeFrom(a, peaks, a, j, popByPosition, Rounds(peaks, a, j, popByPosition));
  }

  /** The rounds only narrow down what an earlier state a0 had; res names
      their result. */
  lemma {:induction false} RoundsShapeFrom(a0: Anchors, peaks: seq<Peak>, a: Anchors, j: nat, popByPosition: bool, res: RoundsResult)
    requires ValidState(peaks, a, popByPosition) && KeepsShape(a0, a, popByPosition)
    requires res == Rounds(peaks, a, j, popByPosition)
    ensures KeepsShape(a0, res.anchors, popByPosition)
    decreases j
  {
    if j > 0 && peaks != [] {
      var pv := Percentile(Scores(peaks), 99.5);
      var r := RoundsStep(peaks, a, j, popByPosition);
      RoundShape(peaks, a, pv, 0, popByPosition);
      KeepsShapeTrans(a0, a, r.anchors, popByPosition);
      RoundsShapeFrom(a0, r.kept, r.anchors, j - 1, popByPosition, res);
    }
  }

  /** remove_peaks records no peak exactly when the flux has no strict local
      extremum among the interior anchors. */
  lemma NoPeaksIffFlat(xs: seq<real>, ys: seq<real>)
    requires |ys| == |xs| && StrictlyIncreasing(xs)
    ensures InitialPeaks(xs, ys) == [] <==> forall i :: 0 < i < |xs| - 1 ==> !LocalExtremum(ys, i)
  {
    var ps := InitialPeaks(xs, ys);
    InitialValid(xs, ys, seq(|xs|, i => 0), false);
    if ps != [] {
      assert Interior(xs, ps[0].x);
      var t :| 0 <= t < |xs| && xs[t] == ps[0].x;
      assert 0 < t < |xs| - 1;
      assert Xs(ps)[0] == xs[t];
      InitialPeaksExtrema(xs, ys, t);
    } else {
      forall i | 0 < i < |xs| - 1
        ensures !LocalExtremum(ys, i)
      {
        InitialPeaksExtrema(xs, ys, i);
      }
    }
  }

  /** remove_peaks raises IndexError exactly when it is asked for at least one
      round and the flux has no strict local extremum among the interior
      anchors; the lists are then untouched. */
  lemma RemovePeaksFails(xs: seq<real>, ys: seq<real>, idx: seq<int>, ntimes: nat, popByPosition: bool)
    requires |ys| == |xs| && |idx| == |xs| && StrictlyIncreasing(xs)
    ensures var r := RemovePeaksResult(xs, ys, idx, ntimes, popByPosition);
            (r.outcome.Fail? <==> ntimes > 0 && forall i :: 0 < i < |xs| - 1 ==> !LocalExtremum(ys, i)) &&
            (r.outcome.Fail? ==> r.outcome.error == IndexError && r.anchors == Anchors(xs, ys, idx))
  {
    InitialValid(xs, ys, idx, popByPosition);
    RoundsOutcome(InitialPeaks(xs, ys), Anchors(xs, ys, idx), ntimes, popByPosition);
    NoPeaksIffFlat(xs, ys);
  }

  /** As written, remove_peaks keeps the three lists the same length, the
      wavelengths increasing, the first and last anchors, and every
      remaining (wavelength, index) pair an original one. */
  lemma RemovePeaksKeepsPairs(xs: seq<real>, ys: seq<real>, idx: seq<int>, ntimes: nat)
    requires |ys| == |xs| && |idx| == |xs| && StrictlyIncreasing(xs)
    ensures var a := RemovePeaksResult(xs, ys, idx, ntimes, false).anchors;
            Aligned(a) && StrictlyIncreasing(a.xs) &&
            (|xs| > 0 ==> |a.xs| > 0 && a.xs[0] == xs[0] && a.xs[|a.xs| - 1] == xs[|xs| - 1]) &&
            multiset(Pairs(a)) <= multiset(Pairs(Anchors(xs, ys, idx)))
  {
    InitialValid(xs, ys, idx, false);
    RoundsShape(InitialPeaks(xs, ys), Anchors(xs, ys, idx), ntimes, false);
    RoundsValid(InitialPeaks(xs, ys), Anchors(xs, ys, idx), ntimes, false);
  }

  /** Popping the flux at the peak's own position, every remaining
      (wavelength, flux, index) triple is an original anchor. */
  lemma CorrectedRemovalKeepsAnchors(xs: seq<real>, ys: seq<real>, idx: seq<int>, ntimes: nat)
    requires |ys| == |xs| && |idx| == |xs| && StrictlyIncreasing(xs)
    ensures var a := RemovePeaksResult(xs, ys, idx, ntimes, true).anchors;
            Aligned(a) && StrictlyIncreasing(a.xs) &&
            multiset(Triples(a)) <= multiset(Triples(Anchors(xs, ys, idx)))
  {
    InitialValid(xs, ys, idx, true);
    RoundsShape(InitialPeaks(xs, ys), Anchors(xs, ys, idx), ntimes, true);
    RoundsValid(InitialPeaks(xs, ys), Anchors(xs, ys, idx), ntimes, true);
  }

  /** The rounds leave a valid state. */
  lemma {:induction false} RoundsValid(peaks: seq<Peak>, a: Anchors, j: nat, popByPosition: bool)
    requires ValidState(peaks, a, popByPosition)
    ensures var r := Rounds(peaks, a, j, popByPosition);
            ValidState(r.peaks, r.anchors, popByPosition)
    decreases j
  {
    if j > 0 && peaks != [] {
      var r := RoundsStep(peaks, a, j, popByPosition);
      RoundsValid(r.kept, r.anchors, j - 1, popByPosition);
    }
  }

  /** As written, anchors_y.remove drops the first flux equal to the peak's,
      which need not be the peak's own: with fluxes 3, 0, 3, -10 at
      wavelengths 0 .. 3 and one round, the peak at wavelength 2 (flux 3,
      score 16 against a percentile of 15.95) takes away the flux of the
      anchor at wavelength 0, so that anchor ends up paired with flux 0,
      an anchor the input never had. Popping by position keeps it right. */
  lemma RemovePeaksMisalignsFluxes()
    ensures var xs, ys, idx := [0.0, 1.0, 2.0, 3.0], [3.0, 0.0, 3.0, -10.0], [0, 1, 2, 3];
            var a := RemovePeaksResult(xs, ys, idx, 1, false).anchors;
            var fixed := RemovePeaksResult(xs, ys, idx, 1, true).anchors;
            a == Anchors([0.0, 1.0, 3.0], [0.0, 3.0, -10.0], [0, 1, 3]) &&
            (0.0, 0.0, 0) in Triples(a) && (0.0, 0.0, 0) !in Triples(Anchors(xs, ys, idx)) &&
            fixed == Anchors([0.0, 1.0, 3.0], [3.0, 0.0, -10.0], [0, 1, 3])
  {
    ExampleRound(false);
    ExampleRound(true);
    ExampleRemoval();
    var a := Anchors([0.0, 1.0, 3.0], [0.0, 3.0, -10.0], [0, 1, 3]);
    assert Triples(a)[0] == (0.0, 0.0, 0);
    var t := Triples(Anchors([0.0, 1.0, 2.0, 3.0], [3.0, 0.0, 3.0, -10.0], [0, 1, 2, 3]));
    assert t[0] != (0.0, 0.0, 0) && t[1] != (0.0, 0.0, 0) && t[2] != (0.0, 0.0, 0) && t[3] != (0.0, 0.0, 0);
  }

  /** The removal of the example above, as written and popping by position. */
  lemma ExampleRemoval()
    ensures var a0 := Anchors([0.0, 1.0, 2.0, 3.0], [3.0, 0.0, 3.0, -10.0], [0, 1, 2, 3]);
            var d := Peak(2.0, 3.0, 16.0);
            2.0 in a0.xs && 3.0 in a0.ys &&
            RemoveAnchor(a0, d, false) == Anchors([0.0, 1.0, 3.0], [0.0, 3.0, -10.0], [0, 1, 3]) &&
            RemoveAnchor(a0, d, true) == Anchors([0.0, 1.0, 3.0], [3.0, 0.0, -10.0], [0, 1, 3])
  {
    var xs, ys := [0.0, 1.0, 2.0, 3.0], [3.0, 0.0, 3.0, -10.0];
    assert xs[2] == 2.0 && ys[0] == 3.0;
    assert IndexOf(xs, 2.0) == Some(2);
    assert IndexOf(ys, 3.0) == Some(0);
  }

  /** The scores and the threshold of the example above. */
  lemma ExampleScores()
    ensures var xs, ys := [0.0, 1.0, 2.0, 3.0], [3.0, 0.0, 3.0, -10.0];
            InitialPeaks(xs, ys) == [Peak(1.0, 0.0, 6.0), Peak(2.0, 3.0, 16.0)] &&
            Percentile(Scores(InitialPeaks(xs, ys)), 99.5) == 15.95
  {
    var xs, ys := [0.0, 1.0, 2.0, 3.0], [3.0, 0.0, 3.0, -10.0];
    assert ScoreAt(xs, ys, 1) == 6.0;
    assert ScoreAt(xs, ys, 2) == 16.0;
    assert PeaksBelow(xs, ys, 2) == [Peak(1.0, 0.0, 6.0)];
    assert Scores(InitialPeaks(xs, ys)) == [6.0, 16.0];
    assert Sort([6.0, 16.0]) == [6.0, 16.0];
    assert Position(2, 99.5) == 0.995;
  }

  /** A single round is one sweep with the percentile of the recorded scores. */
  lemma RoundsOnce(peaks: seq<Peak>, a: Anchors, popByPosition: bool)
    requires ValidState(peaks, a, popByPosition) && peaks != []
    ensures Rounds(peaks, a, 1, popByPosition).anchors ==
            Round(peaks, a, Percentile(Scores(peaks), 99.5), 0, popByPosition).anchors
  {
  }

  /** The one round of the example above removes only the peak at wavelength 2. */
  lemma ExampleRound(popByPosition: bool)
    ensures var xs, ys, idx := [0.0, 1.0, 2.0, 3.0], [3.0, 0.0, 3.0, -10.0], [0, 1, 2, 3];
            2.0 in xs && (!popByPosition ==> 3.0 in ys) &&
            RemovePeaksResult(xs, ys, idx, 1, popByPosition).anchors ==
            RemoveAnchor(Anchors(xs, ys, idx), Peak(2.0, 3.0, 16.0), popByPosition)
  {
    var xs, ys, idx := [0.0, 1.0, 2.0, 3.0], [3.0, 0.0, 3.0, -10.0], [0, 1, 2, 3];
    ExampleScores();
    var p1, p2 := Peak(1.0, 0.0, 6.0), Peak(2.0, 3.0, 16.0);
    var peaks := [p1, p2];
    var a0 := Anchors(xs, ys, idx);
    InitialValid(xs, ys, idx, popByPosition);
    RoundsOnce(peaks, a0, popByPosition);
    ExampleSweep(popByPosition);
  }

  lemma ExampleSweep(popByPosition: bool)
    ensures var a0 := Anchors([0.0, 1.0, 2.0, 3.0], [3.0, 0.0, 3.0, -10.0], [0, 1, 2, 3]);
            var peaks := [Peak(1.0, 0.0, 6.0), Peak(2.0, 3.0, 16.0)];
            ValidState(peaks, a0, popByPosition) && 2.0 in a0.xs && (!popByPosition ==> 3.0 in a0.ys) &&
            Round(peaks, a0, 15.95, 0, popByPosition).anchors == RemoveAnchor(a0, peaks[1], popByPosition)
  {
    var xs, ys, idx := [0.0, 1.0, 2.0, 3.0], [3.0, 0.0, 3.0, -10.0], [0, 1, 2, 3];
    ExampleScores();
    InitialValid(xs, ys, idx, popByPosition);
    var peaks := [Peak(1.0, 0.0, 6.0), Peak(2.0, 3.0, 16.0)];
    var a0 := Anchors(xs, ys, idx);
    RemoveKeepsValid(peaks, a0, 1, popByPosition);
    assert Round(peaks, a0, 15.95, 0, popByPosition) == Round(peaks, a0, 15.95, 1, popByPosition);
  }

  /** A round with peaks recorded is a sweep followed by the remaining rounds. */
  lemma RoundsStep(peaks: seq<Peak>, a: Anchors, j: nat, popByPosition: bool) returns (r: RoundResult)
    requires ValidState(peaks, a, popByPosition) && peaks != [] && j > 0
    ensures r == Round(peaks, a, Percentile(Scores(peaks), 99.5), 0, popByPosition)
    ensures ValidState(r.kept, r.anchors, popByPosition)
    ensures Rounds(peaks, a, j, popByPosition) == Rounds(r.kept, r.anchors, j - 1, popByPosition)
  {
    RoundValid(peaks, a, Percentile(Scores(peaks), 99.5), 0, popByPosition);
    r := Round(peaks, a, Percentile(Scores(peaks), 99.5), 0, popByPosition);
  }

  /** The first loop of remove_peaks: score the interior anchors and record
      those with a non-zero score. */
  method ScorePeaks(xs: seq<real>, ys: seq<real>) returns (derivatives: seq<Peak>)
    requires |ys| == |xs| && StrictlyIncreasing(xs)
    ensures derivatives == InitialPeaks(xs, ys)
  {
    derivatives := [];
    var hi := if |xs| > 2 then |xs| - 1 else 1;
    for i := 1 to hi
      invariant derivatives == PeaksBelow(xs, ys, i)
    {
      var deriv := AbsRlSlope((xs[i - 1], ys[i - 1]), (xs[i], ys[i]), (xs[i + 1], ys[i + 1]));
      if deriv != 0.0 {
        derivatives := derivatives + [Peak(xs[i], ys[i], deriv)];
      }
    }
  }

  /** One pass of the enumerate loop with threshold pv: pops dvalues[k],
      the anchor of the peak's wavelength from anchors_idx and anchors_x, the
      first equal flux from anchors_y, and the peak itself. */
  method Sweep(ay: PyList<real>, ax: PyList<real>, aidx: PyList<int>, peaks: seq<Peak>, scores: seq<real>, pv: real)
    returns (derivatives: seq<Peak>, dvalues: seq<real>)
    requires ax != ay
    requires ValidState(peaks, Anchors(ax.items, ay.items, aidx.items), false) && scores == Scores(peaks)
    modifies ay, ax, aidx
    ensures var r := Round(peaks, Anchors(old(ax.items), old(ay.items), old(aidx.items)), pv, 0, false);
            derivatives == r.kept && dvalues == Scores(r.kept) &&
            Anchors(ax.items, ay.items, aidx.items) == r.anchors
  {
    ghost var a0 := Anchors(ax.items, ay.items, aidx.items);
    derivatives, dvalues := peaks, scores;
    var k := 0;
    while k < |derivatives|
      invariant ValidState(derivatives, Anchors(ax.items, ay.items, aidx.items), false)
      invariant dvalues == Scores(derivatives)
      invariant Round(derivatives, Anchors(ax.items, ay.items, aidx.items), pv, k, false).kept ==
                Round(peaks, a0, pv, 0, false).kept
      invariant Round(derivatives, Anchors(ax.items, ay.items, aidx.items), pv, k, false).anchors ==
                Round(peaks, a0, pv, 0, false).anchors
      decreases |derivatives| - k
    {
      var d := derivatives[k];
      ghost var cur := Anchors(ax.items, ay.items, aidx.items);
      if d.score > pv {
        RoundRemoveStep(derivatives, cur, pv, k, false);
        PeakPosition(derivatives, cur, k, false);
        ScoresRemoveAt(derivatives, k);
        dvalues := RemoveAt(dvalues, k);
        RemovePeakAnchor(ay, ax, aidx, d);
        FirstEqualPeak(derivatives, k);
        derivatives := RemoveAt(derivatives, IndexOf(derivatives, d).value);
      } else {
        RoundKeepStep(derivatives, cur, pv, k, false);
      }
      k := k + 1;
    }
  }

  /** The three list operations that drop peak d's anchor: anchors_idx pops
      the position of d's wavelength, anchors_x and anchors_y remove the
      first entry equal to d's wavelength and flux. */
  method RemovePeakAnchor(ay: PyList<real>, ax: PyList<real>, aidx: PyList<int>, d: Peak)
    requires ax != ay
    requires Aligned(Anchors(ax.items, ay.items, aidx.items)) && d.x in ax.items && d.y in ay.items
    modifies ay, ax, aidx
    ensures Anchors(ax.items, ay.items, aidx.items) == RemoveAnchor(Anchors(old(ax.items), old(ay.items), old(aidx.items)), d, false)
  {
    var pos := ax.Index(d.x);
    var popped := aidx.Pop(pos.value);
    var removedX := ax.Remove(d.x);
    var removedY := ay.Remove(d.y);
  }

  /** The peaks' wavelengths are distinct, so derivatives.remove(d) drops position k. */
  lemma FirstEqualPeak(peaks: seq<Peak>, k: nat)
    requires StrictlyIncreasing(Xs(peaks)) && k < |peaks|
    ensures IndexOf(peaks, peaks[k]) == Some(k)
  {
    var r := IndexOf(peaks, peaks[k]);
    assert peaks[k] in peaks[..k + 1];
  }

  /** remove_peaks(anchors_y, anchors_x, anchors_idx, ntimes): alters the
      three lists in place as RemovePeaksResult describes, or raises
      IndexError from np.percentile (see RemovePeaksFails). */
  method RemovePeaks(ay: PyList<real>, ax: PyList<real>, aidx: PyList<int>, ntimes: nat) returns (o: Outcome)
    requires ax != ay
    requires |ay.items| == |ax.items| && |aidx.items| == |ax.items| && StrictlyIncreasing(ax.items)
    modifies ay, ax, aidx
    ensures var r := RemovePeaksResult(old(ax.items), old(ay.items), old(aidx.items), ntimes, false);
            o == r.outcome && Anchors(ax.items, ay.items, aidx.items) == r.anchors
  {
    ghost var target := RemovePeaksResult(ax.items, ay.items, aidx.items, ntimes, false);
    var derivatives := ScorePeaks(ax.items, ay.items);
    var dvalues := Scores(derivatives);
    InitialValid(ax.items, ay.items, aidx.items, false);
    for j := 0 to ntimes
      invariant ValidState(derivatives, Anchors(ax.items, ay.items, aidx.items), false)
      invariant dvalues == Scores(derivatives)
      invariant Rounds(derivatives, Anchors(ax.items, ay.items, aidx.items), ntimes - j, false) == target
    {
      if |dvalues| == 0 {
        return Fail(IndexError);
      }
      var pv := Percentile(dvalues, 99.5);
      ghost var a := Anchors(ax.items, ay.items, aidx.items);
      ghost var r := RoundsStep(derivatives, a, ntimes - j, false);
      assert Rounds(r.kept, r.anchors, ntimes - (j + 1), false) == target;
      derivatives, dvalues := Sweep(ay, ax, aidx, derivatives, dvalues, pv);
      assert derivatives == r.kept && Anchors(ax.items, ay.items, aidx.items) == r.anchors;
    }
    o := Pass;
  }
}
