/** The smoothing helpers of the normalisation pipeline: flux scaling, the
    rolling interquartile clip of the spectrum, and the three passes that
    clean the anchor points the alpha-shape walk produced (sharp peaks,
    points too close together, noisy maxima). The anchor passes change the
    caller's lists in place, so they work on PyList objects. */
module Smooth {
  import opened Common
  import opened Stats
  import opened PyLists

  // ---------------------------------------------------------------------
  // normalize
  // ---------------------------------------------------------------------

  /** Scales a flux value into wavelength units, divided by the stretching
      factor. A zero stretch raises ZeroDivisionError (Python's 1 / 0). */
  function Normalize(f: real, minl: real, maxl: real, minf: real, maxf: real, stretch: real): (r: Result<real>)
    requires maxf != minf
    ensures r.Failure? <==> stretch == 0.0
    ensures r.Failure? ==> r.error == ZeroDivisionError
  {
    if stretch == 0.0 then Failure(ZeroDivisionError)
    else
      var q := (maxl - minl) / (maxf - minf);
      Success(f * q * (1.0 / stretch))
  }

  /** The inverse scaling: from normalised units back to flux. */
  function Denormalize(v: real, minl: real, maxl: real, minf: real, maxf: real, stretch: real): real
    requires maxl != minl
  {
    v * stretch * ((maxf - minf) / (maxl - minl))
  }

  /** Normalising and then scaling back gives the original flux. */
  lemma NormalizeRoundTrip(f: real, minl: real, maxl: real, minf: real, maxf: real, stretch: real)
    requires maxf != minf && maxl != minl && stretch != 0.0
    ensures Normalize(f, minl, maxl, minf, maxf, stretch).Success?
    ensures Denormalize(Normalize(f, minl, maxl, minf, maxf, stretch).value, minl, maxl, minf, maxf, stretch) == f
  {
    var q := (maxl - minl) / (maxf - minf);
    var p := (maxf - minf) / (maxl - minl);
    var s := 1.0 / stretch;
    var v := f * q * s;
    assert q * p == 1.0;
    assert s * stretch == 1.0;
    assert v * stretch == f * q by {
      assert v * stretch == (f * q) * (s * stretch);
    }
    assert v * stretch * p == f by {
      assert (f * q) * p == f * (q * p);
    }
  }

  /** On a spectrum whose wavelength range is not reversed and a positive
      stretch, normalisation keeps the order of the fluxes. */
  lemma NormalizeMonotone(f1: real, f2: real, minl: real, maxl: real, minf: real, maxf: real, stretch: real)
    requires minl <= maxl && minf < maxf && stretch > 0.0 && f1 <= f2
    ensures Normalize(f1, minl, maxl, minf, maxf, stretch).value <= Normalize(f2, minl, maxl, minf, maxf, stretch).value
  {
    var q := (maxl - minl) / (maxf - minf);
    var s := 1.0 / stretch;
    MulNonneg(q, s);
    MulNonneg(f2 - f1, q * s);
    assert (f2 - f1) * (q * s) == f2 * q * s - f1 * q * s;
  }

  // ---------------------------------------------------------------------
  // rolling_sigma_clip
  // ---------------------------------------------------------------------

  /** The clipping bound of one window: the third quartile plus 1.5 times
      the interquartile range (an upper clip only). The clip never forms an
      empty window; the value given for one is never used. */
  function UpperBound(window: seq<real>): real
  {
    if |window| == 0 then 0.0
    else
      var q75 := Percentile(window, 75.0);
      var q25 := Percentile(window, 25.0);
      q75 + 1.5 * (q75 - q25)
  }

  /** The positions in [lo, hi), ascending, whose value is not above bound. */
  function KeepBlock(y: seq<real>, lo: nat, hi: nat, bound: real): (r: seq<nat>)
    requires lo <= hi <= |y|
    ensures forall k :: 0 <= k < |r| ==> lo <= r[k] < hi
    ensures forall k, l :: 0 <= k < l < |r| ==> r[k] < r[l]
    decreases hi - lo
  {
    if hi == lo then []
    else KeepBlock(y, lo, hi - 1, bound) + (if y[hi - 1] > bound then [] else [hi - 1])
  }

  /** The positions a window [lo, hi) keeps: those not above the bound
      computed from the window itself. */
  function WindowKept(y: seq<real>, lo: nat, hi: nat, bound: seq<real> -> real): (r: seq<nat>)
    requires lo < hi <= |y|
    ensures forall k :: 0 <= k < |r| ==> lo <= r[k] < hi
  {
    KeepBlock(y, lo, hi, bound(y[lo..hi]))
  }

  /** The positions kept by the first i whole windows of w samples. */
  function WholeWindows(y: seq<real>, w: nat, i: nat, bound: seq<real> -> real): (r: seq<nat>)
    requires w > 0 && Span(i, w) <= |y|
    ensures forall k :: 0 <= k < |r| ==> r[k] < Span(i, w)
    ensures forall k, l :: 0 <= k < l < |r| ==> r[k] < r[l]
  {
    if i == 0 then []
    else
      var before := WholeWindows(y, w, i - 1, bound);
      var block := WindowKept(y, Span(i - 1, w), Span(i, w), bound);
      ConcatIncreasing(before, block, Span(i - 1, w));
      before + block
  }

  /** One more whole window appends the positions that window keeps. */
  lemma WholeWindowsStep(y: seq<real>, w: nat, i: nat, bound: seq<real> -> real)
    requires w > 0 && Span(i + 1, w) <= |y|
    ensures Span(i, w) + w == Span(i + 1, w)
    ensures WholeWindows(y, w, i + 1, bound) == WholeWindows(y, w, i, bound) + WindowKept(y, Span(i, w), Span(i + 1, w), bound)
  {
  }

  /** Positions all below e followed by increasing positions all at least e
      are increasing. */
  lemma ConcatIncreasing(a: seq<nat>, b: seq<nat>, e: nat)
    requires forall k :: 0 <= k < |a| ==> a[k] < e
    requires forall k :: 0 <= k < |b| ==> e <= b[k]
    requires forall k, l :: 0 <= k < l < |a| ==> a[k] < a[l]
    requires forall k, l :: 0 <= k < l < |b| ==> b[k] < b[l]
    ensures forall k, l :: 0 <= k < l < |a + b| ==> (a + b)[k] < (a + b)[l]
  {
    var r := a + b;
    forall k, l | 0 <= k < l < |r| ensures r[k] < r[l] {
      if l < |a| {
        assert r[k] == a[k] && r[l] == a[l];
      } else if k >= |a| {
        assert r[k] == b[k - |a|] && r[l] == b[l - |a|];
      } else {
        assert r[k] == a[k] && r[l] == b[l - |a|];
      }
    }
  }

  /** A rolling clip with windows of w samples and a per-window bound: the
      positions kept by the whole windows, then those kept by the
      shorter window left over. */
  function ClipWith(y: seq<real>, w: nat, bound: seq<real> -> real): (r: seq<nat>)
    requires w > 0
    ensures IncreasingIndices(r, |y|)
  {
    WholeCountSpan(|y|, w);
    var s := Span(WholeCount(|y|, w), w);
    var whole := WholeWindows(y, w, WholeCount(|y|, w), bound);
    if s < |y| then
      var rest := WindowKept(y, s, |y|, bound);
      ConcatIncreasing(whole, rest, s);
      whole + rest
    else whole
  }

  /** The positions of the samples rolling_sigma_clip keeps. */
  function Clipped(y: seq<real>, w: nat): (r: seq<nat>)
    requires w > 0
  {
    ClipWith(y, w, UpperBound)
  }

  /** The (flux, wavelength) pairs of the window [wStart, wEnd). */
  method WindowElements(y: seq<real>, x: seq<real>, wStart: nat, wEnd: nat) returns (wElements: seq<(real, real)>)
    requires |y| == |x| && wStart <= wEnd <= |y|
    ensures |wElements| == wEnd - wStart
    ensures forall k :: 0 <= k < |wElements| ==> wElements[k] == (y[wStart + k], x[wStart + k])
  {
    wElements := [];
    for j := wStart to wEnd
      invariant |wElements| == j - wStart
      invariant forall k :: 0 <= k < |wElements| ==> wElements[k] == (y[wStart + k], x[wStart + k])
    {
      wElements := wElements + [(y[j], x[j])];
    }
  }

  /** Keeps the pairs of a window whose flux is not above upper, in order. */
  method KeepNotAbove(y: seq<real>, x: seq<real>, wStart: nat, wElements: seq<(real, real)>, upper: real)
    returns (yKept: seq<real>, xKept: seq<real>)
    requires |y| == |x| && wStart + |wElements| <= |y|
    requires forall k :: 0 <= k < |wElements| ==> wElements[k] == (y[wStart + k], x[wStart + k])
    ensures yKept == Select(y, KeepBlock(y, wStart, wStart + |wElements|, upper))
    ensures xKept == Select(x, KeepBlock(y, wStart, wStart + |wElements|, upper))
  {
    yKept, xKept := [], [];
    ghost var kept: seq<nat> := [];
    for k := 0 to |wElements|
      invariant kept == KeepBlock(y, wStart, wStart + k, upper)
      invariant yKept == Select(y, kept) && xKept == Select(x, kept)
    {
      var w := wElements[k];
      if !(w.0 > upper) {
        SelectAppend(y, kept, [wStart + k]);
        SelectAppend(x, kept, [wStart + k]);
        kept := kept + [wStart + k];
        yKept := yKept + [w.0];
        xKept := xKept + [w.1];
      }
    }
  }

  /** Clips one window [wStart, wEnd): collects its (flux, wavelength) pairs,
      computes the bound from its fluxes and keeps the pairs not above it. */
  method ClipWindow(y: seq<real>, x: seq<real>, wStart: nat, wEnd: nat) returns (yKept: seq<real>, xKept: seq<real>)
    requires |y| == |x| && wStart < wEnd <= |y|
    ensures yKept == Select(y, WindowKept(y, wStart, wEnd, UpperBound))
    ensures xKept == Select(x, WindowKept(y, wStart, wEnd, UpperBound))
  {
    var wElements := WindowElements(y, x, wStart, wEnd);
    var fluxes := seq(|wElements|, k requires 0 <= k < |wElements| => wElements[k].0);
    assert fluxes == y[wStart..wEnd];
    var q75 := Percentile(fluxes, 75.0);
    var q25 := Percentile(fluxes, 25.0);
    var iqr := q75 - q25;
    var upper := q75 + 1.5 * iqr;
    assert upper == UpperBound(y[wStart..wEnd]);
    yKept, xKept := KeepNotAbove(y, x, wStart, wElements, upper);
  }

  /** The first loop of rolling_sigma_clip: clips the nwindows whole windows
      one after the other and reports where the last one ends. */
  method ClipWholeWindows(y: seq<real>, x: seq<real>, wSize: nat, nwindows: nat)
    returns (yClipped: seq<real>, xClipped: seq<real>, wEnd: nat)
    requires wSize > 0 && |y| == |x| && Span(nwindows, wSize) <= |y|
    ensures wEnd == Span(nwindows, wSize)
    ensures yClipped == Select(y, WholeWindows(y, wSize, nwindows, UpperBound))
    ensures xClipped == Select(x, WholeWindows(y, wSize, nwindows, UpperBound))
  {
    yClipped, xClipped := [], [];
    var wStart := 0;
    wEnd := 0;
    for i := 0 to nwindows
      invariant wStart == wEnd == Span(i, wSize) <= |y|
      invariant yClipped == Select(y, WholeWindows(y, wSize, i, UpperBound))
      invariant xClipped == Select(x, WholeWindows(y, wSize, i, UpperBound))
    {
      SpanMonotone(i + 1, nwindows, wSize);
      wEnd := wEnd + wSize;
      var yKept, xKept := ClipWindow(y, x, wStart, wEnd);
      ghost var before := WholeWindows(y, wSize, i, UpperBound);
      ghost var block := WindowKept(y, wStart, wEnd, UpperBound);
      assert wEnd == Span(i + 1, wSize);
      WholeWindowsStep(y, wSize, i, UpperBound);
      SelectAppend(y, before, block);
      SelectAppend(x, before, block);
      yClipped := yClipped + yKept;
      xClipped := xClipped + xKept;
      wStart := wEnd;
    }
  }

  /** rolling_sigma_clip: the samples kept are exactly those Clipped selects,
      fluxes and wavelengths alike. */
  method RollingSigmaClip(y: seq<real>, x: seq<real>, wSize: nat) returns (yClipped: seq<real>, xClipped: seq<real>)
    requires wSize > 0 && |y| == |x|
    ensures yClipped == Select(y, Clipped(y, wSize))
    ensures xClipped == Select(x, Clipped(y, wSize))
  {
    var n := |x|;
    var nwindows := n / wSize;
    var rem := n % wSize;
    WindowCount(n, wSize);
    var wEnd;
    yClipped, xClipped, wEnd := ClipWholeWindows(y, x, wSize, nwindows);
    ghost var whole := WholeWindows(y, wSize, nwindows, UpperBound);
    if rem != 0 {
      // The last window is range(w_end, w_end + rem), which ends at n.
      assert wEnd + rem == n;
      var yKept, xKept := ClipWindow(y, x, wEnd, n);
      ghost var block := WindowKept(y, wEnd, n, UpperBound);
      assert Clipped(y, wSize) == whole + block;
      SelectJoin(y, n, Clipped(y, wSize), whole, block, yClipped, yKept);
      SelectJoin(x, n, Clipped(y, wSize), whole, block, xClipped, xKept);
      yClipped := yClipped + yKept;
      xClipped := xClipped + xKept;
    } else {
      assert Clipped(y, wSize) == whole;
    }
  }

  /** Where window q (counting from 0) stops: w samples after its start, or
      at the end of the data for the last, shorter window. */
  function WindowStop(n: nat, w: nat, q: nat): nat
  {
    if Span(q, w) + w <= n then Span(q, w) + w else n
  }

  /** KeepBlock holds exactly the positions of [lo, hi) whose value is not above bound. */
  lemma {:induction false} KeepBlockMembers(y: seq<real>, lo: nat, hi: nat, bound: real, i: nat)
    requires lo <= hi <= |y|
    ensures i in KeepBlock(y, lo, hi, bound) <==> lo <= i < hi && !(y[i] > bound)
    decreases hi - lo
  {
    if hi > lo {
      KeepBlockMembers(y, lo, hi - 1, bound, i);
    }
  }

  /** Among the first m whole windows, a position of window q < m is kept
      exactly when its own window keeps it. */
  lemma {:induction false} WholeWindowsMembers(y: seq<real>, w: nat, m: nat, bound: seq<real> -> real, q: nat, i: nat)
    requires w > 0 && Span(m, w) <= |y| && q < m
    requires Span(q, w) <= i < Span(q, w) + w
    ensures Span(q + 1, w) <= Span(m, w)
    ensures i in WholeWindows(y, w, m, bound) <==> i in WindowKept(y, Span(q, w), Span(q + 1, w), bound)
  {
    SpanMonotone(q + 1, m, w);
    if q == m - 1 {
      assert Span(q, w) == Span(m - 1, w) && Span(q + 1, w) == Span(m, w);
      LastWindowMembers(y, w, m, bound, i);
    } else {
      SpanMonotone(q + 1, m - 1, w);
      WholeWindowsMembers(y, w, m - 1, bound, q, i);
      EarlierWindowMembers(y, w, m, bound, i);
    }
  }

  /** A position of the last of m windows is kept iff that window keeps it. */
  lemma LastWindowMembers(y: seq<real>, w: nat, m: nat, bound: seq<real> -> real, i: nat)
    requires w > 0 && m > 0 && Span(m, w) <= |y|
    requires Span(m - 1, w) <= i
    ensures i in WholeWindows(y, w, m, bound) <==> i in WindowKept(y, Span(m - 1, w), Span(m, w), bound)
  {
    WholeWindowsStep(y, w, m - 1, bound);
    var before := WholeWindows(y, w, m - 1, bound);
    InConcat(before, WindowKept(y, Span(m - 1, w), Span(m, w), bound), i);
    NotInBelow(before, Span(m - 1, w), i);
  }

  /** A position before the last of m windows is kept by them iff it is
      kept by the first m - 1. */
  lemma EarlierWindowMembers(y: seq<real>, w: nat, m: nat, bound: seq<real> -> real, i: nat)
    requires w > 0 && m > 0 && Span(m, w) <= |y|
    requires i < Span(m - 1, w)
    ensures i in WholeWindows(y, w, m, bound) <==> i in WholeWindows(y, w, m - 1, bound)
  {
    WholeWindowsStep(y, w, m - 1, bound);
    var block := WindowKept(y, Span(m - 1, w), Span(m, w), bound);
    InConcat(WholeWindows(y, w, m - 1, bound), block, i);
    NotInAbove(block, Span(m - 1, w), i);
  }

  lemma InConcat(a: seq<nat>, b: seq<nat>, i: nat)
    ensures i in a + b <==> i in a || i in b
  {
  }

  lemma NotInBelow(s: seq<nat>, e: nat, i: nat)
    requires forall k :: 0 <= k < |s| ==> s[k] < e
    requires e <= i
    ensures i !in s
  {
  }

  lemma NotInAbove(s: seq<nat>, e: nat, i: nat)
    requires forall k :: 0 <= k < |s| ==> e <= s[k]
    requires i < e
    ensures i !in s
  {
  }

  /** In a rolling clip, the sample at position i, in window q, is kept
      exactly when it is not above the bound computed from window q. */
  lemma ClipWithMembers(y: seq<real>, w: nat, bound: seq<real> -> real, q: nat, i: nat)
    requires w > 0 && i < |y|
    requires Span(q, w) <= i < Span(q, w) + w
    ensures Span(q, w) < WindowStop(|y|, w, q) <= |y|
    ensures i in ClipWith(y, w, bound) <==> !(y[i] > bound(y[Span(q, w)..WindowStop(|y|, w, q)]))
  {
    WindowOfPosition(|y|, w, q, i);
    if q < WholeCount(|y|, w) {
      ClipWithWholeMember(y, w, bound, q, i);
    } else {
      ClipWithRestMember(y, w, bound, q, i);
    }
  }

  /** A position lies in one of the whole windows or in the shorter one after them. */
  lemma WindowOfPosition(n: nat, w: nat, q: nat, i: nat)
    requires w > 0 && Span(q, w) <= i < n
    ensures q <= WholeCount(n, w)
  {
    var nw := WholeCount(n, w);
    WholeCountSpan(n, w);
    assert Span(nw + 1, w) == Span(nw, w) + w;
    if q > nw {
      SpanMonotone(nw + 1, q, w);
      assert false;
    }
  }

  /** ClipWith is the whole windows' positions followed by the shorter window's. */
  lemma ClipWithSplit(y: seq<real>, w: nat, bound: seq<real> -> real)
    requires w > 0
    ensures Span(WholeCount(|y|, w), w) <= |y| < Span(WholeCount(|y|, w), w) + w
    ensures ClipWith(y, w, bound) ==
              WholeWindows(y, w, WholeCount(|y|, w), bound) +
              (if Span(WholeCount(|y|, w), w) < |y| then WindowKept(y, Span(WholeCount(|y|, w), w), |y|, bound) else [])
  {
    WholeCountSpan(|y|, w);
  }

  /** A position of a whole window is kept iff that window's bound keeps it. */
  lemma ClipWithWholeMember(y: seq<real>, w: nat, bound: seq<real> -> real, q: nat, i: nat)
    requires w > 0 && i < |y|
    requires Span(q, w) <= i < Span(q, w) + w && q < WholeCount(|y|, w)
    ensures WindowStop(|y|, w, q) == Span(q + 1, w) <= |y|
    ensures i in ClipWith(y, w, bound) <==> !(y[i] > bound(y[Span(q, w)..Span(q + 1, w)]))
  {
    var nw := WholeCount(|y|, w);
    var s := Span(nw, w);
    ClipWithSplit(y, w, bound);
    SpanMonotone(q + 1, nw, w);
    WholeWindowsMembers(y, w, nw, bound, q, i);
    KeepBlockMembers(y, Span(q, w), Span(q + 1, w), bound(y[Span(q, w)..Span(q + 1, w)]), i);
    var rest := if s < |y| then WindowKept(y, s, |y|, bound) else [];
    InConcat(WholeWindows(y, w, nw, bound), rest, i);
    NotInAbove(rest, s, i);
  }

  /** A position of the shorter last window is kept iff that window's bound keeps it. */
  lemma ClipWithRestMember(y: seq<real>, w: nat, bound: seq<real> -> real, q: nat, i: nat)
    requires w > 0 && i < |y|
    requires Span(q, w) <= i && q == WholeCount(|y|, w)
    ensures WindowStop(|y|, w, q) == |y|
    ensures i in ClipWith(y, w, bound) <==> !(y[i] > bound(y[Span(q, w)..|y|]))
  {
    var s := Span(q, w);
    ClipWithSplit(y, w, bound);
    var whole := WholeWindows(y, w, q, bound);
    var rest := WindowKept(y, s, |y|, bound);
    InConcat(whole, rest, i);
    NotInBelow(whole, s, i);
    KeepBlockMembers(y, s, |y|, bound(y[s..|y|]), i);
  }

  /** The sample at position i, in window q, survives rolling_sigma_clip
      exactly when it is not above Q3 + 1.5 IQR of window q. */
  lemma ClippedMembers(y: seq<real>, w: nat, q: nat, i: nat)
    requires w > 0 && i < |y|
    requires Span(q, w) <= i < Span(q, w) + w
    ensures Span(q, w) < WindowStop(|y|, w, q) <= |y|
    ensures i in Clipped(y, w) <==> !(y[i] > UpperBound(y[Span(q, w)..WindowStop(|y|, w, q)]))
  {
    ClipWithMembers(y, w, UpperBound, q, i);
  }

  /** A sample not above its window's third quartile always survives. */
  lemma ClipKeepsLowSamples(y: seq<real>, w: nat, q: nat, i: nat)
    requires w > 0 && i < |y|
    requires Span(q, w) <= i < Span(q, w) + w
    requires Span(q, w) < WindowStop(|y|, w, q) <= |y|
    requires y[i] <= Percentile(y[Span(q, w)..WindowStop(|y|, w, q)], 75.0)
    ensures i in Clipped(y, w)
  {
    var win := y[Span(q, w)..WindowStop(|y|, w, q)];
    PercentileMonotone(win, 25.0, 75.0);
    ClippedMembers(y, w, q, i);
  }

  /** Every window keeps at least one of its samples: the clip never empties a window. */
  lemma ClipKeepsOnePerWindow(y: seq<real>, w: nat, q: nat)
    requires w > 0 && Span(q, w) < |y|
    ensures exists i :: Span(q, w) <= i < WindowStop(|y|, w, q) && i in Clipped(y, w)
  {
    var lo, hi := Span(q, w), WindowStop(|y|, w, q);
    assert lo < hi <= lo + w;
    var win := y[lo..hi];
    var k := LowSample(win);
    assert y[lo + k] == win[k];
    ClipKeepsLowSamples(y, w, q, lo + k);
  }

  /** A position of a non-empty window whose value is not above the third quartile (the minimum's). */
  lemma LowSample(win: seq<real>) returns (k: nat)
    requires |win| > 0
    ensures k < |win| && win[k] <= Percentile(win, 75.0)
  {
    PercentileBounds(win, 75.0);
    k :| 0 <= k < |win| && win[k] == Min(win);
  }

  /** The number of samples covered by the first i whole windows of w samples. */
  function Span(i: nat, w: nat): nat
  {
    if i == 0 then 0 else Span(i - 1, w) + w
  }

  lemma {:induction false} SpanIsProduct(i: nat, w: nat)
    ensures Span(i, w) == i * w
  {
    if i > 0 {
      SpanIsProduct(i - 1, w);
      assert (i - 1) * w + w == i * w;
    }
  }

  lemma {:induction false} SpanMonotone(i: nat, j: nat, w: nat)
    requires i <= j
    ensures Span(i, w) <= Span(j, w)
  {
    if i < j {
      SpanMonotone(i, j - 1, w);
    }
  }

  /** The number of whole windows of w samples that fit in n samples. */
  function WholeCount(n: nat, w: nat): nat
    requires w > 0
    decreases n
  {
    if n < w then 0 else 1 + WholeCount(n - w, w)
  }

  /** The whole windows cover all but fewer than w samples. */
  lemma {:induction false} WholeCountSpan(n: nat, w: nat)
    requires w > 0
    ensures Span(WholeCount(n, w), w) <= n < Span(WholeCount(n, w), w) + w
    decreases n
  {
    if n >= w {
      WholeCountSpan(n - w, w);
    }
  }

  /** n splits into n / w whole windows of w samples and n % w samples left
      over, fewer than a whole window. */
  lemma WindowCount(n: nat, w: nat)
    requires w > 0
    ensures n / w == WholeCount(n, w)
    ensures Span(n / w, w) + n % w == n
    ensures n % w < w
  {
    var c := WholeCount(n, w);
    WholeCountSpan(n, w);
    SpanIsProduct(c, w);
    SpanIsProduct(n / w, w);
    DivUnique(n, w, c);
  }

  /** The quotient is the only c with c * w <= n < c * w + w. */
  lemma DivUnique(n: nat, w: nat, c: nat)
    requires w > 0 && c * w <= n < c * w + w
    ensures n / w == c
  {
    var d, r := n / w, n % w;
    assert d * w + r == n && 0 <= r < w;
    if d < c {
      MulAtLeast(c - d, w);
      assert false;
    } else if d > c {
      MulAtLeast(d - c, w);
      assert false;
    }
  }

  lemma MulAtLeast(e: nat, w: nat)
    requires e >= 1
    ensures e * w >= w
    ensures forall a: nat :: (a + e) * w == a * w + e * w
  {
    assert e * w == (e - 1) * w + w;
  }
}
