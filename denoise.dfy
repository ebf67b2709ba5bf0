/** denoise (src/SNT/smooth.py): replace each anchor's flux by the median of
    the spectrum around the anchor's position. */
module Denoise {
  import opened Common
  import opened Stats
  import opened PyLists

  /** The spectrum positions the window loop reads for an anchor at position
      idx in a spectrum of length l, for offsets 0 .. j - 1: idx - j' when
      that is above 0, then idx + j' when that is below l. */
  function WindowPositions(idx: nat, l: nat, j: nat): seq<nat>
  {
    if j == 0 then []
    else
      var k := j - 1;
      WindowPositions(idx, l, k) +
      (if idx - k > 0 then [idx - k] else []) +
      (if idx + k < l then [idx + k] else [])
  }

  /** The window holds exactly the positions below l that are less than j
      away from idx, except position 0 unless idx is 0: the left test
      idx - j > 0 never reaches the first pixel from the right. */
  lemma {:induction false} WindowPositionsMembers(idx: nat, l: nat, j: nat)
    requires idx < l
    ensures forall p: nat :: p in WindowPositions(idx, l, j) <==>
              p < l && idx < p + j && p < idx + j && (p > 0 || idx == 0)
  {
    if j > 0 {
      var k := j - 1;
      WindowPositionsMembers(idx, l, k);
      var prev := WindowPositions(idx, l, k);
      var left: seq<nat> := if idx - k > 0 then [idx - k] else [];
      var right: seq<nat> := if idx + k < l then [idx + k] else [];
      assert WindowPositions(idx, l, j) == prev + left + right;
      forall p: nat
        ensures p in prev + left + right <==> p < l && idx < p + j && p < idx + j && (p > 0 || idx == 0)
      {
        assert p in prev + left + right <==> p in prev || p in left || p in right;
      }
    }
  }

  /** The anchor's own pixel is read twice (offset 0 on both sides), except
      at position 0 where the left test fails. */
  lemma {:induction false} WindowCenterCount(idx: nat, l: nat, j: nat)
    requires idx < l && j > 0
    ensures multiset(WindowPositions(idx, l, j))[idx] == if idx > 0 then 2 else 1
  {
    if j == 1 {
      assert WindowPositions(idx, l, 0) == [];
      if idx > 0 {
        assert WindowPositions(idx, l, 1) == [idx, idx];
      } else {
        assert WindowPositions(idx, l, 1) == [idx];
      }
    } else {
      WindowCenterCount(idx, l, j - 1);
      WindowLaterOffset(idx, l, j);
    }
  }

  /** Offsets after the first do not read the anchor's own pixel. */
  lemma {:induction false} WindowLaterOffset(idx: nat, l: nat, j: nat)
    requires j > 1
    ensures multiset(WindowPositions(idx, l, j))[idx] == multiset(WindowPositions(idx, l, j - 1))[idx]
  {
    var k := j - 1;
    var prev := WindowPositions(idx, l, k);
    var left: seq<nat> := if idx - k > 0 then [idx - k] else [];
    var right: seq<nat> := if idx + k < l then [idx + k] else [];
    assert WindowPositions(idx, l, j) == prev + left + right;
    assert multiset(left)[idx] == 0 by {
      if idx - k > 0 { assert left == [idx - k]; } else { assert left == []; }
    }
    assert multiset(right)[idx] == 0 by {
      if idx + k < l { assert right == [idx + k]; } else { assert right == []; }
    }
    assert multiset(prev + left + right) == multiset(prev) + multiset(left) + multiset(right);
  }

  lemma WindowInRange(idx: nat, l: nat, j: nat)
    requires idx < l
    ensures forall m :: 0 <= m < |WindowPositions(idx, l, j)| ==> WindowPositions(idx, l, j)[m] < l
  {
    WindowPositionsMembers(idx, l, j);
    var r := WindowPositions(idx, l, j);
    forall m | 0 <= m < |r|
      ensures r[m] < l
    {
      assert r[m] in r;
    }
  }

  lemma WindowNonEmpty(idx: nat, l: nat, w: nat)
    requires idx < l
    ensures w > 0 ==> |WindowPositions(idx, l, w)| > 0
  {
    if w > 0 {
      WindowCenterCount(idx, l, w);
    }
  }

  /** The fluxes window_elements collects for an anchor at position idx. */
  function Window(spectra: seq<real>, idx: nat, w: nat): (r: seq<real>)
    requires idx < |spectra|
    ensures w > 0 ==> |r| > 0
  {
    WindowInRange(idx, |spectra|, w);
    WindowNonEmpty(idx, |spectra|, w);
    Select(spectra, WindowPositions(idx, |spectra|, w))
  }

  /** What the enumerate loop leaves: the fluxes and whether it raised. */
  datatype DenoiseResult = DenoiseResult(ys: seq<real>, outcome: Outcome)

  /** The loop of denoise from anchor i on: reading the window of an anchor
      past the end of the spectrum raises IndexError, and so does assigning
      to a flux past the end of anchors_y. */
  function DenoiseFrom(ys: seq<real>, aidx: seq<nat>, spectra: seq<real>, w: nat, i: nat): DenoiseResult
    requires w > 0
    decreases |aidx| - i
  {
    if i >= |aidx| then DenoiseResult(ys, Pass)
    else if aidx[i] >= |spectra| then DenoiseResult(ys, Fail(IndexError))
    else if i >= |ys| then DenoiseResult(ys, Fail(IndexError))
    else DenoiseFrom(ys[i := Median(Window(spectra, aidx[i], w))], aidx, spectra, w, i + 1)
  }

  /** The loop succeeds exactly when every anchor position from i on lies in
      the spectrum and there is a flux for each; it keeps the number of
      fluxes, changes none outside the anchors it visits, and on success the
      flux of anchor k is the median of its window. */
  lemma {:induction false} DenoiseFacts(ys: seq<real>, aidx: seq<nat>, spectra: seq<real>, w: nat, i: nat)
    requires w > 0
    ensures var r := DenoiseFrom(ys, aidx, spectra, w, i);
            (r.outcome.Pass? <==>
               (forall k :: i <= k < |aidx| ==> aidx[k] < |spectra|) && (i >= |aidx| || |aidx| <= |ys|)) &&
            (r.outcome.Fail? ==> r.outcome.error == IndexError) &&
            |r.ys| == |ys| &&
            (forall k :: 0 <= k < |ys| && (k < i || k >= |aidx|) ==> r.ys[k] == ys[k]) &&
            (r.outcome.Pass? ==>
               forall k :: i <= k < |aidx| ==> r.ys[k] == Median(Window(spectra, aidx[k], w)))
    decreases |aidx| - i
  {
    if i < |aidx| && aidx[i] < |spectra| && i < |ys| {
      var ys' := ys[i := Median(Window(spectra, aidx[i], w))];
      DenoiseFacts(ys', aidx, spectra, w, i + 1);
    }
  }

  /** On success every denoised flux lies between the smallest and the
      largest flux of its window. */
  lemma DenoiseBounds(ys: seq<real>, aidx: seq<nat>, spectra: seq<real>, w: nat, k: nat)
    requires w > 0 && k < |aidx|
    requires DenoiseFrom(ys, aidx, spectra, w, 0).outcome.Pass?
    ensures aidx[k] < |spectra| && k < |DenoiseFrom(ys, aidx, spectra, w, 0).ys|
    ensures var window := Window(spectra, aidx[k], w);
            Min(window) <= DenoiseFrom(ys, aidx, spectra, w, 0).ys[k] <= Max(window)
  {
    DenoiseFacts(ys, aidx, spectra, w, 0);
    MedianBounds(Window(spectra, aidx[k], w));
  }

  /** The window loop of denoise for one anchor. */
  method DenoiseWindow(spectra: seq<real>, idx: nat, w: nat) returns (r: Result<seq<real>>)
    requires |spectra| > 0 && w > 0
    ensures idx >= |spectra| ==> r == Failure(IndexError)
    ensures idx < |spectra| ==> r == Success(Window(spectra, idx, w))
  {
    var l := |spectra|;
    var elements: seq<real> := [];
    ghost var ps: seq<nat> := [];
    for j := 0 to w
      invariant j > 0 ==> idx < l
      invariant ps == WindowPositions(idx, l, j)
      invariant |elements| == |ps|
      invariant forall m :: 0 <= m < |ps| ==> ps[m] < l && elements[m] == spectra[ps[m]]
    {
      if idx - j > 0 {
        if idx - j >= l {
          return Failure(IndexError);
        }
        elements := elements + [spectra[idx - j]];
        ps := ps + [idx - j];
      }
      if idx + j < l {
        elements := elements + [spectra[idx + j]];
        ps := ps + [idx + j];
      }
    }
    WindowInRange(idx, l, w);
    assert elements == Select(spectra, ps);
    r := Success(elements);
  }

  /** denoise(anchors_y, anchors_idx, spectra, window_size): sets each
      anchor's flux in place to the median of its window, as DenoiseFrom
      describes, raising IndexError where it does. */
  method Denoise(ay: PyList<real>, aidx: seq<nat>, spectra: seq<real>, w: nat) returns (o: Outcome)
    requires |spectra| > 0 && w > 0
    modifies ay
    ensures var r := DenoiseFrom(old(ay.items), aidx, spectra, w, 0);
            o == r.outcome && ay.items == r.ys
  {
    for i := 0 to |aidx|
      invariant DenoiseFrom(ay.items, aidx, spectra, w, i) == DenoiseFrom(old(ay.items), aidx, spectra, w, 0)
    {
      var window := DenoiseWindow(spectra, aidx[i], w);
      if window.Failure? {
        return Fail(IndexError);
      }
      var stored := ay.SetItem(i, Median(window.value));
      if stored.Fail? {
        return Fail(IndexError);
      }
    }
    o := Pass;
  }
}
