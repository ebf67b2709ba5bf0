/** sigma_clip_iqr, distance and remove_close (src/SNT/smooth.py): drop one
    anchor of each pair of neighbours that lie unusually close together. */
module Close {
  import opened Common
  import opened Stats
  import opened PyLists

  /** The positions 0 .. n - 1. */
  function Range(n: nat): (r: seq<nat>)
    ensures |r| == n && forall k :: 0 <= k < n ==> r[k] == k
  {
    seq(n, k requires 0 <= k < n => k)
  }

  /** The lower fence q25 - 1.5 * (q75 - q25) of the distances. */
  function Lower(distance: seq<real>): real
    requires |distance| > 0
  {
    var q75 := Percentile(distance, 75.0);
    var q25 := Percentile(distance, 25.0);
    q25 - 1.5 * (q75 - q25)
  }

  /** The anchors a loop leaves (their original positions) and whether a
      pop raised. */
  datatype Sweep = Sweep(ks: seq<nat>, outcome: Outcome)

  /** The loop of sigma_clip_iqr from i on, ks being the original positions
      of the anchors still in the lists. For a distance below the fence it
      pops position i, or i + 1 when the left neighbour's distance is not the
      smaller, of the lists as they are NOW; the distances are not shifted
      along, so after a first pop this is no longer the anchor meant. */
  function CloseSweep(distance: seq<real>, lower: real, ks: seq<nat>, i: nat): Sweep
    requires 1 <= i
    decreases |distance| - i
  {
    if i + 1 >= |distance| then Sweep(ks, Pass)
    else if distance[i] < lower then
      var j := if distance[i - 1] < distance[i + 1] then i else i + 1;
      if j < |ks| then CloseSweep(distance, lower, RemoveAt(ks, j), i + 1)
      else Sweep(ks, Fail(IndexError))
    else CloseSweep(distance, lower, ks, i + 1)
  }

  /** sigma_clip_iqr on lists of n anchors: np.percentile raises IndexError
      on no distances. */
  function SigmaClipResult(distance: seq<real>, n: nat): Sweep
  {
    if |distance| == 0 then Sweep(Range(n), Fail(IndexError))
    else CloseSweep(distance, Lower(distance), Range(n), 1)
  }

  /** The number of interior distances from i on below the fence. */
  function CountBelow(distance: seq<real>, lower: real, i: nat): nat
    decreases |distance| - i
  {
    if i + 1 >= |distance| then 0
    else (if distance[i] < lower then 1 else 0) + CountBelow(distance, lower, i + 1)
  }

  lemma RemoveAtIndices(ks: seq<nat>, n: nat, j: nat)
    requires IncreasingIndices(ks, n) && j < |ks|
    ensures IncreasingIndices(RemoveAt(ks, j), n)
  {
    var r := RemoveAt(ks, j);
    forall k, l | 0 <= k < l < |r|
      ensures r[k] < r[l]
    {
      var k' := if k < j then k else k + 1;
      var l' := if l < j then l else l + 1;
      assert r[k] == ks[k'] && r[l] == ks[l'];
    }
  }

  /** As written, the loop still pops x and y at the same position, so the
      anchors left are original (wavelength, flux) pairs in their original
      order; the first anchor is never popped; and when no pop raises, one
      anchor went per distance below the fence. */
  lemma {:induction false} CloseSweepFacts(distance: seq<real>, lower: real, ks: seq<nat>, n: nat, i: nat)
    requires 1 <= i && IncreasingIndices(ks, n)
    ensures var r := CloseSweep(distance, lower, ks, i);
            IncreasingIndices(r.ks, n) &&
            (|ks| > 0 ==> |r.ks| > 0 && r.ks[0] == ks[0]) &&
            (r.outcome.Pass? ==> |r.ks| + CountBelow(distance, lower, i) == |ks|) &&
            (r.outcome.Fail? ==> r.outcome.error == IndexError)
    decreases |distance| - i
  {
    if i + 1 < |distance| {
      if distance[i] < lower {
        var j := if distance[i - 1] < distance[i + 1] then i else i + 1;
        if j < |ks| {
          RemoveAtIndices(ks, n, j);
          CloseSweepFacts(distance, lower, RemoveAt(ks, j), n, i + 1);
        }
      } else {
        CloseSweepFacts(distance, lower, ks, n, i + 1);
      }
    }
  }

  /** The original positions the loop means to drop: for each interior
      distance below the fence, the anchor i or i + 1 of that pair. */
  function Marked(distance: seq<real>, lower: real, i: nat): (m: set<nat>)
    requires 1 <= i
    ensures forall k :: k in m ==> i <= k < |distance|
    decreases |distance| - i
  {
    if i + 1 >= |distance| then {}
    else
      var mark := if distance[i] < lower then {if distance[i - 1] < distance[i + 1] then i else i + 1} else {};
      mark + Marked(distance, lower, i + 1)
  }

  /** The positions below n not in m, in order. */
  function KeepUnmarked(m: set<nat>, n: nat): (r: seq<nat>)
  {
    if n == 0 then [] else KeepUnmarked(m, n - 1) + (if n - 1 in m then [] else [n - 1])
  }

  lemma {:induction false} KeepUnmarkedFacts(m: set<nat>, n: nat)
    ensures IncreasingIndices(KeepUnmarked(m, n), n)
    ensures forall k: nat :: k in KeepUnmarked(m, n) <==> k < n && k !in m
  {
    if n > 0 {
      KeepUnmarkedFacts(m, n - 1);
      var prev := KeepUnmarked(m, n - 1);
      var tail := if n - 1 in m then [] else [n - 1];
      assert KeepUnmarked(m, n) == prev + tail;
      forall k: nat
        ensures k in prev + tail <==> k < n && k !in m
      {
        assert k in prev + tail <==> k in prev || k in tail;
      }
    }
  }

  /** sigma_clip_iqr as evidently intended: decide the anchors to drop by
      their original positions first, then drop them all. */
  function SigmaClipCorrected(distance: seq<real>, n: nat): Sweep
  {
    if |distance| == 0 then Sweep(Range(n), Fail(IndexError))
    else Sweep(KeepUnmarked(Marked(distance, Lower(distance), 1), n), Pass)
  }

  /** Corrected, with one distance per pair of neighbours (or fewer): no pop
      can fail, exactly the marked anchors go, the others stay as original
      pairs in order, and the first and the last anchor are always kept. */
  lemma CorrectedCloseRemoval(distance: seq<real>, n: nat)
    requires 0 < |distance| < n
    ensures var r := SigmaClipCorrected(distance, n);
            r.outcome == Pass && IncreasingIndices(r.ks, n) &&
            (forall k: nat :: k in r.ks <==> k < n && k !in Marked(distance, Lower(distance), 1)) &&
            0 in r.ks && n - 1 in r.ks
  {
    KeepUnmarkedFacts(Marked(distance, Lower(distance), 1), n);
  }

  /** As written, after a first pop the loop drops the wrong anchor: with
      distances 10, 1, 10, 1, 10, 10, 10, 10 between 9 anchors the fence is
      4.375, both pairs (1, 2) and (3, 4) are too close and anchors 2 and 4
      are meant to go, but anchor 5 goes instead of 4. */
  lemma SigmaClipShiftsIndices()
    ensures var d := [10.0, 1.0, 10.0, 1.0, 10.0, 10.0, 10.0, 10.0];
            SigmaClipResult(d, 9) == Sweep([0, 1, 3, 4, 6, 7, 8], Pass) &&
            SigmaClipCorrected(d, 9) == Sweep([0, 1, 3, 5, 6, 7, 8], Pass)
  {
    ExampleFence();
    ExampleAsWritten();
    ExampleCorrected();
  }

  lemma ExampleAsWritten()
    ensures CloseSweep([10.0, 1.0, 10.0, 1.0, 10.0, 10.0, 10.0, 10.0], 4.375, Range(9), 1) ==
            Sweep([0, 1, 3, 4, 6, 7, 8], Pass)
  {
    var d := [10.0, 1.0, 10.0, 1.0, 10.0, 10.0, 10.0, 10.0];
    var lower := 4.375;
    var ks := Range(9);
    assert ks == [0, 1, 2, 3, 4, 5, 6, 7, 8];
    assert RemoveAt(ks, 2) == [0, 1, 3, 4, 5, 6, 7, 8];
    assert RemoveAt([0, 1, 3, 4, 5, 6, 7, 8], 4) == [0, 1, 3, 4, 6, 7, 8];
    assert CloseSweep(d, lower, ks, 1) == CloseSweep(d, lower, [0, 1, 3, 4, 5, 6, 7, 8], 2);
    assert CloseSweep(d, lower, [0, 1, 3, 4, 5, 6, 7, 8], 2) ==
           CloseSweep(d, lower, [0, 1, 3, 4, 6, 7, 8], 4);
  }

  lemma ExampleCorrected()
    ensures KeepUnmarked(Marked([10.0, 1.0, 10.0, 1.0, 10.0, 10.0, 10.0, 10.0], 4.375, 1), 9) ==
            [0, 1, 3, 5, 6, 7, 8]
  {
    var d := [10.0, 1.0, 10.0, 1.0, 10.0, 10.0, 10.0, 10.0];
    assert Marked(d, 4.375, 1) == {2, 4};
    assert KeepUnmarked({2, 4}, 3) == [0, 1];
    assert KeepUnmarked({2, 4}, 5) == [0, 1, 3];
  }

  /** The fence of the example above. */
  lemma ExampleFence()
    ensures Lower([10.0, 1.0, 10.0, 1.0, 10.0, 10.0, 10.0, 10.0]) == 4.375
  {
    var d := [10.0, 1.0, 10.0, 1.0, 10.0, 10.0, 10.0, 10.0];
    var t := [1.0, 1.0, 10.0, 10.0, 10.0, 10.0, 10.0, 10.0];
    assert Sort(d[4..]) == [10.0, 10.0, 10.0, 10.0] by {
      assert Sort(d[7..]) == [10.0];
      assert Sort(d[6..]) == [10.0, 10.0];
      assert Sort(d[5..]) == [10.0, 10.0, 10.0];
    }
    assert Sort(d[3..]) == [1.0, 10.0, 10.0, 10.0, 10.0];
    assert Sort(d[2..]) == [1.0, 10.0, 10.0, 10.0, 10.0, 10.0] by {
      assert Insert(10.0, [10.0, 10.0, 10.0, 10.0]) == [10.0, 10.0, 10.0, 10.0, 10.0];
    }
    assert Sort(d[1..]) == [1.0, 1.0, 10.0, 10.0, 10.0, 10.0, 10.0];
    assert Sort(d) == t by {
      assert Insert(10.0, [10.0, 10.0, 10.0, 10.0, 10.0]) == [10.0, 10.0, 10.0, 10.0, 10.0, 10.0];
      assert Insert(10.0, [1.0, 10.0, 10.0, 10.0, 10.0, 10.0]) == [1.0] + Insert(10.0, [10.0, 10.0, 10.0, 10.0, 10.0]);
    }
    assert Position(8, 75.0) == 5.25 && Position(8, 25.0) == 1.75;
    assert Percentile(d, 75.0) == 10.0;
    assert Percentile(d, 25.0) == 7.75;
  }

  lemma SelectRemoveAt<T>(s: seq<T>, ks: seq<nat>, j: nat)
    requires forall k :: 0 <= k < |ks| ==> ks[k] < |s|
    requires j < |ks|
    ensures Select(s, RemoveAt(ks, j)) == RemoveAt(Select(s, ks), j)
  {
  }

  /** sigma_clip_iqr(distance, anchors_y, anchors_x): pops the two lists in
      place as SigmaClipResult describes, or raises IndexError (from
      np.percentile on no distances, or from a pop past the end). */
  method SigmaClipIqr(distance: seq<real>, ay: PyList<real>, ax: PyList<real>) returns (o: Outcome)
    requires ax != ay && |ay.items| == |ax.items|
    modifies ax, ay
    ensures var r := SigmaClipResult(distance, |old(ax.items)|);
            o == r.outcome && IncreasingIndices(r.ks, |old(ax.items)|) &&
            ax.items == Select(old(ax.items), r.ks) && ay.items == Select(old(ay.items), r.ks)
  {
    ghost var xs0, ys0 := ax.items, ay.items;
    ghost var ks := Range(|xs0|);
    assert Select(xs0, ks) == xs0 && Select(ys0, ks) == ys0;
    var l := |distance|;
    if l == 0 {
      return Fail(IndexError);
    }
    var q75 := Percentile(distance, 75.0);
    var q25 := Percentile(distance, 25.0);
    var iqr := q75 - q25;
    var lower := q25 - 1.5 * iqr;
    CloseSweepFacts(distance, lower, ks, |xs0|, 1);
    var hi := if l > 1 then l - 1 else 1;
    for i := 1 to hi
      invariant IncreasingIndices(ks, |xs0|)
      invariant ax.items == Select(xs0, ks) && ay.items == Select(ys0, ks)
      invariant CloseSweep(distance, lower, ks, i) == SigmaClipResult(distance, |xs0|)
    {
      if distance[i] < lower {
        var j := if distance[i - 1] < distance[i + 1] then i else i + 1;
        var px := ax.Pop(j);
        if px.Failure? {
          return Fail(IndexError);
        }
        var py := ay.Pop(j);
        SelectRemoveAt(xs0, ks, j);
        SelectRemoveAt(ys0, ks, j);
        RemoveAtIndices(ks, |xs0|, j);
        ks := RemoveAt(ks, j);
      }
    }
    o := Pass;
  }

  /** distance(x1, y1, x2, y2): the Euclidean distance; math.sqrt is the
      parameter sqrt. */
  function Distance(sqrt: real -> real, x1: real, y1: real, x2: real, y2: real): real
  {
    sqrt((x2 - x1) * (x2 - x1) + (y2 - y1) * (y2 - y1))
  }

  /** The distances between neighbouring anchors. */
  function Distances(sqrt: real -> real, xs: seq<real>, ys: seq<real>): (r: seq<real>)
    requires |ys| == |xs|
    ensures |r| == if |xs| > 0 then |xs| - 1 else 0
  {
    seq(if |xs| > 0 then |xs| - 1 else 0,
        i requires 0 <= i < |xs| - 1 => Distance(sqrt, xs[i], ys[i], xs[i + 1], ys[i + 1]))
  }

  /** remove_close(anchors_y, anchors_x): the distances between neighbours,
      then sigma_clip_iqr on them. */
  method RemoveClose(ay: PyList<real>, ax: PyList<real>, sqrt: real -> real) returns (o: Outcome)
    requires ax != ay && |ay.items| == |ax.items|
    modifies ax, ay
    ensures var r := SigmaClipResult(Distances(sqrt, old(ax.items), old(ay.items)), |old(ax.items)|);
            o == r.outcome && IncreasingIndices(r.ks, |old(ax.items)|) &&
            ax.items == Select(old(ax.items), r.ks) && ay.items == Select(old(ay.items), r.ks)
  {
    var l := |ax.items|;
    var dist: seq<real> := [];
    var hi := if l > 0 then l - 1 else 0;
    for i := 0 to hi
      invariant |dist| == i
      invariant forall k :: 0 <= k < i ==> dist[k] == Distances(sqrt, ax.items, ay.items)[k]
    {
      var d := Distance(sqrt, ax.items[i], ay.items[i], ax.items[i + 1], ay.items[i + 1]);
      dist := dist + [d];
    }
    assert dist == Distances(sqrt, ax.items, ay.items);
    o := SigmaClipIqr(dist, ay, ax);
  }

  /** remove_close on fewer than two anchors has no distance to take a
      percentile of and raises IndexError; otherwise the first anchor always
      stays, and the anchors left are original pairs in order. */
  lemma RemoveCloseFacts(sqrt: real -> real, xs: seq<real>, ys: seq<real>)
    requires |ys| == |xs|
    ensures var r := SigmaClipResult(Distances(sqrt, xs, ys), |xs|);
            (|xs| <= 1 ==> r.outcome == Fail(IndexError) && r.ks == Range(|xs|)) &&
            IncreasingIndices(r.ks, |xs|) &&
            (|xs| > 0 ==> |r.ks| > 0 && r.ks[0] == 0)
  {
    var d := Distances(sqrt, xs, ys);
    if |d| > 0 {
      CloseSweepFacts(d, Lower(d), Range(|xs|), |xs|, 1);
    }
  }
}
