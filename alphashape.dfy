/** The boundary walk of the alpha shape (src/SNT/alphashape.py, anchors):
    from the first candidate, repeatedly scan the candidates to the right
    of the current point for those inside the circle of diameter 2r, grow
    r by half until some appear or the walk runs past the furthest point,
    and move to the candidate with the smallest angle.

    The geometry is not interpreted: the normalised flux, the Euclidean
    norm, the angle of a candidate (with its circle centre computed from
    square roots) and the furthest point are parameters. */
module AlphaShape {
  import opened Common
  import opened Penalty

  /** The uninterpreted geometry: normal is smooth.normalize with the
      walk's fixed extremes and stretch, norm is np.linalg.norm of a
      two-vector, turn(Px, Py, Nx, Ny, r) is the angle recorded in A for
      candidate N seen from P with radius r, furthest is furthest_point. */
  datatype Geometry = Geometry(normal: real -> real, norm: (real, real) -> real,
                               turn: (real, real, real, real, real) -> real, furthest: real)

  /** The penalty map and radius bounds that r_map needs. */
  datatype PenaltyMap = PenaltyMap(py: seq<real>, px: seq<real>, lambdaMin: real,
                                   rMin: real, rMax: real, nu: nat)

  /** The candidates as points (wavelength, normalised flux). */
  function Points(g: Geometry, xs: seq<real>, ys: seq<real>, maxIndex: seq<nat>): (pts: seq<(real, real)>)
    requires |ys| == |xs| && forall k :: 0 <= k < |maxIndex| ==> maxIndex[k] < |xs|
    ensures |pts| == |maxIndex|
    ensures forall k :: 0 <= k < |maxIndex| ==> pts[k] == (xs[maxIndex[k]], g.normal(ys[maxIndex[k]]))
  {
    seq(|maxIndex|, k requires 0 <= k < |maxIndex| => (xs[maxIndex[k]], g.normal(ys[maxIndex[k]])))
  }

  /** The radius a new anchor at wavelength x starts from. */
  function ResetRadius(usePmap: bool, x: real, pm: PenaltyMap): (r: Result<real>)
    requires usePmap ==> pm.lambdaMin != 0.0
    ensures !usePmap ==> r == Success(pm.rMin)
    ensures r.Failure? ==> r.error == IndexError
  {
    if usePmap then RMap(x, pm.py, pm.px, pm.lambdaMin, pm.rMin, pm.rMax, pm.nu)
    else Success(pm.rMin)
  }

  // ---------------------------------------------------------------------
  // One scan
  // ---------------------------------------------------------------------

  /** N lies inside the circle of diameter 2r around P and is not P. */
  predicate Admitted(g: Geometry, p: (real, real), n: (real, real), r: real)
  {
    g.norm(p.0 - n.0, p.1 - n.1) < 2.0 * r && (p.0 != n.0 || p.1 != n.1)
  }

  /** The candidates the scan from position i collects: it stops at the
      first candidate more than 2r to the right of P. */
  function Scan(g: Geometry, pts: seq<(real, real)>, p: (real, real), r: real, i: nat): (m: seq<nat>)
    requires i <= |pts|
    ensures forall k :: 0 <= k < |m| ==> i <= m[k] < |pts|
    decreases |pts| - i
  {
    if i == |pts| || pts[i].0 > p.0 + 2.0 * r then []
    else (if Admitted(g, p, pts[i], r) then [i] else []) + Scan(g, pts, p, r, i + 1)
  }

  /** A candidate is collected iff it comes at or after i, is admitted,
      and no candidate up to it lies more than 2r to the right of P; the
      candidates come in increasing order. */
  lemma {:induction false} ScanMembers(g: Geometry, pts: seq<(real, real)>, p: (real, real), r: real, i: nat, m: nat)
    requires i <= |pts|
    ensures m in Scan(g, pts, p, r, i) <==>
              i <= m < |pts| && Admitted(g, p, pts[m], r) &&
              forall j :: i <= j <= m ==> pts[j].0 <= p.0 + 2.0 * r
    decreases |pts| - i
  {
    if i < |pts| && pts[i].0 <= p.0 + 2.0 * r {
      ScanMembers(g, pts, p, r, i + 1, m);
    }
  }

  lemma {:induction false} ScanIncreasing(g: Geometry, pts: seq<(real, real)>, p: (real, real), r: real, i: nat)
    requires i <= |pts|
    ensures IncreasingIndices(Scan(g, pts, p, r, i), |pts|)
    ensures forall k :: 0 <= k < |Scan(g, pts, p, r, i)| ==> i <= Scan(g, pts, p, r, i)[k]
    decreases |pts| - i
  {
    if i < |pts| && pts[i].0 <= p.0 + 2.0 * r {
      ScanIncreasing(g, pts, p, r, i + 1);
    }
  }

  /** With a non-positive radius no candidate is admitted. */
  lemma {:induction false} ScanNonpositive(g: Geometry, pts: seq<(real, real)>, p: (real, real), r: real, i: nat)
    requires i <= |pts| && r <= 0.0
    requires forall a, b :: g.norm(a, b) >= 0.0
    ensures Scan(g, pts, p, r, i) == []
    decreases |pts| - i
  {
    if i < |pts| && pts[i].0 <= p.0 + 2.0 * r {
      assert g.norm(p.0 - pts[i].0, p.1 - pts[i].1) >= 0.0;
      ScanNonpositive(g, pts, p, r, i + 1);
    }
  }

  /** The for loop over range(Pidx + 1, l) with its break. */
  method ScanRound(g: Geometry, pts: seq<(real, real)>, pidx: nat, r: real) returns (m: seq<nat>)
    requires pidx < |pts|
    ensures m == Scan(g, pts, pts[pidx], r, pidx + 1)
  {
    var p := pts[pidx];
    m := [];
    for i := pidx + 1 to |pts|
      invariant m + Scan(g, pts, p, r, i) == Scan(g, pts, p, r, pidx + 1)
    {
      var n := pts[i];
      if n.0 > p.0 + 2.0 * r {
        return;
      }
      if Admitted(g, p, n, r) {
        m := m + [i];
      }
      assert m + Scan(g, pts, p, r, i + 1) == Scan(g, pts, p, r, pidx + 1);
    }
  }

  // ---------------------------------------------------------------------
  // Radius growth
  // ---------------------------------------------------------------------

  /** The radius after n scans that found nothing: r0 · 1.5^n. */
  function Grow(r0: real, n: nat): real
  {
    if n == 0 then r0 else 1.5 * Grow(r0, n - 1)
  }

  /** A positive radius grows at least linearly, by r0/2 per round. */
  lemma {:induction false} GrowLinear(r0: real, n: nat)
    requires r0 > 0.0
    ensures Grow(r0, n) >= r0 + (n as real) * (r0 / 2.0)
  {
    if n > 0 {
      GrowLinear(r0, n - 1);
      assert (n as real) * (r0 / 2.0) == ((n - 1) as real) * (r0 / 2.0) + r0 / 2.0;
    }
  }

  lemma {:induction false} GrowMonotone(r0: real, k: nat, n: nat)
    requires r0 > 0.0 && k <= n
    ensures 0.0 < Grow(r0, k) <= Grow(r0, n)
    decreases n
  {
    if k < n {
      GrowMonotone(r0, k, n - 1);
    } else if k > 0 {
      GrowMonotone(r0, k - 1, k - 1);
    }
  }

  /** A non-positive radius never grows. */
  lemma {:induction false} GrowNonpositive(r0: real, n: nat)
    requires r0 <= 0.0
    ensures Grow(r0, n + 1) <= Grow(r0, n) <= 0.0
  {
    if n > 0 {
      GrowNonpositive(r0, n - 1);
    }
  }

  /** A positive radius eventually exceeds any bound. */
  lemma GrowUnbounded(r0: real, t: real) returns (n: nat)
    requires r0 > 0.0
    ensures Grow(r0, n) > t
  {
    var c := r0 / 2.0;
    if t < r0 {
      n := 0;
    } else {
      var q := (t - r0) / c;
      n := q.Floor + 1;
      assert n as real > q;
      assert (n as real) * c > q * c;
      GrowLinear(r0, n);
    }
  }

  /** P.x + 2r lies beyond the furthest point: the walk returns. */
  predicate Beyond(g: Geometry, p: (real, real), r: real)
  {
    p.0 + 2.0 * r > g.furthest
  }

  /** The scan from pidx with radius r0 · 1.5^k found nothing and the
      grown radius did not run past the furthest point. */
  predicate EmptyRound(g: Geometry, pts: seq<(real, real)>, pidx: nat, r0: real, k: nat)
    requires pidx < |pts|
  {
    Scan(g, pts, pts[pidx], Grow(r0, k), pidx + 1) == [] && !Beyond(g, pts[pidx], Grow(r0, k + 1))
  }

  /** Every round from pidx is empty: the search never ends. */
  ghost predicate NeverEnds(g: Geometry, pts: seq<(real, real)>, pidx: nat, r0: real)
    requires pidx < |pts|
  {
    forall k: nat :: EmptyRound(g, pts, pidx, r0, k)
  }

  /** Rounds 0 .. n-1 from pidx were all empty. */
  predicate Fruitless(g: Geometry, pts: seq<(real, real)>, pidx: nat, r0: real, n: nat)
    requires pidx < |pts|
  {
    forall k :: 0 <= k < n ==> EmptyRound(g, pts, pidx, r0, k)
  }

  /** Round n, with radius r0 · 1.5^n, found candidates and the grown
      radius did not run past the furthest point. */
  predicate RoundsFind(g: Geometry, pts: seq<(real, real)>, pidx: nat, r0: real, n: nat)
    requires pidx < |pts|
  {
    Fruitless(g, pts, pidx, r0, n) &&
    Scan(g, pts, pts[pidx], Grow(r0, n), pidx + 1) != [] && !Beyond(g, pts[pidx], Grow(r0, n + 1))
  }

  /** The walk returns in round n, whatever round n found. */
  predicate RoundsReturn(g: Geometry, pts: seq<(real, real)>, pidx: nat, r0: real, n: nat)
    requires pidx < |pts|
  {
    Fruitless(g, pts, pidx, r0, n) && Beyond(g, pts[pidx], Grow(r0, n + 1))
  }

  /** A non-positive start radius whose first round neither finds nor
      returns never ends: every later round does the same. */
  lemma LoopsForever(g: Geometry, pts: seq<(real, real)>, pidx: nat, r0: real, k: nat)
    requires pidx < |pts| && r0 <= 0.0
    requires forall a, b :: g.norm(a, b) >= 0.0
    requires !Beyond(g, pts[pidx], Grow(r0, 1))
    ensures EmptyRound(g, pts, pidx, r0, k)
  {
    GrowNonpositive(r0, k);
    ScanNonpositive(g, pts, pts[pidx], Grow(r0, k), pidx + 1);
    GrowDownFrom(r0, 1, k + 1);
  }

  lemma {:induction false} GrowDownFrom(r0: real, k: nat, n: nat)
    requires r0 <= 0.0 && k <= n
    ensures Grow(r0, n) <= Grow(r0, k)
    decreases n
  {
    if k < n {
      GrowDownFrom(r0, k, n - 1);
      GrowNonpositive(r0, n - 1);
    }
  }

  /** How a search for candidates ends. */
  datatype Ending = Found | Returned | Loops | Raised(error: PyError)

  /** The `while not M` loop from the current point pts[pidx] and start
      radius r0: the candidates found and the radius they were found with
      (after the division by 1.5), or the walk's return. A non-positive
      start radius that neither finds nor returns in its first round loops
      for ever in Python; that is reported as Loops. */
  method ScanUntilFound(g: Geometry, pts: seq<(real, real)>, pidx: nat, r0: real)
    returns (m: seq<nat>, r: real, ending: Ending, ghost n: nat)
    requires pidx < |pts|
    requires forall a, b :: g.norm(a, b) >= 0.0
    ensures ending == Found || ending == Returned || ending == Loops
    ensures ending == Found ==>
              RoundsFind(g, pts, pidx, r0, n) && r == Grow(r0, n) && m == Scan(g, pts, pts[pidx], r, pidx + 1)
    ensures ending == Returned ==> RoundsReturn(g, pts, pidx, r0, n)
    ensures ending == Loops ==> r0 <= 0.0 && NeverEnds(g, pts, pidx, r0)
  {
    ghost var bound: nat := 0;
    if r0 > 0.0 {
      bound := GrowUnbounded(r0, (g.furthest - pts[pidx].0) / 2.0);
    }
    n := 0;
    r := r0;
    m := [];
    while m == []
      invariant m == [] ==> r == Grow(r0, n)
      invariant m != [] ==> r == Grow(r0, n + 1) && m == Scan(g, pts, pts[pidx], Grow(r0, n), pidx + 1) &&
                            !Beyond(g, pts[pidx], Grow(r0, n + 1))
      invariant Fruitless(g, pts, pidx, r0, n)
      invariant r0 > 0.0 ==> n <= bound
      invariant r0 <= 0.0 ==> n == 0
      decreases bound - n + (if m == [] then 1 else 0)
    {
      m := ScanRound(g, pts, pidx, r);
      r := 1.5 * r;
      assert r == Grow(r0, n + 1);
      if pts[pidx].0 + 2.0 * r > g.furthest {
        ending := Returned;
        return;
      }
      if m == [] && r0 <= 0.0 {
        ending := Loops;
        forall k: nat
          ensures EmptyRound(g, pts, pidx, r0, k)
        {
          LoopsForever(g, pts, pidx, r0, k);
        }
        return;
      }
      if r0 > 0.0 && bound < n + 1 {
        GrowMonotone(r0, bound, n + 1);
        assert false;
      }
      if m == [] {
        assert EmptyRound(g, pts, pidx, r0, n);
        n := n + 1;
      }
    }
    r := r / 1.5;
    ending := Found;
  }

  // ---------------------------------------------------------------------
  // Choosing the next anchor
  // ---------------------------------------------------------------------

  /** Position of the first smallest value: what min(A, key=...) picks. */
  function FirstMin(a: seq<real>): (r: nat)
    requires |a| > 0
    ensures r < |a|
    ensures forall k :: 0 <= k < |a| ==> a[r] <= a[k]
    ensures forall k :: 0 <= k < r ==> a[r] < a[k]
  {
    if |a| == 1 then 0
    else
      var r' := FirstMin(a[..|a| - 1]);
      if a[|a| - 1] < a[r'] then |a| - 1 else r'
  }

  /** The angle of candidate q seen from pts[pidx] with radius r. */
  function Turn(g: Geometry, pts: seq<(real, real)>, pidx: nat, q: nat, r: real): real
    requires pidx < |pts| && q < |pts|
  {
    g.turn(pts[pidx].0, pts[pidx].1, pts[q].0, pts[q].1, r)
  }

  /** The angles of the candidates m seen from pts[pidx] with radius r. */
  function Angles(g: Geometry, pts: seq<(real, real)>, pidx: nat, m: seq<nat>, r: real): (a: seq<real>)
    requires pidx < |pts| && forall k :: 0 <= k < |m| ==> m[k] < |pts|
    ensures |a| == |m|
    ensures forall k :: 0 <= k < |m| ==> a[k] == Turn(g, pts, pidx, m[k], r)
  {
    seq(|m|, k requires 0 <= k < |m| => Turn(g, pts, pidx, m[k], r))
  }

  /** The next anchor: the collected candidate of smallest angle, the
      earliest among equal angles. */
  function Chosen(g: Geometry, pts: seq<(real, real)>, pidx: nat, r: real): nat
    requires pidx < |pts| && Scan(g, pts, pts[pidx], r, pidx + 1) != []
  {
    var m := Scan(g, pts, pts[pidx], r, pidx + 1);
    m[FirstMin(Angles(g, pts, pidx, m, r))]
  }

  /** The next anchor lies to the right of the current one among the
      collected candidates; no candidate has a smaller angle, and every
      earlier candidate has a larger one. */
  lemma ChosenFacts(g: Geometry, pts: seq<(real, real)>, pidx: nat, r: real)
    requires pidx < |pts| && Scan(g, pts, pts[pidx], r, pidx + 1) != []
    ensures var c := Chosen(g, pts, pidx, r);
            pidx < c < |pts| && c in Scan(g, pts, pts[pidx], r, pidx + 1) && Admitted(g, pts[pidx], pts[c], r)
    ensures var m := Scan(g, pts, pts[pidx], r, pidx + 1);
            forall i :: 0 <= i < |m| ==> Turn(g, pts, pidx, Chosen(g, pts, pidx, r), r) <= Turn(g, pts, pidx, m[i], r)
    ensures var m := Scan(g, pts, pts[pidx], r, pidx + 1);
            forall i :: 0 <= i < |m| && m[i] < Chosen(g, pts, pidx, r) ==>
              Turn(g, pts, pidx, Chosen(g, pts, pidx, r), r) < Turn(g, pts, pidx, m[i], r)
  {
    var m := Scan(g, pts, pts[pidx], r, pidx + 1);
    ScanIncreasing(g, pts, pts[pidx], r, pidx + 1);
    var c := Chosen(g, pts, pidx, r);
    ScanMembers(g, pts, pts[pidx], r, pidx + 1, c);
    var a := Angles(g, pts, pidx, m, r);
    var f := FirstMin(a);
    assert c == m[f];
  }

  /** The `while M` loop that pops the candidates m off the deque, records
      each with its angle, and then takes the first of minimum angle. */
  method ChooseNext(g: Geometry, pts: seq<(real, real)>, pidx: nat, m: seq<nat>, r: real) returns (next: nat)
    requires pidx < |pts| && m != [] && forall k :: 0 <= k < |m| ==> m[k] < |pts|
    ensures next in m
    ensures forall k :: 0 <= k < |m| ==> Turn(g, pts, pidx, next, r) <= Turn(g, pts, pidx, m[k], r)
    ensures next == m[FirstMin(Angles(g, pts, pidx, m, r))]
  {
    ghost var angles := Angles(g, pts, pidx, m, r);
    var queue := m;
    var a: seq<(nat, real)> := [];
    while queue != []
      invariant |a| + |queue| == |m| && queue == m[|a|..]
      invariant forall k :: 0 <= k < |a| ==> a[k] == (m[k], angles[k])
      decreases |queue|
    {
      var nidx := queue[0];
      queue := queue[1..];
      a := a + [(nidx, Turn(g, pts, pidx, nidx, r))];
    }
    var keys := seq(|a|, k requires 0 <= k < |a| => a[k].1);
    assert keys == angles;
    next := a[FirstMin(keys)].0;
  }

  /** One anchor step: search for candidates from pts[pidx] with start
      radius r0, then choose among them. */
  method NextAnchor(g: Geometry, pts: seq<(real, real)>, pidx: nat, r0: real)
    returns (next: nat, ending: Ending, ghost n: nat)
    requires pidx < |pts|
    requires forall a, b :: g.norm(a, b) >= 0.0
    ensures ending == Found || ending == Returned || ending == Loops
    ensures ending == Found ==>
              RoundsFind(g, pts, pidx, r0, n) && next == Chosen(g, pts, pidx, Grow(r0, n)) && pidx < next < |pts|
    ensures ending == Returned ==> RoundsReturn(g, pts, pidx, r0, n)
    ensures ending == Loops ==> r0 <= 0.0 && NeverEnds(g, pts, pidx, r0)
  {
    var m, r;
    m, r, ending, n := ScanUntilFound(g, pts, pidx, r0);
    next := 0;
    if ending == Found {
      next := ChooseNext(g, pts, pidx, m, r);
      ChosenFacts(g, pts, pidx, r);
    }
  }

  // ---------------------------------------------------------------------
  // The walk
  // ---------------------------------------------------------------------

  /** Step k of the walk: from anchor picks[k] with start radius starts[k],
      round rounds[k] found candidates and the next anchor is the chosen
      one. */
  predicate StepTaken(g: Geometry, pts: seq<(real, real)>, picks: seq<nat>, starts: seq<real>,
                      rounds: seq<nat>, k: nat)
    requires k + 1 < |picks| && k < |starts| && k < |rounds|
    requires forall l :: 0 <= l < |picks| ==> picks[l] < |pts|
  {
    RoundsFind(g, pts, picks[k], starts[k], rounds[k]) &&
    picks[k + 1] == Chosen(g, pts, picks[k], Grow(starts[k], rounds[k]))
  }

  /** The anchor lists hold, in step, the wavelength, raw flux and sample
      index of the candidates at the increasing positions picks. */
  predicate Anchored(xs: seq<real>, ys: seq<real>, maxIndex: seq<nat>,
                     ax: seq<real>, ay: seq<real>, aidx: seq<nat>, picks: seq<nat>)
    requires |ys| == |xs| && forall k :: 0 <= k < |maxIndex| ==> maxIndex[k] < |xs|
  {
    |ax| == |picks| && |ay| == |picks| && |aidx| == |picks| &&
    IncreasingIndices(picks, |maxIndex|) && aidx == Select(maxIndex, picks) &&
    forall k :: 0 <= k < |picks| ==> ax[k] == xs[aidx[k]] && ay[k] == ys[aidx[k]]
  }

  /** Each anchor started from the reset radius at its wavelength, and each
      step to the next anchor is the walk's step. */
  predicate Stepped(g: Geometry, pts: seq<(real, real)>, usePmap: bool, pm: PenaltyMap,
                    ax: seq<real>, picks: seq<nat>, starts: seq<real>, rounds: seq<nat>)
    requires |ax| == |picks| && forall l :: 0 <= l < |picks| ==> picks[l] < |pts|
    requires usePmap ==> pm.lambdaMin != 0.0
  {
    |starts| == |picks| && |rounds| + 1 == |picks| &&
    (forall k :: 0 <= k < |picks| ==> ResetRadius(usePmap, ax[k], pm) == Success(starts[k])) &&
    (forall k :: 0 <= k < |rounds| ==> StepTaken(g, pts, picks, starts, rounds, k))
  }

  /** The walk reached the anchors picks, then found candidates in round
      lastRound from the last of them and chose failAt, a later position. */
  predicate FailedAfterStep(g: Geometry, pts: seq<(real, real)>, usePmap: bool, pm: PenaltyMap,
                            ax: seq<real>, picks: seq<nat>, starts: seq<real>, rounds: seq<nat>,
                            lastRound: nat, failAt: nat)
    requires |ax| == |picks| && forall l :: 0 <= l < |picks| ==> picks[l] < |pts|
    requires usePmap ==> pm.lambdaMin != 0.0
  {
    |picks| > 0 && Stepped(g, pts, usePmap, pm, ax, picks, starts, rounds) &&
    RoundsFind(g, pts, picks[|picks| - 1], starts[|picks| - 1], lastRound) &&
    failAt == Chosen(g, pts, picks[|picks| - 1], Grow(starts[|picks| - 1], lastRound)) &&
    picks[|picks| - 1] < failAt
  }

  lemma AnchoredExtend(xs: seq<real>, ys: seq<real>, maxIndex: seq<nat>,
                       ax: seq<real>, ay: seq<real>, aidx: seq<nat>, picks: seq<nat>, next: nat)
    requires |ys| == |xs| && forall k :: 0 <= k < |maxIndex| ==> maxIndex[k] < |xs|
    requires Anchored(xs, ys, maxIndex, ax, ay, aidx, picks) && |picks| > 0
    requires picks[|picks| - 1] < next < |maxIndex|
    ensures Anchored(xs, ys, maxIndex, ax + [xs[maxIndex[next]]], ay + [ys[maxIndex[next]]],
                     aidx + [maxIndex[next]], picks + [next])
  {
    var picks' := picks + [next];
    forall k, l | 0 <= k < l < |picks'|
      ensures picks'[k] < picks'[l]
    {
      if l < |picks| - 1 {
      } else if k < |picks| - 1 {
        assert picks[k] < picks[|picks| - 1];
      }
    }
  }

  lemma SteppedExtend(g: Geometry, pts: seq<(real, real)>, usePmap: bool, pm: PenaltyMap,
                      ax: seq<real>, picks: seq<nat>, starts: seq<real>, rounds: seq<nat>,
                      x: real, next: nat, n: nat, r: real)
    requires |ax| == |picks| > 0 && forall l :: 0 <= l < |picks| ==> picks[l] < |pts|
    requires usePmap ==> pm.lambdaMin != 0.0
    requires Stepped(g, pts, usePmap, pm, ax, picks, starts, rounds)
    requires RoundsFind(g, pts, picks[|picks| - 1], starts[|picks| - 1], n)
    requires next < |pts| && next == Chosen(g, pts, picks[|picks| - 1], Grow(starts[|picks| - 1], n))
    requires ResetRadius(usePmap, x, pm) == Success(r)
    ensures Stepped(g, pts, usePmap, pm, ax + [x], picks + [next], starts + [r], rounds + [n])
  {
    var k := |rounds|;
    var picks', starts', rounds' := picks + [next], starts + [r], rounds + [n];
    assert StepTaken(g, pts, picks', starts', rounds', k);
    forall l | 0 <= l < k
      ensures StepTaken(g, pts, picks', starts', rounds', l)
    {
      assert StepTaken(g, pts, picks, starts, rounds, l);
    }
  }

  /** anchors(max_index, ys, xs, ...): the anchors' wavelengths, raw fluxes
      and sample indices, with the candidate positions picks, the radius
      each anchor started from and the round in which each step found its
      candidates. When r_map fails, failAt is the position whose lookup
      failed: the first maximum, or the candidate just chosen from the last
      anchor, which is then not appended. */
  method Anchors(maxIndex: seq<nat>, ys: seq<real>, xs: seq<real>, g: Geometry, usePmap: bool, pm: PenaltyMap)
    returns (ax: seq<real>, ay: seq<real>, aidx: seq<nat>, ending: Ending,
             ghost picks: seq<nat>, ghost starts: seq<real>, ghost rounds: seq<nat>, ghost lastRound: nat,
             ghost failAt: nat)
    requires |ys| == |xs| && forall k :: 0 <= k < |maxIndex| ==> maxIndex[k] < |xs|
    requires usePmap ==> pm.lambdaMin != 0.0
    requires forall a, b :: g.norm(a, b) >= 0.0
    ensures ending != Found
    ensures |xs| == 0 ==> ending == Raised(ValueError)
    ensures |xs| > 0 && maxIndex == [] ==> ending == Raised(IndexError)
    ensures ending.Raised? && |xs| > 0 && maxIndex != [] ==>
              usePmap && ending == Raised(IndexError) && failAt < |maxIndex| &&
              ResetRadius(usePmap, xs[maxIndex[failAt]], pm) == Failure(IndexError)
    ensures Anchored(xs, ys, maxIndex, ax, ay, aidx, picks)
    ensures maxIndex != [] ==> |picks| > 0 && picks[0] == 0
    ensures ending.Raised? && |xs| > 0 && maxIndex != [] ==>
              (failAt == 0 && picks == [0] && starts == []) ||
              FailedAfterStep(g, Points(g, xs, ys, maxIndex), usePmap, pm, ax, picks, starts, rounds, lastRound, failAt)
    ensures !ending.Raised? ==>
              |picks| > 0 && Stepped(g, Points(g, xs, ys, maxIndex), usePmap, pm, ax, picks, starts, rounds)
    ensures ending == Returned ==>
              RoundsReturn(g, Points(g, xs, ys, maxIndex), picks[|picks| - 1], starts[|picks| - 1], lastRound)
    ensures ending == Loops ==>
              starts[|picks| - 1] <= 0.0 &&
              NeverEnds(g, Points(g, xs, ys, maxIndex), picks[|picks| - 1], starts[|picks| - 1])
  {
    ax, ay, aidx, picks, starts, rounds, lastRound, failAt := [], [], [], [], [], [], 0, 0;
    if |xs| == 0 {
      ending := Raised(ValueError);
      return;
    }
    if maxIndex == [] {
      ending := Raised(IndexError);
      return;
    }
    var pts := Points(g, xs, ys, maxIndex);
    var pidx: nat := 0;
    ax, ay, aidx, picks := [xs[maxIndex[0]]], [ys[maxIndex[0]]], [maxIndex[0]], [0];
    var reset := ResetRadius(usePmap, xs[maxIndex[0]], pm);
    if reset.Failure? {
      ending := Raised(reset.error);
      return;
    }
    var r := reset.value;
    starts := [r];
    while true
      invariant |picks| > 0 && pidx == picks[|picks| - 1] && picks[0] == 0
      invariant Anchored(xs, ys, maxIndex, ax, ay, aidx, picks)
      invariant Stepped(g, pts, usePmap, pm, ax, picks, starts, rounds)
      invariant r == starts[|picks| - 1]
      decreases |pts| - pidx
    {
      var next, e, n := NextAnchor(g, pts, pidx, r);
      if e != Found {
        ending, lastRound := e, n;
        return;
      }
      var x := xs[maxIndex[next]];
      reset := ResetRadius(usePmap, x, pm);
      if reset.Failure? {
        ending, lastRound, failAt := Raised(reset.error), n, next;
        return;
      }
      r := reset.value;
      AnchoredExtend(xs, ys, maxIndex, ax, ay, aidx, picks, next);
      SteppedExtend(g, pts, usePmap, pm, ax, picks, starts, rounds, x, next, n, r);
      ax, ay, aidx, picks := ax + [x], ay + [ys[maxIndex[next]]], aidx + [maxIndex[next]], picks + [next];
      starts, rounds := starts + [r], rounds + [n];
      pidx := next;
    }
  }
}
