/** The global relaxation of `lum6DEuler::doGraphSlam6D`
    (src/lum6Deuler.cc): each iteration searches point pairs for every
    link at the current poses, turns them into link statistics, assembles
    and solves `G X = B`, and corrects every non-reference scan by the
    inverse pose Jacobian applied to its block of `X`. The loop stops after
    `nrIt` iterations or once the mean position correction `ret` is no
    longer above `epsilon`.

    The pure functions `Relaxation` and `GraphSlam` specify one iteration
    and the whole loop on pose snapshots; the methods `RelaxOnce` and
    `DoGraphSlam6D` perform them on the scan objects and are proved to
    agree with them. */
module LumEuler {
  import opened LinAlg
  import opened Scans
  import opened LumLinks
  import opened LumSystem
  import opened PoseUpdate

  /** `DBL_MAX`, the largest finite double, `(2^53 - 1) * 2^971`: the
      initial value of `ret`, so that the first iteration always runs when
      `epsilon` is a finite double. */
  const DblMax: real := 179769313486231570814527423731704356798070567525844996598917476803157260780028538760589558632766878171540458953514382464234321326889464182768467546703537516986049910576551282076245490090389328944075868508455133942304583236903222948165808559332123348274797826204144723168738177180919299881250404026184124858368.0

  /** What the relaxation calls but this model does not define: the point
      pair search of a link at the given poses (`Scan::getPtPairs`, with
      or without the search cache), the numerics of the link statistics
      and of the Jacobian inversion, the sparse Cholesky solver, `cos`,
      `sin` and the Euclidean length `Len`. */
  datatype LumHooks = LumHooks(
    pairs: (seq<Pose>, Link) -> seq<PtPair>,
    num: LinkNumerics,
    solve: (seq<seq<real>>, seq<real>) -> seq<real>,
    cos: real -> real,
    sin: real -> real,
    len: Vec3 -> real)

  /** The solver returns a vector as long as the right-hand side. */
  ghost predicate SolverKeepsShape(h: LumHooks)
  {
    forall g, b {:trigger h.solve(g, b)} :: |h.solve(g, b)| == |b|
  }

  /** What the relaxation demands of its inputs: a well-formed graph all
      of whose scans are present. */
  ghost predicate RelaxInputs(gr: Graph, ps: seq<Pose>, h: LumHooks)
  {
    ValidGraph(gr) && gr.nrScans <= |ps| && SolverKeepsShape(h)
  }

  // ---------------------------------------------------------------------
  // One pose correction

  /** The Jacobian `Ha` of the pose parameterisation at pose `p`
      (0-based entries; `tx`, `ty` are the first two Euler angles). */
  function Jacobian(p: Pose, h: LumHooks): (ha: Mat6)
    ensures forall i, j :: 0 <= i < 6 && 0 <= j < 3 ==> ha[i][j] == if i == j then 1.0 else 0.0
    ensures ha[3][3] == 1.0 && ha[3][4] == 0.0
    ensures p.pos == [0.0, 0.0, 0.0] ==> forall i, j :: 0 <= i < 3 && 3 <= j < 6 ==> ha[i][j] == 0.0
  {
    var xa, ya, za := p.pos[0], p.pos[1], p.pos[2];
    var ctx, stx := h.cos(p.theta[0]), h.sin(p.theta[0]);
    var cty, sty := h.cos(p.theta[1]), h.sin(p.theta[1]);
    [[1.0, 0.0, 0.0, 0.0, -za * ctx + ya * stx, ya * cty * ctx + za * stx * cty],
     [0.0, 1.0, 0.0, za, -xa * stx, -xa * ctx * cty + za * sty],
     [0.0, 0.0, 1.0, -ya, xa * ctx, -xa * cty * stx - ya * sty],
     [0.0, 0.0, 0.0, 1.0, 0.0, sty],
     [0.0, 0.0, 0.0, 0.0, stx, ctx * cty],
     [0.0, 0.0, 0.0, 0.0, ctx, -stx * cty]]
  }

  /** `result = Ha.i() * Xtmp`: the correction of a scan at pose `p` whose
      block of the solution is `x`. */
  function Correction(p: Pose, x: Vec6, h: LumHooks): (result: Vec6)
    ensures IsZeroVec6(x) ==> IsZeroVec6(result)
  {
    MatVec6(h.num.inverse(Jacobian(p, h)), x)
  }

  // ---------------------------------------------------------------------
  // One iteration, on pose snapshots

  /** The result of one iteration: the new poses and the new `ret`. */
  datatype Step<S> = Step(state: S, ret: real)

  /** The outcome of the loop: final poses, final `ret`, and the number of
      iterations performed. */
  datatype Outcome<S> = Outcome(state: S, ret: real, iterations: nat)

  /** The `CD` list `CalculateLinks3D` builds at poses `ps`. */
  function LinkCDs(gr: Graph, ps: seq<Pose>, h: LumHooks): (cds: seq<Vec6>)
    ensures |cds| == |gr.links|
    ensures forall i :: 0 <= i < |gr.links| ==> cds[i] == LinkCD(h.pairs(ps, gr.links[i]), h.num)
  {
    seq<Vec6>(|gr.links|, i requires 0 <= i < |gr.links| => LinkCD(h.pairs(ps, gr.links[i]), h.num))
  }

  /** The `C` list `CalculateLinks3D` builds at poses `ps`. */
  function LinkCs(gr: Graph, ps: seq<Pose>, h: LumHooks): (cs: seq<Mat6>)
    ensures |cs| == |gr.links|
    ensures forall i :: 0 <= i < |gr.links| ==> cs[i] == LinkC(h.pairs(ps, gr.links[i]), h.num)
  {
    seq<Mat6>(|gr.links|, i requires 0 <= i < |gr.links| => LinkC(h.pairs(ps, gr.links[i]), h.num))
  }

  /** The solution `X` of the system assembled at poses `ps`. */
  function Solution(gr: Graph, ps: seq<Pose>, h: LumHooks): (x: seq<real>)
    requires RelaxInputs(gr, ps, h)
    ensures |x| == 6 * (gr.nrScans - 1)
  {
    h.solve(AssembledG(gr, LinkCs(gr, ps, h)), AssembledB(gr, LinkCDs(gr, ps, h)))
  }

  /** `X.Rows((i-1)*6+1, (i-1)*6+6)`: the block of `x` that belongs to scan `i`. */
  function ScanBlock(x: seq<real>, i: int): (xi: Vec6)
    requires 1 <= i && 6 * i <= |x|
    ensures forall k :: 0 <= k < 6 ==> xi[k] == x[6 * (i - 1) + k]
  {
    x[6 * (i - 1) .. 6 * i]
  }

  /** The correction the solution `x` gives scan `i` at pose `p`:
      `Ha.i()` times scan `i`'s block of `x` (all zeros for an index
      without a block, which the relaxation never asks for). */
  function Corrector(x: seq<real>, h: LumHooks): (Pose, int) -> Vec6
  {
    (p: Pose, i: int) => if 1 <= i && 6 * i <= |x| then Correction(p, ScanBlock(x, i), h) else Zero6
  }

  /** `ret` after correcting by `x`: the mean length of the position
      corrections over all scans of the graph (the reference scan included
      in the count). */
  function MeanShift(gr: Graph, ps: seq<Pose>, x: seq<real>, h: LumHooks): real
    requires 1 <= gr.nrScans <= |ps|
  {
    SumShifts(ps, Corrector(x, h), h.len, gr.nrScans) / gr.nrScans as real
  }

  /** One iteration of `doGraphSlam6D` from poses `ps`. A pose list
      shorter than the graph is outside the source's domain (every scan of
      the graph is in `allScans`); it is left alone. */
  function Relaxation(gr: Graph, h: LumHooks, rot: Rotations, ps: seq<Pose>): Step<seq<Pose>>
    requires ValidGraph(gr) && SolverKeepsShape(h)
  {
    if gr.nrScans <= |ps| then
      var x := Solution(gr, ps, h);
      Step(CorrectedPoses(ps, gr.nrScans, Corrector(x, h), rot), MeanShift(gr, ps, x, h))
    else Step(ps, 0.0)
  }

  /** The loop of `doGraphSlam6D` from poses `ps` and the current `ret`,
      with `budget` iterations left: it runs while iterations are left and
      `ret` is above `epsilon`. */
  function Relax(gr: Graph, h: LumHooks, rot: Rotations, ps: seq<Pose>, budget: nat, epsilon: real, ret: real)
    : (o: Outcome<seq<Pose>>)
    requires ValidGraph(gr) && SolverKeepsShape(h)
    ensures o.iterations <= budget
    ensures o.iterations == 0 <==> budget == 0 || ret <= epsilon
    ensures o.iterations == 0 ==> o.state == ps && o.ret == ret
    ensures o.iterations < budget ==> o.ret <= epsilon
    decreases budget
  {
    if budget == 0 || ret <= epsilon then Outcome(ps, ret, 0)
    else
      var t := Relaxation(gr, h, rot, ps);
      var o := Relax(gr, h, rot, t.state, budget - 1, epsilon, t.ret);
      Outcome(o.state, o.ret, o.iterations + 1)
  }

  /** The whole of `doGraphSlam6D` from poses `ps`: at most `nrIt`
      iterations, starting with `ret = DBL_MAX`. */
  function GraphSlam(gr: Graph, ps: seq<Pose>, h: LumHooks, rot: Rotations, nrIt: int, epsilon: real): Outcome<seq<Pose>>
    requires RelaxInputs(gr, ps, h)
  {
    Relax(gr, h, rot, ps, if nrIt > 0 then nrIt else 0, epsilon, DblMax)
  }

  // ---------------------------------------------------------------------
  // Properties of the relaxation

  /** Every information matrix entering `G` is symmetric, so the assembled
      system matrix is symmetric, as the Cholesky solver requires. */
  lemma AssembledSystemSymmetric(gr: Graph, ps: seq<Pose>, h: LumHooks, r: int, c: int)
    ensures GFill(gr.links, LinkCs(gr, ps, h), |gr.links|, 0.0, r, c)
         == GFill(gr.links, LinkCs(gr, ps, h), |gr.links|, 0.0, c, r)
  {
    var cs := LinkCs(gr, ps, h);
    forall i | 0 <= i < |gr.links|
      ensures Symmetric6(cs[i])
    {
      var uk := h.pairs(ps, gr.links[i]);
      if |uk| > 0 {
        InformationMatrixShape(uk, InfoScale(uk, h.num));
      }
    }
    AssembledGSymmetric(gr.links, cs, |gr.links|, 0.0, r, c);
  }

  /** So `ret` is never negative, and it is zero exactly when the
      iteration moved no scan's position. */
  lemma MeanShiftMeaning(gr: Graph, ps: seq<Pose>, x: seq<real>, h: LumHooks)
    requires IsNorm(h.len) && 1 <= gr.nrScans <= |ps|
    ensures MeanShift(gr, ps, x, h) >= 0.0
    ensures MeanShift(gr, ps, x, h) == 0.0 <==>
      forall i :: 1 <= i < gr.nrScans ==> PositionShift(Corrector(x, h)(ps[i], i)) == [0.0, 0.0, 0.0]
  {
    var sum := SumShifts(ps, Corrector(x, h), h.len, gr.nrScans);
    SumShiftsNonNegative(ps, Corrector(x, h), h.len, gr.nrScans);
    SumShiftsZero(ps, Corrector(x, h), h.len, gr.nrScans);
    var n := gr.nrScans as real;
    assert MeanShift(gr, ps, x, h) == sum / n;
    assert sum / n * n == sum;
    if sum > 0.0 {
      assert sum / n > 0.0;
    }
  }

  /** A zero solution is a fixed point: every position and angle stays as
      it was, and `ret` is zero. */
  lemma ZeroSolutionIsFixedPoint(gr: Graph, ps: seq<Pose>, x: seq<real>, h: LumHooks, rot: Rotations)
    requires IsNorm(h.len) && 1 <= gr.nrScans <= |ps|
    requires forall k :: 0 <= k < |x| ==> x[k] == 0.0
    ensures forall i :: 0 <= i < |ps| ==>
      CorrectedPoses(ps, gr.nrScans, Corrector(x, h), rot)[i].pos == ps[i].pos &&
      CorrectedPoses(ps, gr.nrScans, Corrector(x, h), rot)[i].theta == ps[i].theta
    ensures MeanShift(gr, ps, x, h) == 0.0
  {
    var corr := Corrector(x, h);
    forall i | 1 <= i < gr.nrScans
      ensures PositionShift(corr(ps[i], i)) == [0.0, 0.0, 0.0]
      ensures CorrectedPose(ps[i], corr(ps[i], i), rot).pos == ps[i].pos
      ensures CorrectedPose(ps[i], corr(ps[i], i), rot).theta == ps[i].theta
    {
      if 6 * i <= |x| {
        assert IsZeroVec6(ScanBlock(x, i));
      }
      ZeroCorrectionKeepsPose(ps[i], corr(ps[i], i), rot);
    }
    MeanShiftMeaning(gr, ps, x, h);
  }

  /** The states the loop passes through from `s` with `budget`
      iterations left: `s` itself, then one more entry per iteration run. */
  function Trace(gr: Graph, h: LumHooks, rot: Rotations, s: Step<seq<Pose>>, budget: nat, epsilon: real)
    : (tr: seq<Step<seq<Pose>>>)
    requires ValidGraph(gr) && SolverKeepsShape(h)
    ensures 1 <= |tr| <= budget + 1 && tr[0] == s
    decreases budget
  {
    if budget == 0 || s.ret <= epsilon then [s]
    else [s] + Trace(gr, h, rot, Relaxation(gr, h, rot, s.state), budget - 1, epsilon)
  }

  /** An entry of the trace with `ret` above `epsilon` and iterations
      left is not the last, and the next entry is one iteration from it. */
  lemma {:induction false} TraceStep(gr: Graph, h: LumHooks, rot: Rotations, s: Step<seq<Pose>>, budget: nat, epsilon: real, k: nat)
    requires ValidGraph(gr) && SolverKeepsShape(h)
    requires var tr := Trace(gr, h, rot, s, budget, epsilon);
      k < |tr| && k < budget && tr[k].ret > epsilon
    ensures var tr := Trace(gr, h, rot, s, budget, epsilon);
      k < |tr| - 1 && tr[k + 1] == Relaxation(gr, h, rot, tr[k].state)
    decreases k
  {
    var t := Relaxation(gr, h, rot, s.state);
    var tail := Trace(gr, h, rot, t, budget - 1, epsilon);
    assert Trace(gr, h, rot, s, budget, epsilon) == [s] + tail;
    if k > 0 {
      TraceStep(gr, h, rot, t, budget - 1, epsilon, k - 1);
    }
  }

  /** An entry of the trace where the budget or `ret` has run out is the
      last. */
  lemma {:induction false} TraceStops(gr: Graph, h: LumHooks, rot: Rotations, s: Step<seq<Pose>>, budget: nat, epsilon: real, k: nat)
    requires ValidGraph(gr) && SolverKeepsShape(h)
    requires var tr := Trace(gr, h, rot, s, budget, epsilon);
      k < |tr| && (k >= budget || tr[k].ret <= epsilon)
    ensures k == |Trace(gr, h, rot, s, budget, epsilon)| - 1
    decreases k
  {
    if k > 0 {
      var t := Relaxation(gr, h, rot, s.state);
      var tail := Trace(gr, h, rot, t, budget - 1, epsilon);
      assert Trace(gr, h, rot, s, budget, epsilon) == [s] + tail;
      TraceStops(gr, h, rot, t, budget - 1, epsilon, k - 1);
    }
  }

  /** The trace stops when the budget or `ret` runs out, and its last
      entry is the outcome of the loop. */
  lemma {:induction false} TraceEnd(gr: Graph, h: LumHooks, rot: Rotations, s: Step<seq<Pose>>, budget: nat, epsilon: real)
    requires ValidGraph(gr) && SolverKeepsShape(h)
    ensures var tr := Trace(gr, h, rot, s, budget, epsilon);
      var last := tr[|tr| - 1];
      Relax(gr, h, rot, s.state, budget, epsilon, s.ret) == Outcome(last.state, last.ret, |tr| - 1)
    decreases budget
  {
    if budget > 0 && s.ret > epsilon {
      var t := Relaxation(gr, h, rot, s.state);
      var tail := Trace(gr, h, rot, t, budget - 1, epsilon);
      TraceEnd(gr, h, rot, t, budget - 1, epsilon);
      assert Trace(gr, h, rot, s, budget, epsilon) == [s] + tail;
    }
  }

  /** One iteration keeps the length of the pose list and the pose of
      the reference scan and of every scan outside the graph. */
  lemma RelaxationKeeps(gr: Graph, h: LumHooks, rot: Rotations, ps: seq<Pose>)
    requires ValidGraph(gr) && SolverKeepsShape(h)
    ensures |Relaxation(gr, h, rot, ps).state| == |ps|
    ensures forall i :: 0 <= i < |ps| && !(1 <= i < gr.nrScans) ==> Relaxation(gr, h, rot, ps).state[i] == ps[i]
  {
  }

  /** So the loop keeps them, however many iterations run. */
  lemma {:induction false} RelaxKeeps(gr: Graph, h: LumHooks, rot: Rotations, ps: seq<Pose>, budget: nat, epsilon: real, ret: real, i: int)
    requires ValidGraph(gr) && SolverKeepsShape(h)
    requires 0 <= i < |ps| && !(1 <= i < gr.nrScans)
    ensures |Relax(gr, h, rot, ps, budget, epsilon, ret).state| == |ps|
    ensures Relax(gr, h, rot, ps, budget, epsilon, ret).state[i] == ps[i]
    decreases budget
  {
    if budget > 0 && ret > epsilon {
      var t := Relaxation(gr, h, rot, ps);
      RelaxationKeeps(gr, h, rot, ps);
      RelaxKeeps(gr, h, rot, t.state, budget - 1, epsilon, t.ret, i);
      assert Relax(gr, h, rot, ps, budget, epsilon, ret).state == Relax(gr, h, rot, t.state, budget - 1, epsilon, t.ret).state;
    }
  }

  /** Scan 0 is the reference frame: `doGraphSlam6D` never moves it, nor
      any scan outside the graph, and it keeps every scan in the list. */
  lemma ReferenceNeverMoves(gr: Graph, ps: seq<Pose>, h: LumHooks, rot: Rotations, nrIt: int, epsilon: real, i: int)
    requires RelaxInputs(gr, ps, h)
    requires 0 <= i < |ps| && !(1 <= i < gr.nrScans)
    ensures |GraphSlam(gr, ps, h, rot, nrIt, epsilon).state| == |ps|
    ensures GraphSlam(gr, ps, h, rot, nrIt, epsilon).state[i] == ps[i]
  {
    RelaxKeeps(gr, h, rot, ps, if nrIt > 0 then nrIt else 0, epsilon, DblMax, i);
  }

  /** The first iteration always runs when `nrIt` is positive and
      `epsilon` is below `DBL_MAX`; with `nrIt <= 0` nothing runs and
      `DBL_MAX` is returned; the loop stops before `nrIt` iterations only
      once `ret <= epsilon`. */
  lemma GraphSlamIterations(gr: Graph, ps: seq<Pose>, h: LumHooks, rot: Rotations, nrIt: int, epsilon: real)
    requires RelaxInputs(gr, ps, h)
    ensures var o := GraphSlam(gr, ps, h, rot, nrIt, epsilon);
      && (nrIt >= 1 && epsilon < DblMax ==> o.iterations >= 1)
      && (nrIt <= 0 ==> o.iterations == 0 && o.ret == DblMax && o.state == ps)
      && (o.iterations < nrIt ==> o.ret <= epsilon)
  {
  }

  /** A graph with only the reference scan is relaxed in one iteration:
      nothing moves and `ret` is 0. */
  lemma SingleScanGraph(gr: Graph, ps: seq<Pose>, h: LumHooks, rot: Rotations, nrIt: int, epsilon: real)
    requires RelaxInputs(gr, ps, h) && gr.nrScans == 1
    requires nrIt >= 1 && 0.0 <= epsilon < DblMax
    ensures GraphSlam(gr, ps, h, rot, nrIt, epsilon) == Outcome(ps, 0.0, 1)
  {
    var x := Solution(gr, ps, h);
    var qs := CorrectedPoses(ps, 1, Corrector(x, h), rot);
    assert qs == ps;
    assert MeanShift(gr, ps, x, h) == 0.0;
    assert Relaxation(gr, h, rot, ps) == Step(ps, 0.0);
  }

  // ---------------------------------------------------------------------
  // The relaxation on the scan objects

  /** The entries of `G` as rows. */
  function Entries(G: array2<real>): (g: seq<seq<real>>)
    reads G
    ensures |g| == G.Length0
    ensures forall r :: 0 <= r < G.Length0 ==> |g[r]| == G.Length1
    ensures forall r, c :: 0 <= r < G.Length0 && 0 <= c < G.Length1 ==> g[r][c] == G[r, c]
  {
    seq(G.Length0, r reads G requires 0 <= r < G.Length0 =>
      seq(G.Length1, c reads G requires 0 <= c < G.Length1 => G[r, c]))
  }

  /** The transform-mode log one scan of the graph gains over `k` iterations. */
  function ModeLog(i: int, nrScans: int, k: nat): (log: seq<int>)
    ensures |log| == k
    ensures forall j :: 0 <= j < k ==> log[j] == ModeFor(i, nrScans)
  {
    seq(k, _ => ModeFor(i, nrScans))
  }

  /** Search the point pairs of every link at the current poses. */
  method SearchPairs(gr: Graph, ps: seq<Pose>, h: LumHooks) returns (ptpairs: seq<seq<PtPair>>)
    ensures |ptpairs| == |gr.links|
    ensures forall i :: 0 <= i < |gr.links| ==> ptpairs[i] == h.pairs(ps, gr.links[i])
  {
    ptpairs := [];
    var i := 0;
    while i < |gr.links|
      invariant 0 <= i <= |gr.links| && |ptpairs| == i
      invariant forall k :: 0 <= k < i ==> ptpairs[k] == h.pairs(ps, gr.links[k])
    {
      ptpairs := ptpairs + [h.pairs(ps, gr.links[i])];
      i := i + 1;
    }
  }

  /** Build `G` and `B` from zero with `FillGB3D`. */
  method BuildSystem(gr: Graph, cd: seq<Vec6>, c: seq<Mat6>) returns (g: seq<seq<real>>, b: seq<real>)
    requires ValidGraph(gr) && |gr.links| <= |cd| && |gr.links| <= |c|
    ensures g == AssembledG(gr, c) && b == AssembledB(gr, cd)
  {
    var n := gr.nrScans - 1;
    var G := new real[6 * n, 6 * n]((_, _) => 0.0);
    var B := new real[6 * n](_ => 0.0);
    FillGB3D(gr, cd, c, G, B);
    g, b := Entries(G), B[..];
    ghost var want := AssembledG(gr, c);
    forall r | 0 <= r < 6 * n
      ensures g[r] == want[r]
    {
      assert forall k :: 0 <= k < 6 * n ==> g[r][k] == want[r][k];
    }
  }

  /** The statistics computed from the pairs searched at `ps` are the
      lists the specification assembles. */
  lemma StatisticsAgree(gr: Graph, ps: seq<Pose>, h: LumHooks, ptpairs: seq<seq<PtPair>>, cd: seq<Vec6>, c: seq<Mat6>)
    requires |ptpairs| == |gr.links| && |cd| == |ptpairs| && |c| == |ptpairs|
    requires forall i :: 0 <= i < |gr.links| ==> ptpairs[i] == h.pairs(ps, gr.links[i])
    requires forall i :: 0 <= i < |ptpairs| ==> cd[i] == LinkCD(ptpairs[i], h.num) && c[i] == LinkC(ptpairs[i], h.num)
    ensures cd == LinkCDs(gr, ps, h) && c == LinkCs(gr, ps, h)
  {
  }

  /** Assemble and solve the linear system at poses `ps`. */
  method SolveSystem(gr: Graph, ps: seq<Pose>, h: LumHooks) returns (x: seq<real>)
    requires RelaxInputs(gr, ps, h)
    ensures x == Solution(gr, ps, h)
  {
    var ptpairs := SearchPairs(gr, ps, h);
    var cd, c := CalculateLinks3D(ptpairs, [], [], h.num);
    StatisticsAgree(gr, ps, h, ptpairs, cd, c);
    var g, b := BuildSystem(gr, cd, c);
    x := h.solve(g, b);
  }

  /** One iteration of the loop on the scan objects: solve at the current
      poses, correct scans `1 .. nrScans-1` (the last with the terminal
      transform mode) and return the mean position correction. */
  method RelaxOnce(gr: Graph, scans: seq<Scan>, h: LumHooks, rot: Rotations) returns (ret: real)
    requires RelaxInputs(gr, PosesOf(States(scans)), h) && Distinct(scans)
    modifies scans
    ensures var st := Relaxation(gr, h, rot, PosesOf(old(States(scans))));
      && States(scans) == UpdatedUpTo(old(States(scans)), st.state, gr.nrScans, gr.nrScans)
      && ret == st.ret
  {
    var ps := PosesOf(States(scans));
    var x := SolveSystem(gr, ps, h);
    var sum := UpdatePoses(scans, gr.nrScans, Corrector(x, h), h.len, rot);
    ret := sum / gr.nrScans as real;
  }

  /** The scan states after `k` iterations that left the poses `ps`: every
      scan of the graph but the reference has gained `k` transform modes. */
  function Relaxed(ps: seq<Pose>, ss: seq<ScanState>, nrScans: int, k: nat): (rs: seq<ScanState>)
    requires |ps| == |ss|
    ensures |rs| == |ss|
    ensures forall j :: 0 <= j < |ss| ==> rs[j].pose == ps[j]
    ensures forall j :: 0 <= j < |ss| ==>
      rs[j].frames == ss[j].frames + (if 1 <= j < nrScans then ModeLog(j, nrScans, k) else [])
  {
    seq(|ss|, j requires 0 <= j < |ss| =>
      ScanState(ps[j], ss[j].frames + (if 1 <= j < nrScans then ModeLog(j, nrScans, k) else [])))
  }

  /** No iteration yet: the states are as they were. */
  lemma RelaxedStart(ss: seq<ScanState>, nrScans: int)
    ensures Relaxed(PosesOf(ss), ss, nrScans, 0) == ss
  {
    var rs := Relaxed(PosesOf(ss), ss, nrScans, 0);
    forall j | 0 <= j < |ss|
      ensures rs[j] == ss[j]
    {
      assert ss[j].frames + [] == ss[j].frames;
    }
  }

  /** One more pass over scans `1 .. nrScans-1` adds one iteration. */
  lemma {:induction false} RelaxedStep(ps: seq<Pose>, qs: seq<Pose>, ss: seq<ScanState>, nrScans: int, k: nat)
    requires |ps| == |ss| && |qs| == |ss|
    requires forall j :: 0 <= j < |ss| && !(1 <= j < nrScans) ==> qs[j] == ps[j]
    ensures UpdatedUpTo(Relaxed(ps, ss, nrScans, k), qs, nrScans, nrScans) == Relaxed(qs, ss, nrScans, k + 1)
  {
    var rs := Relaxed(ps, ss, nrScans, k);
    var us := UpdatedUpTo(rs, qs, nrScans, nrScans);
    var ws := Relaxed(qs, ss, nrScans, k + 1);
    forall j | 0 <= j < |ss|
      ensures us[j] == ws[j]
    {
      if 1 <= j < nrScans {
        assert ModeLog(j, nrScans, k) + [ModeFor(j, nrScans)] == ModeLog(j, nrScans, k + 1);
      }
    }
  }

  /** One turn of the loop of `doGraphSlam6D`, after `k` iterations that
      left the poses `ps`. */
  method RelaxTurn(gr: Graph, scans: seq<Scan>, h: LumHooks, rot: Rotations,
                   ghost ss: seq<ScanState>, ghost ps: seq<Pose>, ghost k: nat)
    returns (ret: real)
    requires RelaxInputs(gr, ps, h) && Distinct(scans)
    requires |ps| == |ss| && States(scans) == Relaxed(ps, ss, gr.nrScans, k)
    modifies scans
    ensures var t := Relaxation(gr, h, rot, ps);
      && |t.state| == |ss|
      && States(scans) == Relaxed(t.state, ss, gr.nrScans, k + 1)
      && ret == t.ret
  {
    assert PosesOf(States(scans)) == ps;
    ret := RelaxOnce(gr, scans, h, rot);
    RelaxedStep(ps, Relaxation(gr, h, rot, ps).state, ss, gr.nrScans, k);
  }

  /** `doGraphSlam6D`: relax the graph for at most `nrIt` iterations,
      stopping once `ret <= epsilon`, and return the last `ret`. Every scan
      ends at its pose from `GraphSlam`, and every scan of the graph but
      the reference has gained one transform mode per iteration. */
  method DoGraphSlam6D(gr: Graph, scans: seq<Scan>, nrIt: int, epsilon: real, h: LumHooks, rot: Rotations)
    returns (ret: real)
    requires RelaxInputs(gr, PosesOf(States(scans)), h) && Distinct(scans)
    modifies scans
    ensures var o := GraphSlam(gr, PosesOf(old(States(scans))), h, rot, nrIt, epsilon);
      && |o.state| == |scans|
      && States(scans) == Relaxed(o.state, old(States(scans)), gr.nrScans, o.iterations)
      && ret == o.ret
  {
    ghost var ss := States(scans);
    ghost var ps := PosesOf(ss);
    ghost var budget: nat := if nrIt > 0 then nrIt else 0;
    ghost var tr := Trace(gr, h, rot, Step(ps, DblMax), budget, epsilon);
    TraceEnd(gr, h, rot, Step(ps, DblMax), budget, epsilon);
    RelaxedStart(ss, gr.nrScans);
    ret := DblMax;
    var iteration := 0;
    while iteration < nrIt && ret > epsilon
      invariant iteration < |tr| && tr[iteration] == Step(ps, ret)
      invariant |ps| == |ss| && States(scans) == Relaxed(ps, ss, gr.nrScans, iteration)
      decreases |tr| - iteration
    {
      TraceStep(gr, h, rot, tr[0], budget, epsilon, iteration);
      ghost var t := Relaxation(gr, h, rot, ps);
      ret := RelaxTurn(gr, scans, h, rot, ss, ps, iteration);
      ps := t.state;
      iteration := iteration + 1;
    }
    TraceStops(gr, h, rot, tr[0], budget, epsilon, iteration);
  }
}
