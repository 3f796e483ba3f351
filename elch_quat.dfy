/** ELCH loop closing, quaternion variant (`elch6Dquat::close_loop`): once a
    loop from scan `first` to scan `last` has been detected, the end of the
    loop is matched onto its start, and the resulting pose error `delta`
    (3 position and 4 quaternion components) is spread over the scans of
    the graph in proportion to per-component balance weights.

    The covariance estimate, the graph balancer, the ICP matcher and the
    quaternion normalisation are numeric and opaque: they are the fields
    of `ElchHooks`. */
module ElchQuat {
  import opened LinAlg
  import opened Scans

  // ---------------------------------------------------------------------
  // Graphs and hooks
  // ---------------------------------------------------------------------

  /** An edge of the scan graph `g`, between two vertex (scan) numbers. */
  datatype GraphEdge = GraphEdge(from: int, to: int)

  /** The scan graph: `n` vertices (scans `0 .. n-1`) and its edges. */
  datatype PoseGraph = PoseGraph(n: nat, edges: seq<GraphEdge>)

  /** An edge of one of the seven per-component graphs, with its weight. */
  datatype WeightedEdge = WeightedEdge(from: int, to: int, weight: real)

  /** The external numerics of loop closing:
      `covariance`: `icp6D::covarianceQuat` for the poses of an edge's two
      scans (a 7x7 matrix, 0-based here);
      `balancer`: `graph_balancer`, the weight it assigns to each vertex of
      a component graph, given `first` and `last`;
      `matcher`: the ICP matcher registering the end meta-scan onto the start
      meta-scan, as the motion it applies to each scan of the end;
      `normalize4`: `Normalize4`, scaling a quaternion to unit length. */
  datatype ElchHooks = ElchHooks(
    covariance: (Pose, Pose) -> Mat7,
    balancer: (seq<WeightedEdge>, int, int) -> (int -> real),
    matcher: (seq<Pose>, seq<Pose>) -> (Pose -> Pose),
    normalize4: Vec4 -> Vec4)

  /** Every edge joins two of the graph's vertices, and every vertex is a
      scan of the list (`allScans[i]` is read for each of them). */
  ghost predicate ValidPoseGraph(g: PoseGraph, count: int)
  {
    && g.n <= count
    && forall e :: 0 <= e < |g.edges| ==> 0 <= g.edges[e].from < g.n && 0 <= g.edges[e].to < g.n
  }

  /** What `close_loop` indexes without checking: the three scans of each
      meta-scan exist, and `last` is a vertex of the graph. */
  ghost predicate LoopInputs(g: PoseGraph, count: int, first: int, last: int)
  {
    ValidPoseGraph(g, count) && 0 <= first && first + 2 < count && 2 <= last < g.n
  }

  // ---------------------------------------------------------------------
  // The seven component graphs
  // ---------------------------------------------------------------------

  /** The covariance of edge `e`, computed from the poses of its scans. */
  function EdgeCovariance(g: PoseGraph, ps: seq<Pose>, h: ElchHooks, e: int): Mat7
    requires ValidPoseGraph(g, |ps|) && 0 <= e < |g.edges|
  {
    h.covariance(ps[g.edges[e].from], ps[g.edges[e].to])
  }

  /** Component graph `j` after the first `k` edges of `g`: each edge, in
      order, with diagonal entry `j` of its covariance as weight. */
  function ComponentGraphTo(g: PoseGraph, ps: seq<Pose>, h: ElchHooks, j: int, k: nat): seq<WeightedEdge>
    requires ValidPoseGraph(g, |ps|) && 0 <= j < 7 && k <= |g.edges|
  {
    if k == 0 then []
    else
      var e := g.edges[k - 1];
      ComponentGraphTo(g, ps, h, j, k - 1) + [WeightedEdge(e.from, e.to, EdgeCovariance(g, ps, h, k - 1)[j][j])]
  }

  /** Component graph `j`: all edges of `g`. */
  function ComponentGraph(g: PoseGraph, ps: seq<Pose>, h: ElchHooks, j: int): seq<WeightedEdge>
    requires ValidPoseGraph(g, |ps|) && 0 <= j < 7
  {
    ComponentGraphTo(g, ps, h, j, |g.edges|)
  }

  /** The seven component graphs, in component order. */
  function ComponentGraphList(g: PoseGraph, ps: seq<Pose>, h: ElchHooks): (grbs: seq<seq<WeightedEdge>>)
    requires ValidPoseGraph(g, |ps|)
    ensures |grbs| == 7 && forall j :: 0 <= j < 7 ==> grbs[j] == ComponentGraph(g, ps, h, j)
  {
    seq(7, j requires 0 <= j < 7 => ComponentGraph(g, ps, h, j))
  }

  /** Every edge of `g` appears exactly once in component graph `j`, at its
      own position, between the same vertices, weighted by diagonal entry
      `j` of its covariance. */
  lemma {:induction false} ComponentGraphEdges(g: PoseGraph, ps: seq<Pose>, h: ElchHooks, j: int, k: nat)
    requires ValidPoseGraph(g, |ps|) && 0 <= j < 7 && k <= |g.edges|
    ensures var cg := ComponentGraphTo(g, ps, h, j, k);
      && |cg| == k
      && forall e :: 0 <= e < k ==>
           cg[e] == WeightedEdge(g.edges[e].from, g.edges[e].to, EdgeCovariance(g, ps, h, e)[j][j])
    decreases k
  {
    if k > 0 {
      ComponentGraphEdges(g, ps, h, j, k - 1);
    }
  }

  /** Build the seven component graphs: for each edge of `g`, in order,
      compute the covariance of its two scans and add the edge to every
      component graph `j` with weight `C(j+1,j+1)`. */
  method ComponentGraphs(g: PoseGraph, scans: seq<Scan>, h: ElchHooks) returns (grb: array<seq<WeightedEdge>>)
    requires ValidPoseGraph(g, |scans|)
    ensures fresh(grb) && grb.Length == 7
    ensures grb[..] == ComponentGraphList(g, PosesOf(States(scans)), h)
  {
    ghost var ps := PosesOf(States(scans));
    grb := EmptyGraphs(scans);
    var e := 0;
    while e < |g.edges|
      invariant 0 <= e <= |g.edges|
      invariant forall j :: 0 <= j < 7 ==> grb[j] == ComponentGraphTo(g, ps, h, j, e)
    {
      AddEdgeOf(g, scans, h, grb, e, ps);
      e := e + 1;
    }
    assert grb[..] == ComponentGraphList(g, ps, h);
  }

  /** Seven empty component graphs. */
  method EmptyGraphs(ghost scans: seq<Scan>) returns (grb: array<seq<WeightedEdge>>)
    ensures fresh(grb) && grb.Length == 7 && forall j :: 0 <= j < 7 ==> grb[j] == []
    ensures States(scans) == old(States(scans))
  {
    grb := new seq<WeightedEdge>[7] [[], [], [], [], [], [], []];
  }

  /** One turn of the edge loop: compute the covariance of edge `e` and add
      the edge to every component graph. */
  method AddEdgeOf(g: PoseGraph, scans: seq<Scan>, h: ElchHooks, grb: array<seq<WeightedEdge>>, e: int, ghost ps: seq<Pose>)
    requires ValidPoseGraph(g, |scans|) && ps == PosesOf(States(scans)) && 0 <= e < |g.edges| && grb.Length == 7
    requires forall j :: 0 <= j < 7 ==> grb[j] == ComponentGraphTo(g, ps, h, j, e)
    modifies grb
    ensures forall j :: 0 <= j < 7 ==> grb[j] == ComponentGraphTo(g, ps, h, j, e + 1)
  {
    var from := g.edges[e].from;
    var to := g.edges[e].to;
    var c := h.covariance(scans[from].GetPose(), scans[to].GetPose());
    assert c == EdgeCovariance(g, ps, h, e);
    AddEdge(grb, from, to, c);
  }

  /** Add the edge `from -> to` to each of the seven component graphs,
      weighted by the matching diagonal entry of its covariance `c`. */
  method AddEdge(grb: array<seq<WeightedEdge>>, from: int, to: int, c: Mat7)
    requires grb.Length == 7
    modifies grb
    ensures forall j :: 0 <= j < 7 ==> grb[j] == old(grb[j]) + [WeightedEdge(from, to, c[j][j])]
  {
    var j := 0;
    while j < 7
      invariant 0 <= j <= 7
      invariant forall i :: 0 <= i < 7 ==>
        grb[i] == if i < j then old(grb[i]) + [WeightedEdge(from, to, c[i][i])] else old(grb[i])
    {
      grb[j] := grb[j] + [WeightedEdge(from, to, c[j][j])];
      j := j + 1;
    }
  }

  // ---------------------------------------------------------------------
  // Balance weights
  // ---------------------------------------------------------------------

  /** A weight table `weights[7][n]`: one row per pose component, one entry
      per vertex. */
  ghost predicate IsWeightTable(w: seq<seq<real>>, n: int)
  {
    |w| == 7 && forall j :: 0 <= j < 7 ==> |w[j]| == n
  }

  /** The contents of a 2-dimensional array, row by row. */
  function Rows(a: array2<real>): (w: seq<seq<real>>)
    reads a
    ensures |w| == a.Length0
    ensures forall j :: 0 <= j < a.Length0 ==> |w[j]| == a.Length1
    ensures forall j, k :: 0 <= j < a.Length0 && 0 <= k < a.Length1 ==> w[j][k] == a[j, k]
  {
    seq(a.Length0, j reads a requires 0 <= j < a.Length0 =>
      seq(a.Length1, k reads a requires 0 <= k < a.Length1 => a[j, k]))
  }

  /** The balancer's weights for each of the seven component graphs, at
      vertices `0 .. n-1`. */
  function Balanced(grbs: seq<seq<WeightedEdge>>, first: int, last: int, n: nat, h: ElchHooks): (w: seq<seq<real>>)
    requires |grbs| == 7
    ensures IsWeightTable(w, n)
    ensures forall j, k :: 0 <= j < 7 && 0 <= k < n ==> w[j][k] == h.balancer(grbs[j], first, last)(k)
  {
    seq(7, j requires 0 <= j < 7 => seq(n, k => h.balancer(grbs[j], first, last)(k)))
  }

  /** `weights[i]` is filled by `graph_balancer(grb[i], first, last, ...)`
      for each of the seven components. */
  method BalanceWeights(grb: array<seq<WeightedEdge>>, first: int, last: int, n: nat, h: ElchHooks)
    returns (weights: array2<real>)
    requires grb.Length == 7
    ensures fresh(weights) && weights.Length0 == 7 && weights.Length1 == n
    ensures Rows(weights) == Balanced(grb[..], first, last, n, h)
  {
    weights := new real[7, n];
    var i := 0;
    while i < 7
      invariant 0 <= i <= 7
      invariant forall j, k :: 0 <= j < i && 0 <= k < n ==> weights[j, k] == h.balancer(grb[j], first, last)(k)
    {
      var row := h.balancer(grb[i], first, last);
      var k := 0;
      while k < n
        invariant 0 <= k <= n
        invariant forall j, m :: 0 <= j < i && 0 <= m < n ==> weights[j, m] == h.balancer(grb[j], first, last)(m)
        invariant forall m :: 0 <= m < k ==> weights[i, m] == row(m)
      {
        weights[i, k] := row(k);
        k := k + 1;
      }
      i := i + 1;
    }
    ghost var w := Balanced(grb[..], first, last, n, h);
    forall j | 0 <= j < 7
      ensures Rows(weights)[j] == w[j]
    {
    }
  }

  /** The weight table with the entries of vertices `last-2 .. last` set to
      zero in every component; all other entries as in `w`. */
  function ZeroedEnds(w: seq<seq<real>>, last: int): (z: seq<seq<real>>)
    requires |w| == 7
    ensures |z| == 7
    ensures forall j :: 0 <= j < 7 ==> |z[j]| == |w[j]|
    ensures forall j, k :: 0 <= j < 7 && 0 <= k < |w[j]| ==>
      z[j][k] == if last - 2 <= k <= last then 0.0 else w[j][k]
  {
    seq(7, j requires 0 <= j < 7 =>
      seq(|w[j]|, k requires 0 <= k < |w[j]| => if last - 2 <= k <= last then 0.0 else w[j][k]))
  }

  /** Zero the weights of the three scans of the end meta-scan, in all
      seven components. */
  method ZeroEnds(weights: array2<real>, last: int)
    requires weights.Length0 == 7 && 2 <= last < weights.Length1
    modifies weights
    ensures Rows(weights) == ZeroedEnds(old(Rows(weights)), last)
  {
    ghost var w := Rows(weights);
    var i := last - 2;
    while i <= last
      invariant last - 2 <= i <= last + 1
      invariant forall j, k :: 0 <= j < 7 && 0 <= k < weights.Length1 ==>
        weights[j, k] == if last - 2 <= k < i then 0.0 else w[j][k]
    {
      var j := 0;
      while j < 7
        invariant 0 <= j <= 7
        invariant forall m, k :: 0 <= m < 7 && 0 <= k < weights.Length1 ==>
          weights[m, k] == if last - 2 <= k < i || (k == i && m < j) then 0.0 else w[m][k]
      {
        weights[j, i] := 0.0;
        j := j + 1;
      }
      i := i + 1;
    }
    ghost var z := ZeroedEnds(w, last);
    forall j | 0 <= j < 7
      ensures Rows(weights)[j] == z[j]
    {
    }
  }

  // ---------------------------------------------------------------------
  // The loop-closing match and the pose error delta
  // ---------------------------------------------------------------------

  /** A pose as the 7 components `close_loop` works with: position, then
      quaternion. */
  function PoseVector(p: Pose): (v: Vec7)
    ensures forall k :: 0 <= k < 3 ==> v[k] == p.pos[k] && v[k + 3] == p.quat[k]
    ensures v[6] == p.quat[3]
  {
    p.pos + p.quat
  }

  /** The pose error of the loop: the last scan's pose after the match
      minus its pose before, component by component. */
  function LoopDelta(before: Pose, after: Pose): (delta: Vec7)
    ensures forall k :: 0 <= k < 7 ==> delta[k] == PoseVector(after)[k] - PoseVector(before)[k]
  {
    seq(7, k requires 0 <= k < 7 => PoseVector(after)[k] - PoseVector(before)[k])
  }

  /** Adding the delta to the pose before the match gives the pose after it,
      in all seven components. */
  lemma DeltaRoundTrip(before: Pose, after: Pose)
    ensures forall k :: 0 <= k < 7 ==> PoseVector(before)[k] + LoopDelta(before, after)[k] == PoseVector(after)[k]
  {
    var d := LoopDelta(before, after);
    var u := PoseVector(before);
    var v := PoseVector(after);
    forall k | 0 <= k < 7
      ensures u[k] + d[k] == v[k]
    {
      if k >= 3 {
        assert u[k] == before.quat[k - 3] && v[k] == after.quat[k - 3];
      }
    }
  }

  /** The delta is zero exactly when the match left the last scan's
      position and quaternion where they were. */
  lemma DeltaZero(before: Pose, after: Pose)
    ensures LoopDelta(before, after) == [0.0, 0.0, 0.0, 0.0, 0.0, 0.0, 0.0] <==>
      before.pos == after.pos && before.quat == after.quat
  {
    var d := LoopDelta(before, after);
    if before.pos == after.pos && before.quat == after.quat {
      assert PoseVector(before) == PoseVector(after);
      assert d == [0.0, 0.0, 0.0, 0.0, 0.0, 0.0, 0.0];
    } else if before.pos != after.pos {
      var k :| 0 <= k < 3 && before.pos[k] != after.pos[k];
      assert d[k] == after.pos[k] - before.pos[k];
    } else {
      var k :| 0 <= k < 4 && before.quat[k] != after.quat[k];
      assert d[k + 3] == after.quat[k] - before.quat[k];
    }
  }

  /** The start meta-scan: scans `first, first+1, first+2`. */
  function StartPoses(ss: seq<ScanState>, first: int): seq<Pose>
    requires 0 <= first && first + 2 < |ss|
  {
    [ss[first].pose, ss[first + 1].pose, ss[first + 2].pose]
  }

  /** The end meta-scan: scans `last-2, last-1, last`. */
  function EndPoses(ss: seq<ScanState>, last: int): seq<Pose>
    requires 2 <= last < |ss|
  {
    [ss[last - 2].pose, ss[last - 1].pose, ss[last].pose]
  }

  /** The scans after the end meta-scan has been matched onto the start
      meta-scan: the three scans of the end are moved by the matcher's
      motion, every other scan is as it was. */
  function Matched(ss: seq<ScanState>, first: int, last: int, h: ElchHooks): (ms: seq<ScanState>)
    requires 0 <= first && first + 2 < |ss| && 2 <= last < |ss|
    ensures |ms| == |ss|
    ensures forall i :: 0 <= i < |ss| && !(last - 2 <= i <= last) ==> ms[i] == ss[i]
    ensures forall i :: 0 <= i < |ss| && last - 2 <= i <= last ==>
      ms[i] == ScanState(h.matcher(StartPoses(ss, first), EndPoses(ss, last))(ss[i].pose), ss[i].frames)
  {
    var move := h.matcher(StartPoses(ss, first), EndPoses(ss, last));
    seq(|ss|, i requires 0 <= i < |ss| =>
      if last - 2 <= i <= last then ScanState(move(ss[i].pose), ss[i].frames) else ss[i])
  }

  /** The matched states are the original ones with the three scans of the
      end meta-scan replaced, one after another. */
  lemma MatchedByUpdates(ss: seq<ScanState>, first: int, last: int, h: ElchHooks)
    requires 0 <= first && first + 2 < |ss| && 2 <= last < |ss|
    ensures var move := h.matcher(StartPoses(ss, first), EndPoses(ss, last));
      var s1 := ss[last - 2 := ScanState(move(ss[last - 2].pose), ss[last - 2].frames)];
      var s2 := s1[last - 1 := ScanState(move(ss[last - 1].pose), s1[last - 1].frames)];
      Matched(ss, first, last, h) == s2[last := ScanState(move(ss[last].pose), s2[last].frames)]
  {
  }

  /** Move scan `i` to pose `p` (the matcher's registration); no other scan
      changes. */
  method RegisterScan(scans: seq<Scan>, i: int, p: Pose)
    requires 0 <= i < |scans| && Distinct(scans)
    modifies scans[i]
    ensures States(scans) == old(States(scans))[i := ScanState(p, old(States(scans))[i].frames)]
  {
    forall j | 0 <= j < |scans| && j != i
      ensures scans[j] != scans[i]
    {
      DistinctAt(scans, i, j);
    }
    scans[i].Register(p);
  }

  /** `my_icp6D->match(start, end)` on the meta-scans built from scans
      `first .. first+2` and `last-2 .. last`. */
  method MatchEnds(scans: seq<Scan>, first: int, last: int, h: ElchHooks)
    requires 0 <= first && first + 2 < |scans| && 2 <= last < |scans| && Distinct(scans)
    modifies scans
    ensures States(scans) == Matched(old(States(scans)), first, last, h)
  {
    ghost var ss := States(scans);
    var start := [scans[first].GetPose(), scans[first + 1].GetPose(), scans[first + 2].GetPose()];
    var end := [scans[last - 2].GetPose(), scans[last - 1].GetPose(), scans[last].GetPose()];
    assert start == StartPoses(ss, first) && end == EndPoses(ss, last);
    var move := h.matcher(start, end);
    RegisterScan(scans, last - 2, move(end[0]));
    RegisterScan(scans, last - 1, move(end[1]));
    RegisterScan(scans, last, move(end[2]));
    MatchedByUpdates(ss, first, last, h);
  }

  /** Record the last scan's pose, match the end of the loop onto its start,
      and return the change of the last scan's pose as `delta`. */
  method ComputeDelta(scans: seq<Scan>, first: int, last: int, h: ElchHooks) returns (delta: array<real>)
    requires 0 <= first && first + 2 < |scans| && 2 <= last < |scans| && Distinct(scans)
    modifies scans
    ensures fresh(delta) && delta.Length == 7
    ensures States(scans) == Matched(old(States(scans)), first, last, h)
    ensures delta[..] == LoopDelta(old(States(scans))[last].pose, States(scans)[last].pose)
  {
    var before := scans[last].GetPose();
    delta := StorePose(before, scans);
    MatchAndSubtract(scans, first, last, h, delta, before);
  }

  /** The match, then the second write of `delta`. */
  method MatchAndSubtract(scans: seq<Scan>, first: int, last: int, h: ElchHooks, delta: array<real>, ghost before: Pose)
    requires 0 <= first && first + 2 < |scans| && 2 <= last < |scans| && Distinct(scans)
    requires delta.Length == 7 && delta[..] == PoseVector(before) && before == States(scans)[last].pose
    modifies scans, delta
    ensures States(scans) == Matched(old(States(scans)), first, last, h)
    ensures delta[..] == LoopDelta(before, States(scans)[last].pose)
  {
    MatchEnds(scans, first, last, h);
    var after := scans[last].GetPose();
    Difference(delta, before, after, scans);
  }

  /** The first write of `delta`: a new array holding the seven components
      of the pose `p`. */
  method StorePose(p: Pose, ghost scans: seq<Scan>) returns (delta: array<real>)
    ensures fresh(delta) && delta.Length == 7
    ensures delta[..] == PoseVector(p)
    ensures States(scans) == old(States(scans))
  {
    delta := new real[7];
    var v := PoseVector(p);
    for k := 0 to 7
      invariant delta[..k] == v[..k]
    {
      delta[k] := v[k];
    }
  }

  /** The second write of `delta`: each component of the pose `after` minus
      the stored component of `before`. */
  method Difference(delta: array<real>, ghost before: Pose, after: Pose, ghost scans: seq<Scan>)
    requires delta.Length == 7 && delta[..] == PoseVector(before)
    modifies delta
    ensures delta[..] == LoopDelta(before, after)
    ensures States(scans) == old(States(scans))
  {
    var v := PoseVector(after);
    for k := 0 to 7
      invariant delta[..k] == LoopDelta(before, after)[..k]
      invariant delta[k..] == PoseVector(before)[k..]
    {
      delta[k] := v[k] - delta[k];
    }
  }

  // ---------------------------------------------------------------------
  // Distributing the error
  // ---------------------------------------------------------------------

  /** Weight column `i`: the seven component weights of vertex `i`. */
  function Column(w: seq<seq<real>>, i: int): (c: Vec7)
    requires |w| == 7 && 0 <= i && forall j :: 0 <= j < 7 ==> i < |w[j]|
    ensures forall j :: 0 <= j < 7 ==> c[j] == w[j][i]
  {
    seq(7, j requires 0 <= j < 7 => w[j][i])
  }

  /** The share of the delta that vertex `i` receives relative to vertex 0:
      `delta[k] * (weights[k][i] - weights[k][0])` per component. */
  function Share(delta: Vec7, wi: Vec7, w0: Vec7): (s: Vec7)
  {
    seq(7, k requires 0 <= k < 7 => delta[k] * (wi[k] - w0[k]))
  }

  /** The position of `p` moved by its share. */
  function ShiftedPos(p: Pose, s: Vec7): (pos: Vec3)
    ensures forall k :: 0 <= k < 3 ==> pos[k] == p.pos[k] + s[k]
  {
    [p.pos[0] + s[0], p.pos[1] + s[1], p.pos[2] + s[2]]
  }

  /** The quaternion of `p` moved by its share, before normalisation. */
  function RawQuat(p: Pose, s: Vec7): (q: Vec4)
    ensures forall k :: 0 <= k < 4 ==> q[k] == p.quat[k] + s[k + 3]
  {
    [p.quat[0] + s[3], p.quat[1] + s[4], p.quat[2] + s[5], p.quat[3] + s[6]]
  }

  /** The pose committed for a scan with weight column `wi`: the position
      moved by the position share, the quaternion moved by the quaternion
      share and then normalised; the Euler angles follow from the
      normalised quaternion. */
  function ClosedPose(p: Pose, delta: Vec7, wi: Vec7, w0: Vec7, h: ElchHooks, rot: Rotations): (q: Pose)
    ensures forall k :: 0 <= k < 3 ==> q.pos[k] == p.pos[k] + delta[k] * (wi[k] - w0[k])
    ensures q.quat == h.normalize4(RawQuat(p, Share(delta, wi, w0)))
    ensures q.theta == rot.quatToEuler(q.quat)
  {
    var s := Share(delta, wi, w0);
    var quat := h.normalize4(RawQuat(p, s));
    Pose(ShiftedPos(p, s), rot.quatToEuler(quat), quat)
  }

  /** The poses after the distribution pass over scans `1 .. n-1`; every
      other scan keeps its pose. */
  function ClosedPoses(ps: seq<Pose>, n: int, delta: Vec7, w: seq<seq<real>>, h: ElchHooks, rot: Rotations): (qs: seq<Pose>)
    requires n <= |ps| && IsWeightTable(w, n)
    ensures |qs| == |ps|
    ensures forall i :: 0 <= i < |ps| && !(1 <= i < n) ==> qs[i] == ps[i]
    ensures forall i :: 0 <= i < |ps| && 1 <= i < n ==>
      qs[i] == ClosedPose(ps[i], delta, Column(w, i), Column(w, 0), h, rot)
  {
    seq(|ps|, i requires 0 <= i < |ps| =>
      if 1 <= i < n then ClosedPose(ps[i], delta, Column(w, i), Column(w, 0), h, rot) else ps[i])
  }

  /** The scan states after the distribution pass over scans `1 .. n-1`:
      those scans hold their closed pose and have gained their transform
      mode; all others are as in `ss`. */
  function Distributed(ss: seq<ScanState>, n: int, delta: Vec7, w: seq<seq<real>>, h: ElchHooks, rot: Rotations): (rs: seq<ScanState>)
    requires n <= |ss| && IsWeightTable(w, n)
    ensures |rs| == |ss|
  {
    UpdatedUpTo(ss, ClosedPoses(PosesOf(ss), n, delta, w, h, rot), n, n)
  }

  /** One turn of the distribution loop: move scan `i` by its share of the
      delta, normalise the quaternion and commit the pose with
      `transformToQuat`, in terminal mode for scan `n-1`. */
  method DistributeOne(scans: seq<Scan>, i: int, n: int, delta: array<real>, weights: array2<real>,
                       h: ElchHooks, rot: Rotations, ghost ss: seq<ScanState>, ghost qs: seq<Pose>)
    requires 1 <= i < n <= |scans| && Distinct(scans) && |ss| == |scans|
    requires delta.Length == 7 && weights.Length0 == 7 && weights.Length1 == n
    requires qs == ClosedPoses(PosesOf(ss), n, delta[..], Rows(weights), h, rot)
    requires States(scans) == UpdatedUpTo(ss, qs, n, i)
    modifies scans[i]
    ensures States(scans) == UpdatedUpTo(ss, qs, n, i + 1)
  {
    UpdatedUpToStep(ss, qs, n, i);
    forall j | 0 <= j < |scans| && j != i
      ensures scans[j] != scans[i]
    {
      DistinctAt(scans, i, j);
    }
    var w := Rows(weights);
    var p := scans[i].GetPose();
    var share := Share(delta[..], Column(w, i), Column(w, 0));
    var rPos := ShiftedPos(p, share);
    var rPosQuat := RawQuat(p, share);
    rPosQuat := h.normalize4(rPosQuat);
    scans[i].TransformToQuat(rPos, rPosQuat, ModeFor(i, n), rot);
  }

  /** The distribution loop over scans `1 .. n-1`. */
  method Distribute(scans: seq<Scan>, n: int, delta: array<real>, weights: array2<real>, h: ElchHooks, rot: Rotations)
    requires 1 <= n <= |scans| && Distinct(scans)
    requires delta.Length == 7 && weights.Length0 == 7 && weights.Length1 == n
    modifies scans
    ensures States(scans) == Distributed(old(States(scans)), n, old(delta[..]), old(Rows(weights)), h, rot)
  {
    ghost var ss := States(scans);
    ghost var qs := ClosedPoses(PosesOf(ss), n, delta[..], Rows(weights), h, rot);
    var i := 1;
    while i < n
      invariant 1 <= i <= n
      invariant States(scans) == UpdatedUpTo(ss, qs, n, i)
    {
      DistributeOne(scans, i, n, delta, weights, h, rot, ss, qs);
      i := i + 1;
    }
  }

  // ---------------------------------------------------------------------
  // close_loop
  // ---------------------------------------------------------------------

  /** The weights `close_loop` distributes with: the balancer's weights for
      the component graphs built from the poses `ps`, with the end
      meta-scan's entries zeroed. */
  function LoopWeights(g: PoseGraph, ps: seq<Pose>, first: int, last: int, h: ElchHooks): (w: seq<seq<real>>)
    requires ValidPoseGraph(g, |ps|)
    ensures IsWeightTable(w, g.n)
  {
    ZeroedEnds(Balanced(ComponentGraphList(g, ps, h), first, last, g.n, h), last)
  }

  /** The weights of `close_loop`: build the component graphs from the
      current poses, balance each, and zero the end meta-scan's entries. */
  method ElchWeights(g: PoseGraph, scans: seq<Scan>, first: int, last: int, h: ElchHooks) returns (weights: array2<real>)
    requires ValidPoseGraph(g, |scans|) && 2 <= last < g.n
    ensures fresh(weights) && weights.Length0 == 7 && weights.Length1 == g.n
    ensures Rows(weights) == LoopWeights(g, PosesOf(States(scans)), first, last, h)
    ensures States(scans) == old(States(scans))
  {
    var grb := ComponentGraphs(g, scans, h);
    weights := BalanceWeights(grb, first, last, g.n, h);
    ZeroEnds(weights, last);
  }

  /** The scan states after `close_loop`. */
  function ClosedLoop(ss: seq<ScanState>, g: PoseGraph, first: int, last: int, h: ElchHooks, rot: Rotations): (rs: seq<ScanState>)
    requires LoopInputs(g, |ss|, first, last)
    ensures |rs| == |ss|
  {
    var ms := Matched(ss, first, last, h);
    var delta := LoopDelta(ss[last].pose, ms[last].pose);
    var w := LoopWeights(g, PosesOf(ss), first, last, h);
    Distributed(ms, g.n, delta, w, h, rot)
  }

  /** `elch6Dquat::close_loop`: build the component graphs, balance them,
      zero the end meta-scan's weights, match the end of the loop onto its
      start to find `delta`, and distribute `delta` over scans `1 .. n-1`. */
  method CloseLoop(scans: seq<Scan>, first: int, last: int, g: PoseGraph, h: ElchHooks, rot: Rotations)
    requires LoopInputs(g, |scans|, first, last) && Distinct(scans)
    modifies scans
    ensures States(scans) == ClosedLoop(old(States(scans)), g, first, last, h, rot)
  {
    ghost var ss := States(scans);
    var n := g.n;
    var weights := ElchWeights(g, scans, first, last, h);
    ghost var w := Rows(weights);
    assert States(scans) == ss;
    var delta := ComputeDelta(scans, first, last, h);
    ghost var ms := States(scans);
    ghost var d := delta[..];
    assert Rows(weights) == w;
    Distribute(scans, n, delta, weights, h, rot);
    assert States(scans) == Distributed(ms, n, d, w, h, rot);
    ClosedLoopStages(ss, g, first, last, h, rot, w, ms, d);
  }

  /** `ClosedLoop` is the distribution stage applied to the outcome of the
      weight and match stages. */
  lemma ClosedLoopStages(ss: seq<ScanState>, g: PoseGraph, first: int, last: int, h: ElchHooks, rot: Rotations,
                         w: seq<seq<real>>, ms: seq<ScanState>, d: seq<real>)
    requires LoopInputs(g, |ss|, first, last)
    requires w == LoopWeights(g, PosesOf(ss), first, last, h)
    requires ms == Matched(ss, first, last, h) && d == LoopDelta(ss[last].pose, ms[last].pose)
    ensures IsWeightTable(w, g.n) && |d| == 7 && g.n <= |ms|
    ensures ClosedLoop(ss, g, first, last, h, rot) == Distributed(ms, g.n, d, w, h, rot)
  {
  }

  // ---------------------------------------------------------------------
  // Properties of close_loop
  // ---------------------------------------------------------------------

  /** `Normalize4` scales every non-zero quaternion to unit length. */
  ghost predicate IsNormalizer(normalize4: Vec4 -> Vec4)
  {
    forall q {:trigger normalize4(q)} :: SqNorm4(q) > 0.0 ==> SqNorm4(normalize4(q)) == 1.0
  }

  function SqNorm4(q: Vec4): real
  {
    q[0] * q[0] + q[1] * q[1] + q[2] * q[2] + q[3] * q[3]
  }

  /** A component in which vertex `i` has the same weight as vertex 0 is
      left as it was (the quaternion components before normalisation). */
  lemma EqualWeightKeepsComponent(p: Pose, delta: Vec7, wi: Vec7, w0: Vec7, k: int)
    requires 0 <= k < 7 && wi[k] == w0[k]
    ensures Share(delta, wi, w0)[k] == 0.0
    ensures k < 3 ==> PoseVector(p)[k] + Share(delta, wi, w0)[k] == p.pos[k]
    ensures 3 <= k ==> RawQuat(p, Share(delta, wi, w0))[k - 3] == p.quat[k - 3]
  {
  }

  /** A scan with zero weight in position component `k` receives minus the
      delta weighted by vertex 0 in that component. */
  lemma ZeroWeightShift(p: Pose, delta: Vec7, wi: Vec7, w0: Vec7, base: real, h: ElchHooks, rot: Rotations, k: int)
    requires 0 <= k < 3 && wi[k] == 0.0 && w0[k] == base
    ensures ClosedPose(p, delta, wi, w0, h, rot).pos[k] == p.pos[k] - delta[k] * base
  {
    var q := ClosedPose(p, delta, wi, w0, h, rot);
    assert q.pos[k] == p.pos[k] + delta[k] * (wi[k] - w0[k]);
  }

  /** With a zero delta, every distributed scan keeps its position, and its
      quaternion is only normalised. */
  lemma ZeroDeltaKeepsPose(p: Pose, delta: Vec7, wi: Vec7, w0: Vec7, h: ElchHooks, rot: Rotations)
    requires delta == [0.0, 0.0, 0.0, 0.0, 0.0, 0.0, 0.0]
    ensures ClosedPose(p, delta, wi, w0, h, rot).pos == p.pos
    ensures ClosedPose(p, delta, wi, w0, h, rot).quat == h.normalize4(p.quat)
  {
    var q := ClosedPose(p, delta, wi, w0, h, rot);
    assert q.pos == [q.pos[0], q.pos[1], q.pos[2]];
    assert p.pos == [p.pos[0], p.pos[1], p.pos[2]];
    assert RawQuat(p, Share(delta, wi, w0)) == p.quat;
  }

  /** With a normalising `Normalize4`, every distributed scan is committed
      with a unit quaternion, unless its moved quaternion is zero. */
  lemma ClosedPoseUnitQuaternion(p: Pose, delta: Vec7, wi: Vec7, w0: Vec7, h: ElchHooks, rot: Rotations)
    requires IsNormalizer(h.normalize4)
    requires SqNorm4(RawQuat(p, Share(delta, wi, w0))) > 0.0
    ensures SqNorm4(ClosedPose(p, delta, wi, w0, h, rot).quat) == 1.0
  {
  }

  /** Which scans `close_loop` changes and how: scans `1 .. n-1` get their
      closed pose, computed from their pose after the match, and gain
      exactly one transform mode, terminal for scan `n-1` only; scans
      outside `1 .. n-1` keep their mode log, and those outside the end
      meta-scan too keep their pose. In particular scan 0 is untouched
      unless it belongs to the end meta-scan. */
  lemma {:induction false} ClosedLoopScans(ss: seq<ScanState>, g: PoseGraph, first: int, last: int, h: ElchHooks, rot: Rotations, i: int,
                                           ms: seq<ScanState>, delta: Vec7, w: seq<seq<real>>)
    requires LoopInputs(g, |ss|, first, last) && 0 <= i < |ss|
    requires ms == Matched(ss, first, last, h) && delta == LoopDelta(ss[last].pose, ms[last].pose)
    requires w == LoopWeights(g, PosesOf(ss), first, last, h)
    ensures var rs := ClosedLoop(ss, g, first, last, h, rot);
      && (1 <= i < g.n ==>
            && rs[i].pose == ClosedPose(ms[i].pose, delta, Column(w, i), Column(w, 0), h, rot)
            && rs[i].frames == ss[i].frames + [ModeFor(i, g.n)]
            && (rs[i].frames[|rs[i].frames| - 1] == TerminalMode <==> i == g.n - 1))
      && (!(1 <= i < g.n) ==> rs[i].frames == ss[i].frames)
      && (!(1 <= i < g.n) && !(last - 2 <= i <= last) ==> rs[i] == ss[i])
  {
    ClosedLoopStages(ss, g, first, last, h, rot, w, ms, delta);
    DistributedScan(ms, g.n, delta, w, h, rot, i);
  }

  /** Scan `i` after the distribution: scans `1 .. n-1` take their closed
      pose and one more transform mode, terminal for scan `n-1` only; every
      other scan is as it was. */
  lemma DistributedScan(ss: seq<ScanState>, n: int, delta: Vec7, w: seq<seq<real>>, h: ElchHooks, rot: Rotations, i: int)
    requires n <= |ss| && IsWeightTable(w, n) && 0 <= i < |ss|
    ensures var rs := Distributed(ss, n, delta, w, h, rot);
      && (1 <= i < n ==>
            && rs[i].pose == ClosedPose(ss[i].pose, delta, Column(w, i), Column(w, 0), h, rot)
            && rs[i].frames == ss[i].frames + [ModeFor(i, n)]
            && (rs[i].frames[|rs[i].frames| - 1] == TerminalMode <==> i == n - 1))
      && (!(1 <= i < n) ==> rs[i] == ss[i])
  {
    assert PosesOf(ss)[i] == ss[i].pose;
  }


  /** A distributed scan with zero weight in position component `k`
      receives minus the delta weighted by vertex 0 in that component. */
  lemma DistributedZeroWeight(ss: seq<ScanState>, n: int, delta: Vec7, w: seq<seq<real>>, h: ElchHooks, rot: Rotations, i: int, k: int)
    requires n <= |ss| && IsWeightTable(w, n) && 1 <= i < n && 0 <= k < 3 && w[k][i] == 0.0
    ensures Distributed(ss, n, delta, w, h, rot)[i].pose.pos[k] == ss[i].pose.pos[k] - delta[k] * w[k][0]
  {
    var wi := Column(w, i);
    var w0 := Column(w, 0);
    assert PosesOf(ss)[i] == ss[i].pose;
    ZeroWeightShift(ss[i].pose, delta, wi, w0, w[k][0], h, rot, k);
  }

  /** The scans of the end meta-scan carry zero weight, so each receives
      minus the delta weighted by vertex 0: after the match moved it, it is
      moved back by `delta[k] * weights[k][0]` in every position component. */
  lemma {:induction false} EndScansShift(ss: seq<ScanState>, g: PoseGraph, first: int, last: int, h: ElchHooks, rot: Rotations, i: int, k: int,
                                         ms: seq<ScanState>, delta: Vec7, w: seq<seq<real>>)
    requires LoopInputs(g, |ss|, first, last)
    requires 1 <= i && last - 2 <= i <= last && 0 <= k < 3
    requires ms == Matched(ss, first, last, h) && delta == LoopDelta(ss[last].pose, ms[last].pose)
    requires w == LoopWeights(g, PosesOf(ss), first, last, h)
    ensures ClosedLoop(ss, g, first, last, h, rot)[i].pose.pos[k] == ms[i].pose.pos[k] - delta[k] * w[k][0]
  {
    assert w[k][i] == 0.0;
    DistributedZeroWeight(ms, g.n, delta, w, h, rot, i, k);
  }


}
