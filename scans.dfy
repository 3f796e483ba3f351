/** The part of a scan that the relaxation and loop-closing engines touch:
    its current pose, held three ways as in the source's `Scan` class
    (position `rPos`, Euler angles `rPosTheta`, quaternion `rPosQuat`), and
    the log of transform modes it has been committed with. Point clouds and
    their transformation are not part of this model. */
module Scans {
  import opened LinAlg

  /** A value snapshot of one scan's pose. */
  datatype Pose = Pose(pos: Vec3, theta: Vec3, quat: Vec4)

  /** The conversions between the two rotation parameterisations that a
      scan performs when a new pose is committed (the source derives both
      from its 4x4 transformation matrix); numeric and opaque here. */
  datatype Rotations = Rotations(eulerToQuat: Vec3 -> Vec4, quatToEuler: Vec4 -> Vec3)

  /** Transform mode 1: an intermediate update during relaxation or loop
      closing; mode 2: the update of the terminal scan of the chain. */
  const IntermediateMode: int := 1
  const TerminalMode: int := 2

  class Scan {
    var rPos: Vec3
    var rPosTheta: Vec3
    var rPosQuat: Vec4
    /** The transform modes this scan has been committed with, oldest first. */
    var frames: seq<int>

    constructor (p: Pose)
      ensures rPos == p.pos && rPosTheta == p.theta && rPosQuat == p.quat && frames == []
    {
      rPos, rPosTheta, rPosQuat, frames := p.pos, p.theta, p.quat, [];
    }

    function GetPose(): (p: Pose)
      reads this
      ensures p.pos == rPos && p.theta == rPosTheta && p.quat == rPosQuat
    {
      Pose(rPos, rPosTheta, rPosQuat)
    }

    /** `Scan::transformToEuler`: commit a new pose given by position and
        Euler angles, with transform mode `mode`. */
    method TransformToEuler(pos: Vec3, theta: Vec3, mode: int, rot: Rotations)
      modifies this
      ensures GetPose() == Pose(pos, theta, rot.eulerToQuat(theta))
      ensures frames == old(frames) + [mode]
    {
      rPos, rPosTheta, rPosQuat := pos, theta, rot.eulerToQuat(theta);
      frames := frames + [mode];
    }

    /** `Scan::transformToQuat`: commit a new pose given by position and
        quaternion, with transform mode `mode`. */
    method TransformToQuat(pos: Vec3, quat: Vec4, mode: int, rot: Rotations)
      modifies this
      ensures GetPose() == Pose(pos, rot.quatToEuler(quat), quat)
      ensures frames == old(frames) + [mode]
    {
      rPos, rPosTheta, rPosQuat := pos, rot.quatToEuler(quat), quat;
      frames := frames + [mode];
    }

    /** The pairwise matcher moving this scan to a registered pose. */
    method Register(p: Pose)
      modifies this
      ensures GetPose() == p && frames == old(frames)
    {
      rPos, rPosTheta, rPosQuat := p.pos, p.theta, p.quat;
    }
  }

  /** No scan object appears twice in the list. */
  ghost predicate Distinct(scans: seq<Scan>)
  {
    |scans| == 0 || (scans[0] !in scans[1..] && Distinct(scans[1..]))
  }

  /** Distinct positions of a distinct list hold distinct scans. */
  lemma {:induction false} DistinctAt(scans: seq<Scan>, p: int, q: int)
    requires Distinct(scans) && 0 <= p < |scans| && 0 <= q < |scans| && p != q
    ensures scans[p] != scans[q]
  {
    if p > 0 && q > 0 {
      DistinctAt(scans[1..], p - 1, q - 1);
    } else if p == 0 {
      assert scans[q] == scans[1..][q - 1];
    } else {
      assert scans[p] == scans[1..][p - 1];
    }
  }

  /** What the engines observe of one scan: its pose and its mode log. */
  datatype ScanState = ScanState(pose: Pose, frames: seq<int>)

  /** The states of all scans, in order. */
  function States(scans: seq<Scan>): (ss: seq<ScanState>)
    reads scans
    ensures |ss| == |scans|
    ensures forall i :: 0 <= i < |scans| ==> ss[i] == ScanState(scans[i].GetPose(), scans[i].frames)
  {
    seq(|scans|, i reads scans requires 0 <= i < |scans| => ScanState(scans[i].GetPose(), scans[i].frames))
  }

  /** The poses of a list of scan states. */
  function PosesOf(ss: seq<ScanState>): (ps: seq<Pose>)
    ensures |ps| == |ss|
    ensures forall i :: 0 <= i < |ss| ==> ps[i] == ss[i].pose
  {
    seq(|ss|, i requires 0 <= i < |ss| => ss[i].pose)
  }

  /** The states part way through a pass over scans `1 .. n-1` of a chain
      of `n` scans: scans `1 .. i-1` hold their new pose from `qs` and have
      gained their transform mode; the others are as in `ss`. */
  function UpdatedUpTo(ss: seq<ScanState>, qs: seq<Pose>, n: int, i: int): (rs: seq<ScanState>)
    requires |qs| == |ss|
    ensures |rs| == |ss|
    ensures forall j :: 0 <= j < |ss| ==>
      rs[j] == if 1 <= j < i then ScanState(qs[j], ss[j].frames + [ModeFor(j, n)]) else ss[j]
  {
    seq(|ss|, j requires 0 <= j < |ss| =>
      if 1 <= j < i then ScanState(qs[j], ss[j].frames + [ModeFor(j, n)]) else ss[j])
  }

  /** Updating scan `i` extends the finished part of the pass by one. */
  lemma UpdatedUpToStep(ss: seq<ScanState>, qs: seq<Pose>, n: int, i: int)
    requires |qs| == |ss| && 1 <= i < |ss|
    ensures UpdatedUpTo(ss, qs, n, i)[i] == ss[i]
    ensures UpdatedUpTo(ss, qs, n, i)[i := ScanState(qs[i], ss[i].frames + [ModeFor(i, n)])]
         == UpdatedUpTo(ss, qs, n, i + 1)
  {
  }

  /** At the end of the pass every scan holds its pose from `qs` (those
      outside `1 .. n-1` already did) and exactly the scans `1 .. n-1` have
      gained one mode. */
  lemma UpdatedUpToEnd(ss: seq<ScanState>, qs: seq<Pose>, n: int)
    requires |qs| == |ss|
    requires forall j :: 0 <= j < |ss| && !(1 <= j < n) ==> qs[j] == ss[j].pose
    ensures PosesOf(UpdatedUpTo(ss, qs, n, n)) == qs
    ensures forall j :: 0 <= j < |ss| ==>
      UpdatedUpTo(ss, qs, n, n)[j].frames == ss[j].frames + (if 1 <= j < n then [ModeFor(j, n)] else [])
  {
    var rs := UpdatedUpTo(ss, qs, n, n);
    forall j | 0 <= j < |ss|
      ensures rs[j].frames == ss[j].frames + (if 1 <= j < n then [ModeFor(j, n)] else [])
    {
      if !(1 <= j < n) {
        assert ss[j].frames + [] == ss[j].frames;
      }
    }
  }

  /** Mode for scan `i` of a chain of `count` scans: terminal for the last. */
  function ModeFor(i: int, count: int): (mode: int)
    ensures mode == TerminalMode <==> i == count - 1
    ensures mode == IntermediateMode <==> i != count - 1
  {
    if i == count - 1 then TerminalMode else IntermediateMode
  }
}
