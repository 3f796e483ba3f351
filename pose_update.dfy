/** The pose-update pass of the Lu-Milios relaxation: scans `1 .. n-1` of a chain are
    corrected one after another, each by a 6-vector `result` computed from
    its current pose (position minus `result[0..3]`, Euler angles minus
    `result[3..6]`), and committed with `transformToEuler`; the lengths of
    the position parts of the corrections are summed. In
    `lum6DEuler::doGraphSlam6D` the correction is `Ha.i() * X_i`. */
module PoseUpdate {
  import opened LinAlg
  import opened Scans

  /** The pose committed after a correction: position minus the first
      three entries, Euler angles minus the last three; the quaternion is
      derived from the new angles. */
  function CorrectedPose(p: Pose, result: Vec6, rot: Rotations): (q: Pose)
    ensures forall k :: 0 <= k < 3 ==>
      q.pos[k] + result[k] == p.pos[k] && q.theta[k] + result[k + 3] == p.theta[k]
    ensures q.quat == rot.eulerToQuat(q.theta)
  {
    var pos := [p.pos[0] - result[0], p.pos[1] - result[1], p.pos[2] - result[2]];
    var theta := [p.theta[0] - result[3], p.theta[1] - result[4], p.theta[2] - result[5]];
    Pose(pos, theta, rot.eulerToQuat(theta))
  }

  /** The position part of a correction, whose length enters the sum. */
  function PositionShift(result: Vec6): (v: Vec3)
    ensures forall k :: 0 <= k < 3 ==> v[k] == result[k]
  {
    [result[0], result[1], result[2]]
  }

  /** `len` is a norm on positions: never negative, and zero exactly at the
      zero vector (the source's `Len` is the Euclidean length). */
  ghost predicate IsNorm(len: Vec3 -> real)
  {
    forall v {:trigger len(v)} :: len(v) >= 0.0 && (len(v) == 0.0 <==> v == [0.0, 0.0, 0.0])
  }

  /** The poses after scans `1 .. n-1` have been corrected by `corr`; every
      other scan keeps its pose. */
  function CorrectedPoses(ps: seq<Pose>, n: int, corr: (Pose, int) -> Vec6, rot: Rotations): (qs: seq<Pose>)
    ensures |qs| == |ps|
    ensures forall i :: 0 <= i < |ps| && !(1 <= i < n) ==> qs[i] == ps[i]
    ensures forall i :: 0 <= i < |ps| && 1 <= i < n ==> qs[i] == CorrectedPose(ps[i], corr(ps[i], i), rot)
  {
    seq(|ps|, i requires 0 <= i < |ps| =>
      if 1 <= i < n then CorrectedPose(ps[i], corr(ps[i], i), rot) else ps[i])
  }

  /** The sum of the position-correction lengths of scans `1 .. k-1`. */
  function SumShifts(ps: seq<Pose>, corr: (Pose, int) -> Vec6, len: Vec3 -> real, k: int): real
    requires k <= |ps|
    decreases k
  {
    if k <= 1 then 0.0
    else SumShifts(ps, corr, len, k - 1) + len(PositionShift(corr(ps[k - 1], k - 1)))
  }

  /** With a norm, the sum is never negative. */
  lemma {:induction false} SumShiftsNonNegative(ps: seq<Pose>, corr: (Pose, int) -> Vec6, len: Vec3 -> real, k: int)
    requires IsNorm(len) && k <= |ps|
    ensures SumShifts(ps, corr, len, k) >= 0.0
    decreases k
  {
    if k > 1 {
      SumShiftsNonNegative(ps, corr, len, k - 1);
      assert len(PositionShift(corr(ps[k - 1], k - 1))) >= 0.0;
    }
  }

  /** With a norm, the sum is zero exactly when no position was corrected. */
  lemma {:induction false} SumShiftsZero(ps: seq<Pose>, corr: (Pose, int) -> Vec6, len: Vec3 -> real, k: int)
    requires IsNorm(len) && k <= |ps|
    ensures SumShifts(ps, corr, len, k) == 0.0 <==>
      forall i :: 1 <= i < k ==> PositionShift(corr(ps[i], i)) == [0.0, 0.0, 0.0]
    decreases k
  {
    if k > 1 {
      SumShiftsZero(ps, corr, len, k - 1);
      SumShiftsNonNegative(ps, corr, len, k - 1);
      assert len(PositionShift(corr(ps[k - 1], k - 1))) >= 0.0;
    }
  }

  /** A correction of all zeros leaves position and angles as they were. */
  lemma ZeroCorrectionKeepsPose(p: Pose, result: Vec6, rot: Rotations)
    requires IsZeroVec6(result)
    ensures CorrectedPose(p, result, rot).pos == p.pos
    ensures CorrectedPose(p, result, rot).theta == p.theta
    ensures PositionShift(result) == [0.0, 0.0, 0.0]
  {
    var q := CorrectedPose(p, result, rot);
    assert q.pos == [q.pos[0], q.pos[1], q.pos[2]];
    assert p.pos == [p.pos[0], p.pos[1], p.pos[2]];
    assert q.theta == [q.theta[0], q.theta[1], q.theta[2]];
    assert p.theta == [p.theta[0], p.theta[1], p.theta[2]];
  }

  /** Correct scan `i` of `scans` by `corr` and commit the new pose with
      transform mode `mode`; return the correction. No other scan changes. */
  method CorrectScan(scans: seq<Scan>, i: int, corr: (Pose, int) -> Vec6, mode: int, rot: Rotations)
    returns (result: Vec6)
    requires 0 <= i < |scans| && Distinct(scans)
    modifies scans[i]
    ensures var s := old(States(scans))[i];
      && result == corr(s.pose, i)
      && States(scans) == old(States(scans))[i := ScanState(CorrectedPose(s.pose, result, rot), s.frames + [mode])]
  {
    forall j | 0 <= j < |scans| && j != i
      ensures scans[j] != scans[i]
    {
      DistinctAt(scans, i, j);
    }
    var scan := scans[i];
    var p := scan.GetPose();
    result := corr(p, i);
    var q := CorrectedPose(p, result, rot);
    scan.TransformToEuler(q.pos, q.theta, mode, rot);
  }

  /** One turn of the pass: correct scan `i` and add the length of its
      position correction to `sum0`. */
  method UpdateOne(scans: seq<Scan>, i: int, n: int, corr: (Pose, int) -> Vec6, len: Vec3 -> real, rot: Rotations,
                   ghost ss: seq<ScanState>, ghost qs: seq<Pose>, sum0: real)
    returns (sum: real)
    requires 1 <= i < n <= |scans| && Distinct(scans) && |ss| == |scans|
    requires qs == CorrectedPoses(PosesOf(ss), n, corr, rot)
    requires States(scans) == UpdatedUpTo(ss, qs, n, i)
    requires sum0 == SumShifts(PosesOf(ss), corr, len, i)
    modifies scans[i]
    ensures States(scans) == UpdatedUpTo(ss, qs, n, i + 1)
    ensures sum == SumShifts(PosesOf(ss), corr, len, i + 1)
  {
    UpdatedUpToStep(ss, qs, n, i);
    var result := CorrectScan(scans, i, corr, ModeFor(i, n), rot);
    sum := sum0 + len(PositionShift(result));
  }

  /** Correct scans `1 .. n-1` in order, committing each with its transform
      mode (terminal for scan `n-1`), and return the sum of the lengths of
      their position corrections. */
  method UpdatePoses(scans: seq<Scan>, n: int, corr: (Pose, int) -> Vec6, len: Vec3 -> real, rot: Rotations)
    returns (sum: real)
    requires 1 <= n <= |scans| && Distinct(scans)
    modifies scans
    ensures var ss := old(States(scans));
      && States(scans) == UpdatedUpTo(ss, CorrectedPoses(PosesOf(ss), n, corr, rot), n, n)
      && sum == SumShifts(PosesOf(ss), corr, len, n)
  {
    ghost var ss := States(scans);
    ghost var qs := CorrectedPoses(PosesOf(ss), n, corr, rot);
    sum := 0.0;
    var i := 1;
    while i < n
      invariant 1 <= i <= n
      invariant States(scans) == UpdatedUpTo(ss, qs, n, i)
      invariant sum == SumShifts(PosesOf(ss), corr, len, i)
    {
      sum := UpdateOne(scans, i, n, corr, len, rot, ss, qs, sum);
      i := i + 1;
    }
  }
}
