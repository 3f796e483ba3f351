/** Per-link statistics of the Lu-Milios relaxation (`CalculateLinks3D` of
    src/lum6Deuler.cc): from the point pairs of one link, the 6x6 moment
    matrix MM and the 6-vector MZ, both scaled by the inverse residual
    variance of the link's linearised pose-difference estimate. */
module LumLinks {
  import opened LinAlg

  datatype Point = Point(x: real, y: real, z: real)

  /** A corresponding point pair: `p1` in the first scan, `p2` in the second. */
  datatype PtPair = PtPair(p1: Point, p2: Point)

  /** The numeric operations the statistics need and this model leaves
      opaque: newmat's `MM.i()` and the floating-point reciprocal `1.0 / v`
      (which the source also evaluates at `v == 0`, giving an infinity). */
  datatype LinkNumerics = LinkNumerics(inverse: Mat6 -> Mat6, recip: real -> real)

  /** The reciprocal agrees with real division wherever that is defined. */
  ghost predicate ExactReciprocal(num: LinkNumerics)
  {
    forall v: real {:trigger num.recip(v)} :: v != 0.0 ==> num.recip(v) == 1.0 / v
  }

  /** The running sums of one link: coordinate sums of the pair midpoints
      (`sx`, `sy`, `sz`), the sums of their squares taken two at a time
      (`xpy`, `xpz`, `ypz`), their products (`xy`, `xz`, `yz`) and `mz`. */
  datatype Moments = Moments(sx: real, sy: real, sz: real,
                             xpy: real, xpz: real, ypz: real,
                             xy: real, xz: real, yz: real,
                             mz: Vec6)

  const NoMoments: Moments :=
    Moments(0.0, 0.0, 0.0, 0.0, 0.0, 0.0, 0.0, 0.0, 0.0, Zero6)

  function Midpoint(p: PtPair): Point
  {
    Point((p.p1.x + p.p2.x) / 2.0, (p.p1.y + p.p2.y) / 2.0, (p.p1.z + p.p2.z) / 2.0)
  }

  /** What one pair adds to the running sums. */
  function PairMoments(p: PtPair): Moments
  {
    var u := Midpoint(p);
    var dx, dy, dz := p.p1.x - p.p2.x, p.p1.y - p.p2.y, p.p1.z - p.p2.z;
    Moments(u.x, u.y, u.z,
            u.x * u.x + u.y * u.y, u.x * u.x + u.z * u.z, u.y * u.y + u.z * u.z,
            u.x * u.y, u.x * u.z, u.y * u.z,
            [dx, dy, dz, -u.z * dy + u.y * dz, -u.y * dx + u.x * dy, u.z * dx - u.x * dz])
  }

  function AddMoments(s: Moments, t: Moments): Moments
  {
    Moments(s.sx + t.sx, s.sy + t.sy, s.sz + t.sz,
            s.xpy + t.xpy, s.xpz + t.xpz, s.ypz + t.ypz,
            s.xy + t.xy, s.xz + t.xz, s.yz + t.yz,
            [s.mz[0] + t.mz[0], s.mz[1] + t.mz[1], s.mz[2] + t.mz[2],
             s.mz[3] + t.mz[3], s.mz[4] + t.mz[4], s.mz[5] + t.mz[5]])
  }

  /** The sums over all pairs, accumulated in pair order. */
  function SumMoments(uk: seq<PtPair>): Moments
  {
    SumMomentsTo(uk, |uk|)
  }

  /** The same sums over the first `n` pairs. */
  function SumMomentsTo(uk: seq<PtPair>, n: nat): Moments
    requires n <= |uk|
  {
    if n == 0 then NoMoments
    else AddMoments(SumMomentsTo(uk, n - 1), PairMoments(uk[n - 1]))
  }

  /** Sum over the pairs of coordinate `k` (0 = x, 1 = y, 2 = z) of `p1 - p2`. */
  function DiffSum(uk: seq<PtPair>, k: nat): real
    requires k < 3
  {
    DiffSumTo(uk, |uk|, k)
  }

  /** The same sum over the first `n` pairs. */
  function DiffSumTo(uk: seq<PtPair>, n: nat, k: nat): real
    requires k < 3 && n <= |uk|
  {
    if n == 0 then 0.0
    else
      var p := uk[n - 1];
      DiffSumTo(uk, n - 1, k) +
      (if k == 0 then p.p1.x - p.p2.x else if k == 1 then p.p1.y - p.p2.y else p.p1.z - p.p2.z)
  }

  /** The first three entries of MZ are the coordinate-wise sums of the pair
      differences. */
  lemma TranslationPartOfMZ(uk: seq<PtPair>, k: nat)
    requires k < 3
    ensures SumMoments(uk).mz[k] == DiffSum(uk, k)
  {
    TranslationPartTo(uk, |uk|, k);
  }

  lemma {:induction false} TranslationPartTo(uk: seq<PtPair>, n: nat, k: nat)
    requires k < 3 && n <= |uk|
    ensures SumMomentsTo(uk, n).mz[k] == DiffSumTo(uk, n, k)
  {
    if n > 0 {
      TranslationPartTo(uk, n - 1, k);
    }
  }

  /** The symmetric matrix MM built from a pair count and the sums. */
  function MomentMatrix(m: int, s: Moments): (mm: Mat6)
    ensures Symmetric6(mm)
    ensures forall i :: 0 <= i < 3 ==> mm[i][i] == m as real
  {
    var m := m as real;
    [[ m,     0.0,   0.0,   0.0,    -s.sy,  s.sz  ],
     [ 0.0,   m,     0.0,   -s.sz,  s.sx,   0.0   ],
     [ 0.0,   0.0,   m,     s.sy,   0.0,    -s.sx ],
     [ 0.0,   -s.sz, s.sy,  s.ypz,  -s.xz,  -s.xy ],
     [ -s.sy, s.sx,  0.0,   -s.xz,  s.xpy,  -s.yz ],
     [ s.sz,  0.0,   -s.sx, -s.xy,  -s.yz,  s.xpz ]]
  }

  /** With a single pair, MM is singular: a rotation about the x axis
      through the pair's midpoint lies in its kernel, so `MM.i()` has no
      exact result for such a link. */
  lemma SinglePairMomentsSingular(p: PtPair)
    ensures var u := Midpoint(p);
      MatVec6(MomentMatrix(1, SumMoments([p])), [0.0, u.z, -u.y, 1.0, 0.0, 0.0]) == Zero6
  {
    SingleSum(p);
    PairKernel(p);
  }

  lemma PairKernel(p: PtPair)
    ensures var u := Midpoint(p);
      MatVec6(MomentMatrix(1, PairMoments(p)), [0.0, u.z, -u.y, 1.0, 0.0, 0.0]) == Zero6
  {
    var u := Midpoint(p);
    MidpointKernel(PairMoments(p), u.x, u.y, u.z);
  }

  /** The sums over a single pair are that pair's contribution. */
  lemma SingleSum(p: PtPair)
    ensures SumMoments([p]) == PairMoments(p)
  {
    var uk := [p];
    assert SumMomentsTo(uk, 0) == NoMoments && uk[0] == p;
    assert SumMoments(uk) == AddMoments(SumMomentsTo(uk, 0), PairMoments(uk[0]));
    AddNoMoments(PairMoments(p));
  }

  lemma AddNoMoments(t: Moments)
    ensures AddMoments(NoMoments, t) == t
  {
    assert AddMoments(NoMoments, t).mz == t.mz;
  }

  /** The kernel vector of the moment matrix of one midpoint `(x, y, z)`. */
  lemma MidpointKernel(s: Moments, x: real, y: real, z: real)
    requires s.sx == x && s.sy == y && s.sz == z
    requires s.ypz == y * y + z * z && s.xz == x * z && s.xy == x * y
    ensures MatVec6(MomentMatrix(1, s), [0.0, z, -y, 1.0, 0.0, 0.0]) == Zero6
  {
    var mm, v := MomentMatrix(1, s), [0.0, z, -y, 1.0, 0.0, 0.0];
    assert RowDot6(mm, 1, v) == z - z;
    assert RowDot6(mm, 2, v) == -y + y;
    assert RowDot6(mm, 3, v) == -(z * z) - y * y + (y * y + z * z);
    assert RowDot6(mm, 4, v) == x * z - x * z;
    assert RowDot6(mm, 5, v) == x * y - x * y;
  }

  /** The linearised pose difference `D = MM.i() * MZ`. */
  function Estimate(uk: seq<PtPair>, num: LinkNumerics): Vec6
  {
    var s := SumMoments(uk);
    MatVec6(num.inverse(MomentMatrix(|uk|, s)), s.mz)
  }

  /** The squared residual of one pair under the pose difference `d`. */
  function PairResidual(p: PtPair, d: Vec6): (r: real)
    ensures r >= 0.0
  {
    var u := Midpoint(p);
    var ex := p.p1.x - p.p2.x - (d[0] - u.y * d[4] + u.z * d[5]);
    var ey := p.p1.y - p.p2.y - (d[1] - u.z * d[3] + u.x * d[4]);
    var ez := p.p1.z - p.p2.z - (d[2] + u.y * d[3] - u.x * d[5]);
    ex * ex + ey * ey + ez * ez
  }

  /** The sum of squared residuals over the pairs, in pair order. */
  function Residual(uk: seq<PtPair>, d: Vec6): (r: real)
    ensures r >= 0.0
  {
    ResidualTo(uk, |uk|, d)
  }

  /** The same sum over the first `n` pairs. */
  function ResidualTo(uk: seq<PtPair>, n: nat, d: Vec6): (r: real)
    requires n <= |uk|
    ensures r >= 0.0
  {
    if n == 0 then 0.0 else ResidualTo(uk, n - 1, d) + PairResidual(uk[n - 1], d)
  }

  /** The degrees of freedom the residual is divided by: `2m - 3`. It is odd,
      so never zero, and it is `-1` for a single pair. */
  function DegreesOfFreedom(m: int): (dof: int)
    ensures dof != 0
    ensures m == 1 ==> dof == -1
    ensures m >= 2 <==> dof > 0
  {
    2 * m - 3
  }

  /** The residual variance `ss / (2m - 3)` of a link with pairs `uk`. */
  function Variance(uk: seq<PtPair>, num: LinkNumerics): real
  {
    Residual(uk, Estimate(uk, num)) / DegreesOfFreedom(|uk|) as real
  }

  /** The factor `1.0 / ss` both outputs of a link are scaled by. */
  function InfoScale(uk: seq<PtPair>, num: LinkNumerics): real
  {
    num.recip(Variance(uk, num))
  }

  /** The `CD` entry of a link whose scale factor is `s`: `MZ * s`, or all
      zeros without pairs. */
  function ScaledCD(uk: seq<PtPair>, s: real): Vec6
  {
    if |uk| > 0 then ScaleVec6(SumMoments(uk).mz, s) else Zero6
  }

  /** The `C` entry of a link whose scale factor is `s`: `MM * s`, or all
      zeros without pairs. */
  function ScaledC(uk: seq<PtPair>, s: real): Mat6
  {
    if |uk| > 0 then ScaleMat6(MomentMatrix(|uk|, SumMoments(uk)), s) else ZeroMat6()
  }

  /** The `CD` entry of a link: both entries carry the same factor `1/ss`. */
  function LinkCD(uk: seq<PtPair>, num: LinkNumerics): Vec6
  {
    ScaledCD(uk, InfoScale(uk, num))
  }

  /** The `C` entry of a link. */
  function LinkC(uk: seq<PtPair>, num: LinkNumerics): Mat6
  {
    ScaledC(uk, InfoScale(uk, num))
  }

  /** A link without point pairs contributes an all-zero vector and matrix. */
  lemma EmptyLinkIsZero(num: LinkNumerics)
    ensures IsZeroVec6(LinkCD([], num)) && IsZeroMat6(LinkC([], num))
  {
  }

  /** For a link with pairs, the information matrix is the scale times the
      symmetric moment matrix, whose first three diagonal entries are the
      pair count. */
  lemma InformationMatrixShape(uk: seq<PtPair>, s: real)
    requires |uk| > 0
    ensures Symmetric6(ScaledC(uk, s))
    ensures forall i :: 0 <= i < 3 ==> ScaledC(uk, s)[i][i] == |uk| as real * s
    ensures forall i, j :: 0 <= i < 6 && 0 <= j < 6 ==>
      ScaledC(uk, s)[i][j] == MomentMatrix(|uk|, SumMoments(uk))[i][j] * s
  {
  }

  /** For a link with pairs, the vector is the scale times MZ, and its first
      three entries are the scale times the sums of the pair differences. */
  lemma InformationVectorShape(uk: seq<PtPair>, s: real)
    requires |uk| > 0
    ensures forall i :: 0 <= i < 6 ==> ScaledCD(uk, s)[i] == SumMoments(uk).mz[i] * s
    ensures forall k :: 0 <= k < 3 ==> ScaledCD(uk, s)[k] == DiffSum(uk, k) * s
  {
    forall k | 0 <= k < 3
      ensures ScaledCD(uk, s)[k] == DiffSum(uk, k) * s
    {
      ScaledTranslationPart(uk, s, k);
    }
  }

  /** Entry `k < 3` of the scaled vector is the scale times the sum of the
      pair differences in coordinate `k`. */
  lemma ScaledTranslationPart(uk: seq<PtPair>, s: real, k: nat)
    requires |uk| > 0 && k < 3
    ensures ScaledCD(uk, s)[k] == DiffSum(uk, k) * s
  {
    var mz := SumMoments(uk).mz;
    TranslationPartOfMZ(uk, k);
    var d := DiffSum(uk, k);
    assert mz[k] == d;
  }

  /** With two or more pairs the variance is never negative; the scale is
      positive once the residual is. */
  lemma {:induction false} VarianceOfProperLink(uk: seq<PtPair>, num: LinkNumerics)
    requires |uk| >= 2
    ensures Variance(uk, num) >= 0.0
    ensures ExactReciprocal(num) && Residual(uk, Estimate(uk, num)) > 0.0 ==> InfoScale(uk, num) > 0.0
  {
    var r := Residual(uk, Estimate(uk, num));
    var dof := DegreesOfFreedom(|uk|) as real;
    assert dof > 0.0;
    assert r / dof >= 0.0;
  }

  /** With a single pair the divisor is `-1`: the variance is the negated
      residual, never positive, and the information scale is negative as
      soon as the residual is positive. */
  lemma {:induction false} SinglePairVariance(uk: seq<PtPair>, num: LinkNumerics)
    requires |uk| == 1
    ensures Variance(uk, num) == -Residual(uk, Estimate(uk, num))
    ensures Variance(uk, num) <= 0.0
    ensures ExactReciprocal(num) && Residual(uk, Estimate(uk, num)) > 0.0 ==> InfoScale(uk, num) < 0.0
  {
    var r := Residual(uk, Estimate(uk, num));
    assert DegreesOfFreedom(|uk|) as real == -1.0;
    assert r / -1.0 == -r;
  }

  /** The first pass over a link's pairs: the running sums. */
  method AccumulateMoments(uk: seq<PtPair>) returns (sums: Moments)
    ensures sums == SumMoments(uk)
  {
    var sx, sy, sz, xy, yz, xz, ypz, xpz, xpy := 0.0, 0.0, 0.0, 0.0, 0.0, 0.0, 0.0, 0.0, 0.0;
    var mz: Vec6 := Zero6;
    var j := 0;
    while j < |uk|
      invariant 0 <= j <= |uk|
      invariant Moments(sx, sy, sz, xpy, xpz, ypz, xy, xz, yz, mz) == SumMomentsTo(uk, j)
    {
      var t := PairMoments(uk[j]);
      sx, sy, sz := sx + t.sx, sy + t.sy, sz + t.sz;
      xpy, xpz, ypz := xpy + t.xpy, xpz + t.xpz, ypz + t.ypz;
      xy, xz, yz := xy + t.xy, xz + t.xz, yz + t.yz;
      mz := [mz[0] + t.mz[0], mz[1] + t.mz[1], mz[2] + t.mz[2],
             mz[3] + t.mz[3], mz[4] + t.mz[4], mz[5] + t.mz[5]];
      j := j + 1;
    }
    sums := Moments(sx, sy, sz, xpy, xpz, ypz, xy, xz, yz, mz);
  }

  /** The second pass over a link's pairs: the sum of squared residuals
      under the estimate `d`. */
  method AccumulateResidual(uk: seq<PtPair>, d: Vec6) returns (ss: real)
    ensures ss == Residual(uk, d)
  {
    ss := 0.0;
    var j := 0;
    while j < |uk|
      invariant 0 <= j <= |uk|
      invariant ss == ResidualTo(uk, j, d)
    {
      ss := ss + PairResidual(uk[j], d);
      j := j + 1;
    }
  }

  /** The statistic of one link, as the body of the source's link loop
      computes it: the sums, the estimate, the residual, then the scaling;
      without pairs, the zero vector and matrix. */
  method LinkStatistic(uk: seq<PtPair>, num: LinkNumerics) returns (cd: Vec6, c: Mat6)
    ensures cd == LinkCD(uk, num) && c == LinkC(uk, num)
  {
    var m := |uk|;
    cd, c := Zero6, ZeroMat6();
    if m > 0 {
      var sums := AccumulateMoments(uk);
      var mm := MomentMatrix(m, sums);
      var d := MatVec6(num.inverse(mm), sums.mz);
      var ss := AccumulateResidual(uk, d);
      ss := ss / (2 * m - 3) as real;
      ss := num.recip(ss);
      cd, c := ScaleVec6(sums.mz, ss), ScaleMat6(mm, ss);
    }
  }

  /** `CalculateLinks3D`: append one `CD` entry and one `C` entry per link,
      in link order, to the lists `cd0` and `c0`. */
  method CalculateLinks3D(ptpairs: seq<seq<PtPair>>, cd0: seq<Vec6>, c0: seq<Mat6>, num: LinkNumerics)
    returns (cd: seq<Vec6>, c: seq<Mat6>)
    ensures |cd| == |cd0| + |ptpairs| && |c| == |c0| + |ptpairs|
    ensures cd[..|cd0|] == cd0 && c[..|c0|] == c0
    ensures forall i :: 0 <= i < |ptpairs| ==>
      cd[|cd0| + i] == LinkCD(ptpairs[i], num) && c[|c0| + i] == LinkC(ptpairs[i], num)
  {
    cd, c := cd0, c0;
    var i := 0;
    while i < |ptpairs|
      invariant 0 <= i <= |ptpairs|
      invariant |cd| == |cd0| + i && |c| == |c0| + i
      invariant cd[..|cd0|] == cd0 && c[..|c0|] == c0
      invariant forall k :: 0 <= k < i ==>
        cd[|cd0| + k] == LinkCD(ptpairs[k], num) && c[|c0| + k] == LinkC(ptpairs[k], num)
    {
      var mz, mm := LinkStatistic(ptpairs[i], num);
      cd, c := cd + [mz], c + [mm];
      i := i + 1;
    }
  }
}
