/** Small dense vectors and matrices over the reals, standing in for the
    newmat ColumnVector and Matrix objects the relaxation and loop-closing
    code works with. Indices are 0-based throughout (newmat's `M(i,j)` is
    written `M[i-1][j-1]` here). */
module LinAlg {

  type Vec3 = v: seq<real> | |v| == 3 witness [0.0, 0.0, 0.0]
  type Vec4 = v: seq<real> | |v| == 4 witness [0.0, 0.0, 0.0, 0.0]
  type Vec6 = v: seq<real> | |v| == 6 witness [0.0, 0.0, 0.0, 0.0, 0.0, 0.0]
  type Vec7 = v: seq<real> | |v| == 7 witness [0.0, 0.0, 0.0, 0.0, 0.0, 0.0, 0.0]

  /** A square matrix of dimension `n`, stored row by row. */
  ghost predicate IsSquare(m: seq<seq<real>>, n: nat)
  {
    |m| == n && forall i :: 0 <= i < n ==> |m[i]| == n
  }

  type Mat6 = m: seq<seq<real>> | |m| == 6 && forall i :: 0 <= i < 6 ==> |m[i]| == 6
    witness seq(6, _ => seq(6, _ => 0.0))

  type Mat7 = m: seq<seq<real>> | |m| == 7 && forall i :: 0 <= i < 7 ==> |m[i]| == 7
    witness seq(7, _ => seq(7, _ => 0.0))

  const Zero6: Vec6 := [0.0, 0.0, 0.0, 0.0, 0.0, 0.0]

  function ZeroMat6(): (z: Mat6)
    ensures forall i, j :: 0 <= i < 6 && 0 <= j < 6 ==> z[i][j] == 0.0
  {
    seq(6, _ => seq(6, _ => 0.0))
  }

  ghost predicate IsZeroVec6(v: Vec6)
  {
    forall i :: 0 <= i < 6 ==> v[i] == 0.0
  }

  ghost predicate IsZeroMat6(m: Mat6)
  {
    forall i, j :: 0 <= i < 6 && 0 <= j < 6 ==> m[i][j] == 0.0
  }

  ghost predicate Symmetric6(m: Mat6)
  {
    forall i, j :: 0 <= i < 6 && 0 <= j < 6 ==> m[i][j] == m[j][i]
  }

  /** Row `i` of `m` times `v`. */
  function RowDot6(m: Mat6, i: nat, v: Vec6): real
    requires i < 6
  {
    m[i][0] * v[0] + m[i][1] * v[1] + m[i][2] * v[2] +
    m[i][3] * v[3] + m[i][4] * v[4] + m[i][5] * v[5]
  }

  /** The matrix-vector product `m * v`. */
  function MatVec6(m: Mat6, v: Vec6): (r: Vec6)
    ensures IsZeroVec6(v) ==> IsZeroVec6(r)
    ensures IsZeroMat6(m) ==> IsZeroVec6(r)
  {
    [RowDot6(m, 0, v), RowDot6(m, 1, v), RowDot6(m, 2, v),
     RowDot6(m, 3, v), RowDot6(m, 4, v), RowDot6(m, 5, v)]
  }

  /** `v * s` for a scalar `s` (newmat's `ColumnVector * double`). */
  function ScaleVec6(v: Vec6, s: real): (r: Vec6)
    ensures forall i :: 0 <= i < 6 ==> r[i] == v[i] * s
  {
    [v[0] * s, v[1] * s, v[2] * s, v[3] * s, v[4] * s, v[5] * s]
  }

  /** `m * s` for a scalar `s` (newmat's `Matrix * double`). */
  function ScaleMat6(m: Mat6, s: real): (r: Mat6)
    ensures forall i, j :: 0 <= i < 6 && 0 <= j < 6 ==> r[i][j] == m[i][j] * s
    ensures Symmetric6(m) ==> Symmetric6(r)
  {
    seq(6, i requires 0 <= i < 6 => seq(6, j requires 0 <= j < 6 => m[i][j] * s))
  }

  /** `-m`. */
  function NegMat6(m: Mat6): (r: Mat6)
    ensures forall i, j :: 0 <= i < 6 && 0 <= j < 6 ==> r[i][j] == -m[i][j]
  {
    seq(6, i requires 0 <= i < 6 => seq(6, j requires 0 <= j < 6 => -m[i][j]))
  }

  /** The 6x6 identity (newmat's `IdentityMatrix(6)`). */
  function Identity6(): (r: Mat6)
    ensures forall i, j :: 0 <= i < 6 && 0 <= j < 6 ==> r[i][j] == if i == j then 1.0 else 0.0
  {
    seq(6, i requires 0 <= i < 6 => seq(6, j requires 0 <= j < 6 => if i == j then 1.0 else 0.0))
  }

  /** `m` with entry `(i, j)` replaced by `x` (newmat's `m.element(i, j) = x`). */
  function Set6(m: Mat6, i: nat, j: nat, x: real): (r: Mat6)
    requires i < 6 && j < 6
    ensures r[i][j] == x
    ensures forall p, q :: 0 <= p < 6 && 0 <= q < 6 && (p != i || q != j) ==> r[p][q] == m[p][q]
  {
    m[i := m[i][j := x]]
  }
}
