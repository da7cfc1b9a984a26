/**
 * Dense real vectors and square matrices, with the two products the
 * calculator takes from its math library: a row vector times a matrix, and a
 * matrix times a matrix.  The lemmas give the algebra the propagation proofs
 * need: identities, linearity and associativity.
 */
module Matrices {

  type Vector = seq<real>
  type Matrix = seq<Vector>

  /** `m` has `rows` rows of `cols` entries each. */
  predicate IsMatrix(m: Matrix, rows: nat, cols: nat)
  {
    |m| == rows && forall i :: 0 <= i < |m| ==> |m[i]| == cols
  }

  predicate IsSquare(m: Matrix, n: nat)
  {
    IsMatrix(m, n, n)
  }

  /** Sum of a[k] * b[k] over all k. */
  function Dot(a: Vector, b: Vector): real
    requires |a| == |b|
  {
    if |a| == 0 then 0.0 else Dot(a[..|a| - 1], b[..|b| - 1]) + a[|a| - 1] * b[|b| - 1]
  }

  /** Column `j` of `m`. */
  function Column(m: Matrix, j: nat): (c: Vector)
    requires forall i :: 0 <= i < |m| ==> j < |m[i]|
    ensures |c| == |m|
    ensures forall i :: 0 <= i < |m| ==> c[i] == m[i][j]
  {
    seq(|m|, i requires 0 <= i < |m| => m[i][j])
  }

  function VecAdd(a: Vector, b: Vector): (c: Vector)
    requires |a| == |b|
    ensures |c| == |a|
  {
    seq(|a|, k requires 0 <= k < |a| => a[k] + b[k])
  }

  function Scale(x: real, a: Vector): (c: Vector)
    ensures |c| == |a|
  {
    seq(|a|, k requires 0 <= k < |a| => x * a[k])
  }

  function Zeros(n: nat): (c: Vector)
    ensures |c| == n
  {
    seq(n, k => 0.0)
  }

  /** The row vector `v` times the square matrix `m`, computed column by column: entry j is v . column j. */
  function VecMat(v: Vector, m: Matrix): (r: Vector)
    requires IsSquare(m, |v|)
    ensures |r| == |v|
  {
    seq(|v|, j requires 0 <= j < |v| => Dot(v, Column(m, j)))
  }

  /**
   * The product `a * b` of two n x n matrices, computed row by row (row i is
   * a[i] * b): entry (i, j) is row i of `a` dotted with column j of `b`.
   */
  function MatMul(a: Matrix, b: Matrix): (c: Matrix)
    requires IsSquare(a, |a|) && IsSquare(b, |a|)
    ensures IsSquare(c, |a|)
    ensures forall i, j :: 0 <= i < |a| && 0 <= j < |a| ==> c[i][j] == Dot(a[i], Column(b, j))
  {
    seq(|a|, i requires 0 <= i < |a| => VecMat(a[i], b))
  }

  function Identity(n: nat): (m: Matrix)
    ensures IsSquare(m, n)
  {
    seq(n, i requires 0 <= i < n => seq(n, j requires 0 <= j < n => if i == j then 1.0 else 0.0))
  }

  /** m^k, with m^0 the identity and m^(k+1) = m * m^k. */
  function MatPow(m: Matrix, k: nat): (p: Matrix)
    requires IsSquare(m, |m|)
    ensures IsSquare(p, |m|)
  {
    if k == 0 then Identity(|m|) else MatMul(m, MatPow(m, k - 1))
  }

  /** The combination sum of v[i] * m[i] of the rows of `m`. */
  function Combination(v: Vector, m: Matrix, cols: nat): (r: Vector)
    requires IsMatrix(m, |v|, cols)
    ensures |r| == cols
  {
    if |v| == 0 then Zeros(cols)
    else VecAdd(Combination(v[..|v| - 1], m[..|m| - 1], cols), Scale(v[|v| - 1], m[|m| - 1]))
  }

  /** The dot products of every row of `m` with `c`. */
  function RowDots(m: Matrix, c: Vector): (r: Vector)
    requires forall i :: 0 <= i < |m| ==> |m[i]| == |c|
    ensures |r| == |m|
  {
    seq(|m|, i requires 0 <= i < |m| => Dot(m[i], c))
  }

  // ----- Dot products -----

  lemma {:induction false} DotCommutes(a: Vector, b: Vector)
    requires |a| == |b|
    ensures Dot(a, b) == Dot(b, a)
  {
    if |a| > 0 {
      DotCommutes(a[..|a| - 1], b[..|b| - 1]);
    }
  }

  /** Dot product with the unit vector along `j` picks entry j. */
  lemma {:induction false} DotUnit(v: Vector, u: Vector, j: nat)
    requires |u| == |v|
    requires forall i :: 0 <= i < |u| ==> u[i] == if i == j then 1.0 else 0.0
    ensures Dot(v, u) == if j < |v| then v[j] else 0.0
  {
    if |v| > 0 {
      var p := |v| - 1;
      DotUnit(v[..p], u[..p], j);
    }
  }

  lemma {:induction false} DotAddLeft(a: Vector, b: Vector, c: Vector)
    requires |a| == |b| == |c|
    ensures Dot(VecAdd(a, b), c) == Dot(a, c) + Dot(b, c)
  {
    if |a| > 0 {
      var p := |a| - 1;
      assert VecAdd(a, b)[..p] == VecAdd(a[..p], b[..p]);
      DotAddLeft(a[..p], b[..p], c[..p]);
    }
  }

  lemma {:induction false} DotScaleLeft(x: real, a: Vector, c: Vector)
    requires |a| == |c|
    ensures Dot(Scale(x, a), c) == x * Dot(a, c)
  {
    if |a| > 0 {
      var p := |a| - 1;
      assert forall k :: 0 <= k < p ==> Scale(x, a)[..p][k] == Scale(x, a[..p])[k];
      assert Scale(x, a)[..p] == Scale(x, a[..p]);
      DotScaleLeft(x, a[..p], c[..p]);
      assert x * (Dot(a[..p], c[..p]) + a[p] * c[p]) == x * Dot(a[..p], c[..p]) + (x * a[p]) * c[p];
    }
  }

  lemma DotZerosLeft(c: Vector)
    ensures Dot(Zeros(|c|), c) == 0.0
  {
    DotUnit(c, Zeros(|c|), |c|);
    DotCommutes(Zeros(|c|), c);
  }

  // ----- Row combinations -----

  /** v * m, computed column by column, is the combination of the rows of m. */
  lemma {:induction false} ColumnDotIsCombination(v: Vector, m: Matrix, cols: nat, j: nat)
    requires IsMatrix(m, |v|, cols) && j < cols
    ensures Dot(v, Column(m, j)) == Combination(v, m, cols)[j]
  {
    if |v| > 0 {
      var p := |v| - 1;
      assert Column(m, j)[..p] == Column(m[..p], j);
      ColumnDotIsCombination(v[..p], m[..p], cols, j);
    }
  }

  /** v * m is the combination of the rows of `m` weighted by the entries of `v`. */
  lemma VecMatIsCombination(v: Vector, m: Matrix)
    requires IsSquare(m, |v|)
    ensures VecMat(v, m) == Combination(v, m, |v|)
  {
    forall j | 0 <= j < |v|
      ensures VecMat(v, m)[j] == Combination(v, m, |v|)[j]
    {
      ColumnDotIsCombination(v, m, |v|, j);
    }
  }

  /** (sum_i v[i] m[i]) . c == sum_i v[i] (m[i] . c) */
  lemma {:induction false} CombinationDot(v: Vector, m: Matrix, c: Vector)
    requires IsMatrix(m, |v|, |c|)
    ensures Dot(Combination(v, m, |c|), c) == Dot(v, RowDots(m, c))
  {
    if |v| == 0 {
      DotZerosLeft(c);
    } else {
      var p := |v| - 1;
      var rest := Combination(v[..p], m[..p], |c|);
      DotAddLeft(rest, Scale(v[p], m[p]), c);
      DotScaleLeft(v[p], m[p], c);
      CombinationDot(v[..p], m[..p], c);
      assert RowDots(m, c)[..p] == RowDots(m[..p], c);
    }
  }

  // ----- Products -----

  lemma VecMatIdentity(v: Vector)
    ensures VecMat(v, Identity(|v|)) == v
  {
    var n := |v|;
    forall j | 0 <= j < n
      ensures VecMat(v, Identity(n))[j] == v[j]
    {
      DotUnit(v, Column(Identity(n), j), j);
    }
  }

  lemma MatMulIdentityRight(m: Matrix)
    requires IsSquare(m, |m|)
    ensures MatMul(m, Identity(|m|)) == m
  {
    forall i | 0 <= i < |m|
      ensures MatMul(m, Identity(|m|))[i] == m[i]
    {
      VecMatIdentity(m[i]);
    }
  }

  lemma MatMulIdentityLeft(m: Matrix)
    requires IsSquare(m, |m|)
    ensures MatMul(Identity(|m|), m) == m
  {
    var n := |m|;
    forall i | 0 <= i < n
      ensures MatMul(Identity(n), m)[i] == m[i]
    {
      forall j | 0 <= j < n
        ensures MatMul(Identity(n), m)[i][j] == m[i][j]
      {
        DotCommutes(Identity(n)[i], Column(m, j));
        DotUnit(Column(m, j), Identity(n)[i], i);
      }
    }
  }

  /** (v * a) * b == v * (a * b) */
  lemma VecMatAssociative(v: Vector, a: Matrix, b: Matrix)
    requires IsSquare(a, |v|) && IsSquare(b, |v|)
    ensures VecMat(VecMat(v, a), b) == VecMat(v, MatMul(a, b))
  {
    var n := |v|;
    forall j | 0 <= j < n
      ensures VecMat(VecMat(v, a), b)[j] == VecMat(v, MatMul(a, b))[j]
    {
      var c := Column(b, j);
      VecMatIsCombination(v, a);
      CombinationDot(v, a, c);
      assert Column(MatMul(a, b), j) == RowDots(a, c);
    }
  }

  /** (a * b) * c == a * (b * c) */
  lemma MatMulAssociative(a: Matrix, b: Matrix, c: Matrix)
    requires IsSquare(a, |a|) && IsSquare(b, |a|) && IsSquare(c, |a|)
    ensures MatMul(MatMul(a, b), c) == MatMul(a, MatMul(b, c))
  {
    forall i | 0 <= i < |a|
      ensures MatMul(MatMul(a, b), c)[i] == MatMul(a, MatMul(b, c))[i]
    {
      VecMatAssociative(a[i], b, c);
    }
  }

  /** m * m^k == m^k * m: powers of a matrix commute with it. */
  lemma {:induction false} MatPowCommutes(m: Matrix, k: nat)
    requires IsSquare(m, |m|)
    ensures MatMul(m, MatPow(m, k)) == MatMul(MatPow(m, k), m)
  {
    if k == 0 {
      MatMulIdentityRight(m);
      MatMulIdentityLeft(m);
    } else {
      var p := MatPow(m, k - 1);
      MatPowCommutes(m, k - 1);
      MatMulAssociative(m, p, m);
    }
  }
}
