/**
 * The step recurrence of the impulse-propagation calculator
 * (`calculate` in app/calculator.ts), as functions of the initial snapshot.
 *
 * Step 0 is the snapshot itself.  For every later step i:
 *   values[i]   = values[i-1] + impulses[i-1]
 *   impulses[i] = impulses[0] * matrices[i-1]
 *   matrices[i] = matrices[0] * matrices[i-1]
 */
module Propagation {
  import opened Matrices

  /** The value vector, impulse vector and influence matrix of step 0. */
  datatype Snapshot = Snapshot(values: Vector, impulses: Vector, matrix: Matrix)

  /** One entry per node in each vector, and an n x n matrix. */
  predicate WellShaped(s: Snapshot)
  {
    |s.impulses| == |s.values| && IsSquare(s.matrix, |s.values|)
  }

  /** The matrix of step i: the influence matrix to the power i + 1. */
  function MatrixAt(s: Snapshot, i: nat): (m: Matrix)
    requires WellShaped(s)
    ensures IsSquare(m, |s.values|)
  {
    if i == 0 then s.matrix else MatMul(s.matrix, MatrixAt(s, i - 1))
  }

  /** The impulse of step i: the initial impulse passed i times through the influence matrix. */
  function ImpulseAt(s: Snapshot, i: nat): (v: Vector)
    requires WellShaped(s)
    ensures |v| == |s.values|
  {
    if i == 0 then s.impulses else VecMat(s.impulses, MatrixAt(s, i - 1))
  }

  /** The impulses of node j over steps 0 .. i-1, added up. */
  function ImpulseTotal(s: Snapshot, i: nat, j: nat): real
    requires WellShaped(s) && j < |s.values|
  {
    if i == 0 then 0.0 else ImpulseTotal(s, i - 1, j) + ImpulseAt(s, i - 1)[j]
  }

  /** The value vector of step i: each node's initial value plus every impulse it received before step i. */
  function ValueAt(s: Snapshot, i: nat): (v: Vector)
    requires WellShaped(s)
    ensures |v| == |s.values|
  {
    if i == 0 then s.values else VecAdd(ValueAt(s, i - 1), ImpulseAt(s, i - 1))
  }

  /** The value vectors of steps 0 .. k-1. */
  function ValueSteps(s: Snapshot, k: nat): (r: seq<Vector>)
    requires WellShaped(s)
    ensures |r| == k
  {
    seq(k, i requires 0 <= i < k => ValueAt(s, i))
  }

  /** The impulse vectors of steps 0 .. k-1. */
  function ImpulseSteps(s: Snapshot, k: nat): (r: seq<Vector>)
    requires WellShaped(s)
    ensures |r| == k
  {
    seq(k, i requires 0 <= i < k => ImpulseAt(s, i))
  }

  /** The matrices of steps 0 .. k-1. */
  function MatrixSteps(s: Snapshot, k: nat): (r: seq<Matrix>)
    requires WellShaped(s)
    ensures |r| == k
  {
    seq(k, i requires 0 <= i < k => MatrixAt(s, i))
  }

  /** The three caches hold exactly the first |values| steps of `s`. */
  ghost predicate Cached(s: Snapshot, values: seq<Vector>, impulses: seq<Vector>, matrices: seq<Matrix>)
  {
    && WellShaped(s)
    && |impulses| == |values| && |matrices| == |values|
    && forall i :: 0 <= i < |values| ==>
         values[i] == ValueAt(s, i) && impulses[i] == ImpulseAt(s, i) && matrices[i] == MatrixAt(s, i)
  }

  /** Every cached vector has one entry per node and every cached matrix is n x n. */
  lemma CachedShapes(s: Snapshot, values: seq<Vector>, impulses: seq<Vector>, matrices: seq<Matrix>)
    requires Cached(s, values, impulses, matrices)
    ensures forall i :: 0 <= i < |values| ==>
      |values[i]| == |impulses[i]| == |s.values| && IsSquare(matrices[i], |s.values|)
  {
  }

  /** The value law on caches: each step adds the impulse of the step before, node by node. */
  lemma CachedValues(s: Snapshot, values: seq<Vector>, impulses: seq<Vector>, matrices: seq<Matrix>)
    requires Cached(s, values, impulses, matrices)
    ensures forall i, j {:trigger impulses[i][j]} :: 0 <= i < |values| - 1 && 0 <= j < |values[i]| ==>
      values[i + 1][j] == values[i][j] + impulses[i][j]
  {
    forall i, j | 0 <= i < |values| - 1 && 0 <= j < |values[i]|
      ensures values[i + 1][j] == values[i][j] + impulses[i][j]
    {
      assert values[i + 1] == ValueAt(s, i + 1);
      assert values[i] == ValueAt(s, i) && impulses[i] == ImpulseAt(s, i);
    }
  }

  /** The impulse and matrix laws on caches: each step follows from step 0 and the step before. */
  lemma CachedPropagation(s: Snapshot, values: seq<Vector>, impulses: seq<Vector>, matrices: seq<Matrix>)
    requires Cached(s, values, impulses, matrices)
    ensures forall i :: 1 <= i < |values| ==>
      impulses[i] == VecMat(impulses[0], matrices[i - 1]) && matrices[i] == MatMul(matrices[0], matrices[i - 1])
  {
    forall i | 1 <= i < |values|
      ensures impulses[i] == VecMat(impulses[0], matrices[i - 1]) && matrices[i] == MatMul(matrices[0], matrices[i - 1])
    {
      assert impulses[0] == ImpulseAt(s, 0) && matrices[0] == MatrixAt(s, 0);
      assert impulses[i] == ImpulseAt(s, i) && matrices[i] == MatrixAt(s, i) && matrices[i - 1] == MatrixAt(s, i - 1);
    }
  }

  /** Appending step |values| keeps the caches exact. */
  lemma CachedExtend(s: Snapshot, values: seq<Vector>, impulses: seq<Vector>, matrices: seq<Matrix>)
    requires Cached(s, values, impulses, matrices)
    ensures Cached(s, values + [ValueAt(s, |values|)], impulses + [ImpulseAt(s, |values|)],
                   matrices + [MatrixAt(s, |values|)])
  {
    var k := |values|;
    var values', impulses', matrices' :=
      values + [ValueAt(s, k)], impulses + [ImpulseAt(s, k)], matrices + [MatrixAt(s, k)];
    forall i | 0 <= i < k + 1
      ensures values'[i] == ValueAt(s, i) && impulses'[i] == ImpulseAt(s, i) && matrices'[i] == MatrixAt(s, i)
    {
      if i < k {
        assert values'[i] == values[i] && impulses'[i] == impulses[i] && matrices'[i] == matrices[i];
      }
    }
  }

  /** The step after the cached ones, computed by the recurrence from the caches alone. */
  lemma NextStep(s: Snapshot, values: seq<Vector>, impulses: seq<Vector>, matrices: seq<Matrix>)
    requires Cached(s, values, impulses, matrices) && 1 <= |values|
    ensures |values[|values| - 1]| == |impulses[|values| - 1]|
    ensures IsSquare(matrices[|values| - 1], |impulses[0]|) && IsSquare(matrices[0], |matrices[0]|)
    ensures VecAdd(values[|values| - 1], impulses[|values| - 1]) == ValueAt(s, |values|)
    ensures VecMat(impulses[0], matrices[|values| - 1]) == ImpulseAt(s, |values|)
    ensures MatMul(matrices[0], matrices[|values| - 1]) == MatrixAt(s, |values|)
  {
    var k := |values| - 1;
    assert values[k] == ValueAt(s, k) && impulses[k] == ImpulseAt(s, k) && matrices[k] == MatrixAt(s, k);
    assert impulses[0] == ImpulseAt(s, 0) == s.impulses;
    assert matrices[0] == MatrixAt(s, 0) == s.matrix;
  }

  /** Fewer steps give a prefix of more steps: cached steps never change. */
  lemma StepsArePrefixes(s: Snapshot, k1: nat, k2: nat)
    requires WellShaped(s) && k1 <= k2
    ensures ValueSteps(s, k1) == ValueSteps(s, k2)[..k1]
    ensures ImpulseSteps(s, k1) == ImpulseSteps(s, k2)[..k1]
    ensures MatrixSteps(s, k1) == MatrixSteps(s, k2)[..k1]
  {
  }

  /** The matrix of step i is the influence matrix to the power i + 1. */
  lemma {:induction false} MatrixAtIsPower(s: Snapshot, i: nat)
    requires WellShaped(s)
    ensures MatrixAt(s, i) == MatPow(s.matrix, i + 1)
  {
    if i == 0 {
      MatMulIdentityRight(s.matrix);
    } else {
      MatrixAtIsPower(s, i - 1);
    }
  }

  /** The impulse of step i is the initial impulse times the i-th power of the influence matrix. */
  lemma ImpulseAtIsPower(s: Snapshot, i: nat)
    requires WellShaped(s)
    ensures ImpulseAt(s, i) == VecMat(s.impulses, MatPow(s.matrix, i))
  {
    if i == 0 {
      VecMatIdentity(s.impulses);
    } else {
      MatrixAtIsPower(s, i - 1);
    }
  }

  /** A node's value at step i is its initial value plus every impulse it received before step i. */
  lemma {:induction false} ValueAtAccumulates(s: Snapshot, i: nat, j: nat)
    requires WellShaped(s) && j < |s.values|
    ensures ValueAt(s, i)[j] == s.values[j] + ImpulseTotal(s, i, j)
  {
    if i > 0 {
      ValueAtAccumulates(s, i - 1, j);
    }
  }

  /** Each step's impulse is the previous step's impulse passed once more along the edges. */
  lemma ImpulsePropagates(s: Snapshot, i: nat)
    requires WellShaped(s)
    ensures ImpulseAt(s, i + 1) == VecMat(ImpulseAt(s, i), s.matrix)
  {
    var m := s.matrix;
    ImpulseAtIsPower(s, i);
    ImpulseAtIsPower(s, i + 1);
    VecMatAssociative(s.impulses, MatPow(m, i), m);
    MatPowCommutes(m, i);
  }
}
