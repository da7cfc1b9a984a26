/**
 * The two-node example of the calculator: nodes A (value 10, impulse 1) and
 * B (value 5, impulse -1), one edge A -> B of influence 0.5, two steps.
 */
module WorkedExample {
  import opened Wrappers
  import opened Matrices
  import opened Graph
  import opened Propagation
  import opened InitialCalculation
  import opened Calculation

  /** A dot product of length 2, written out. */
  lemma Dot2(a: real, b: real, c: real, d: real)
    ensures Dot([a, b], [c, d]) == a * c + b * d
  {
    assert [a, b][..1] == [a] && [c, d][..1] == [c];
    assert [a][..0] == [] && [c][..0] == [];
    assert Dot([a], [c]) == a * c;
  }

  /** A row vector times a 2 x 2 matrix, written out. */
  lemma VecMat2(a: real, b: real, p: real, q: real, r: real, s: real)
    ensures VecMat([a, b], [[p, q], [r, s]]) == [a * p + b * r, a * q + b * s]
  {
    var m := [[p, q], [r, s]];
    assert Column(m, 0) == [p, r];
    assert Column(m, 1) == [q, s];
    Dot2(a, b, p, r);
    Dot2(a, b, q, s);
  }

  function Example(): GraphData
  {
    GraphData([Node(1, "A", 10.0, 1.0), Node(2, "B", 5.0, -1.0)], [Edge(1, 2, "AB", 0.5)])
  }

  /** The influence matrix of the example has 0.5 in cell (A, B) and 0 elsewhere. */
  lemma ExampleSnapshot()
    ensures InitialState(Example()) == Ok(Snapshot([10.0, 5.0], [1.0, -1.0], [[0.0, 0.5], [0.0, 0.0]]))
  {
    var g := Example();
    assert IndexOf(g.nodes, 1) == Some(0);
    assert IndexOf(g.nodes, 2) == Some(1);
    assert FirstUnknownSource(g.nodes, g.edges).None?;
    var im := InfluenceMatrix(g.nodes, g.edges);
    assert im[0] == [0.0, 0.5];
    assert im[1] == [0.0, 0.0];
    assert im == [[0.0, 0.5], [0.0, 0.0]];
    assert InitialState(g).value.values == [10.0, 5.0];
    assert InitialState(g).value.impulses == [1.0, -1.0];
  }

  /** The example's influence matrix squares to zero: no path of two edges. */
  lemma ExampleSquare()
    ensures MatMul([[0.0, 0.5], [0.0, 0.0]], [[0.0, 0.5], [0.0, 0.0]]) == [[0.0, 0.0], [0.0, 0.0]]
  {
    var m := [[0.0, 0.5], [0.0, 0.0]];
    VecMat2(0.0, 0.5, 0.0, 0.5, 0.0, 0.0);
    VecMat2(0.0, 0.0, 0.0, 0.5, 0.0, 0.0);
    assert MatMul(m, m) == [VecMat(m[0], m), VecMat(m[1], m)];
  }

  /** Step 1 of the example snapshot, by hand: the impulse moves to B and the matrix squares to 0. */
  lemma ExampleStepOne(s: Snapshot)
    requires s == Snapshot([10.0, 5.0], [1.0, -1.0], [[0.0, 0.5], [0.0, 0.0]])
    ensures ImpulseAt(s, 1) == [0.0, 0.5]
    ensures MatrixAt(s, 1) == [[0.0, 0.0], [0.0, 0.0]]
    ensures ValueAt(s, 1) == [11.0, 4.0]
  {
    VecMat2(1.0, -1.0, 0.0, 0.5, 0.0, 0.0);
    ExampleSquare();
    assert ValueAt(s, 1) == VecAdd([10.0, 5.0], [1.0, -1.0]);
  }

  /** `calculate(2)` on the example: the values, impulses and matrices of steps 0 and 1. */
  lemma TwoSteps()
    ensures Expected(Example(), 2) == Computed(CalculationResult(
      [[10.0, 5.0], [11.0, 4.0]],
      [[1.0, -1.0], [0.0, 0.5]],
      [[[0.0, 0.5], [0.0, 0.0]], [[0.0, 0.0], [0.0, 0.0]]],
      Example().nodes))
  {
    ExampleSnapshot();
    var s := InitialState(Example()).value;
    ExampleStepOne(s);
    assert ValueSteps(s, 2) == [ValueAt(s, 0), ValueAt(s, 1)];
    assert ImpulseSteps(s, 2) == [ImpulseAt(s, 0), ImpulseAt(s, 1)];
    assert MatrixSteps(s, 2) == [MatrixAt(s, 0), MatrixAt(s, 1)];
  }

  /** Publishing the example and asking the calculator for two steps yields those steps. */
  method CalculateExample(calculator: Calculator) returns (outcome: Outcome)
    modifies calculator, calculator.storage
    ensures outcome == Computed(CalculationResult(
      [[10.0, 5.0], [11.0, 4.0]],
      [[1.0, -1.0], [0.0, 0.5]],
      [[[0.0, 0.5], [0.0, 0.0]], [[0.0, 0.0], [0.0, 0.0]]],
      Example().nodes))
  {
    Publish(calculator, Example());
    outcome := calculator.Calculate(2);
    TwoSteps();
  }
}
