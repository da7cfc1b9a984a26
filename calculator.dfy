/**
 * The impulse-propagation calculator (`Calculator` in app/calculator.ts).
 *
 * It keeps an append-only cache of per-step values, impulses and matrices
 * built from one snapshot of the stored graph, extends the cache when more
 * steps are asked for than it holds, and answers with a prefix of it.  Every
 * change of the stored graph wipes the cache (`Invalidate`, the body of the
 * source's `dataUpdated` subscription).
 */
module Calculation {
  import opened Wrappers
  import opened Matrices
  import opened Graph
  import opened Propagation
  import opened InitialCalculation

  /** The first `steps` entries of the three caches, and the snapshot's node list. */
  datatype CalculationResult = CalculationResult(
    values: seq<Vector>, impulses: seq<Vector>, matrices: seq<Matrix>, nodes: seq<Node>)

  /** What `calculate` ends with. */
  datatype Outcome =
    | Computed(result: CalculationResult)
    | NoNodes                 // the graph has no nodes: the source returns undefined
    | UnknownSource(edge: nat) // the source throws on edge `edge`, whose `from` is no node

  function Max(a: nat, b: nat): nat
  {
    if a < b then b else a
  }

  /** The answer `calculate(steps)` gives for graph `g`, whatever was cached before. */
  function Expected(g: GraphData, steps: nat): (r: Outcome)
    ensures r.UnknownSource? <==> exists k :: 0 <= k < |g.edges| && IndexOf(g.nodes, g.edges[k].from).None?
    ensures r.UnknownSource? ==> r.edge < |g.edges| && IndexOf(g.nodes, g.edges[r.edge].from).None?
    ensures r.UnknownSource? ==> forall k :: 0 <= k < r.edge ==> IndexOf(g.nodes, g.edges[k].from).Some?
    ensures r.NoNodes? <==> |g.nodes| == 0 && |g.edges| == 0
    ensures r.Computed? ==> |r.result.values| == |r.result.impulses| == |r.result.matrices| == steps
    ensures r.Computed? ==> r.result.nodes == g.nodes
  {
    assert |g.nodes| == 0 && |g.edges| > 0 ==> IndexOf(g.nodes, g.edges[0].from).None?;
    match InitialState(g)
    case Err(k) => UnknownSource(k)
    case Ok(s) =>
      if |g.nodes| == 0 then NoNodes
      else Computed(CalculationResult(ValueSteps(s, steps), ImpulseSteps(s, steps), MatrixSteps(s, steps), g.nodes))
  }

  // ----- Properties of the answers -----

  /** No nodes: nothing is computed, and any edge at all is one whose source is unknown. */
  lemma EmptyGraph(g: GraphData, steps: nat)
    requires |g.nodes| == 0
    ensures Expected(g, steps) == if |g.edges| == 0 then NoNodes else UnknownSource(0)
  {
    if |g.edges| > 0 {
      assert IndexOf(g.nodes, g.edges[0].from).None?;
    }
  }

  /** Step 0 of an answer is the graph itself: node values, node impulses, the influence matrix. */
  lemma FirstStepIsGraph(g: GraphData, steps: nat)
    requires 1 <= steps && Expected(g, steps).Computed?
    ensures var r := Expected(g, steps).result;
      && |r.values| == |r.impulses| == |r.matrices| == steps && r.nodes == g.nodes
      && |r.values[0]| == |r.impulses[0]| == |g.nodes|
      && (forall k :: 0 <= k < |g.nodes| ==> r.values[0][k] == g.nodes[k].value && r.impulses[0][k] == g.nodes[k].impulse)
      && r.matrices[0] == InfluenceMatrix(g.nodes, g.edges)
  {
  }

  /** A shorter request gives a prefix of a longer one, so answers never drift apart. */
  lemma AnswersArePrefixes(g: GraphData, s1: nat, s2: nat)
    requires s1 <= s2
    ensures Expected(g, s1).Computed? <==> Expected(g, s2).Computed?
    ensures Expected(g, s1).Computed? ==>
      var r1, r2 := Expected(g, s1).result, Expected(g, s2).result;
      && r1.values == r2.values[..s1] && r1.impulses == r2.impulses[..s1]
      && r1.matrices == r2.matrices[..s1] && r1.nodes == r2.nodes
  {
    if InitialState(g).Ok? {
      StepsArePrefixes(InitialState(g).value, s1, s2);
    }
  }

  /** An answer is exactly the cached steps of the graph's snapshot. */
  lemma AnswerIsCached(g: GraphData, steps: nat, r: CalculationResult)
    requires Expected(g, steps) == Computed(r)
    ensures InitialState(g).Ok? && |InitialState(g).value.values| == |g.nodes|
    ensures Cached(InitialState(g).value, r.values, r.impulses, r.matrices)
  {
  }

  /** Every step of an answer has one entry per node and an n x n matrix. */
  lemma AnswerShapes(g: GraphData, steps: nat, r: CalculationResult)
    requires Expected(g, steps) == Computed(r)
    ensures forall i :: 0 <= i < steps ==>
      |r.values[i]| == |r.impulses[i]| == |g.nodes| && IsSquare(r.matrices[i], |g.nodes|)
  {
    AnswerIsCached(g, steps, r);
    CachedShapes(InitialState(g).value, r.values, r.impulses, r.matrices);
  }

  /** The value law of an answer: each step adds the previous step's impulse, node by node. */
  lemma AnswerValues(g: GraphData, steps: nat, r: CalculationResult)
    requires Expected(g, steps) == Computed(r)
    ensures forall i, j {:trigger r.impulses[i][j]} :: 0 <= i < steps - 1 && 0 <= j < |g.nodes| ==>
      r.values[i + 1][j] == r.values[i][j] + r.impulses[i][j]
  {
    AnswerIsCached(g, steps, r);
    CachedValues(InitialState(g).value, r.values, r.impulses, r.matrices);
  }

  /** The impulse and matrix laws of an answer: impulse0 and matrix0 times the previous matrix. */
  lemma AnswerPropagation(g: GraphData, steps: nat, r: CalculationResult)
    requires Expected(g, steps) == Computed(r)
    ensures forall i :: 0 <= i < steps - 1 ==>
      r.impulses[i + 1] == VecMat(r.impulses[0], r.matrices[i]) &&
      r.matrices[i + 1] == MatMul(r.matrices[0], r.matrices[i])
  {
    AnswerIsCached(g, steps, r);
    CachedPropagation(InitialState(g).value, r.values, r.impulses, r.matrices);
  }

  /** The matrix of step i of an answer is the influence matrix to the power i + 1. */
  lemma AnswerMatricesArePowers(g: GraphData, steps: nat, r: CalculationResult)
    requires Expected(g, steps) == Computed(r)
    ensures forall i :: 0 <= i < steps ==> r.matrices[i] == MatPow(InfluenceMatrix(g.nodes, g.edges), i + 1)
  {
    var s := InitialState(g).value;
    forall i | 0 <= i < steps
      ensures r.matrices[i] == MatPow(s.matrix, i + 1)
    {
      assert r.matrices[i] == MatrixAt(s, i);
      MatrixAtIsPower(s, i);
    }
  }

  /** Each impulse of an answer is the previous one passed once more through the influence matrix. */
  lemma AnswerImpulsesPropagate(g: GraphData, steps: nat, r: CalculationResult)
    requires Expected(g, steps) == Computed(r)
    ensures forall i :: 0 <= i < steps - 1 ==>
      IsSquare(InfluenceMatrix(g.nodes, g.edges), |r.impulses[i]|) &&
      r.impulses[i + 1] == VecMat(r.impulses[i], InfluenceMatrix(g.nodes, g.edges))
  {
    forall i | 0 <= i < steps - 1
      ensures IsSquare(InfluenceMatrix(g.nodes, g.edges), |r.impulses[i]|) &&
        r.impulses[i + 1] == VecMat(r.impulses[i], InfluenceMatrix(g.nodes, g.edges))
    {
      AnswerImpulseStep(g, steps, r, i);
    }
  }

  /** One step of AnswerImpulsesPropagate. */
  lemma AnswerImpulseStep(g: GraphData, steps: nat, r: CalculationResult, i: nat)
    requires Expected(g, steps) == Computed(r) && i < steps - 1
    ensures IsSquare(InfluenceMatrix(g.nodes, g.edges), |r.impulses[i]|)
    ensures r.impulses[i + 1] == VecMat(r.impulses[i], InfluenceMatrix(g.nodes, g.edges))
  {
    AnswerIsCached(g, steps, r);
    var s := InitialState(g).value;
    assert s.matrix == InfluenceMatrix(g.nodes, g.edges);
    assert r.impulses[i] == ImpulseAt(s, i) && r.impulses[i + 1] == ImpulseAt(s, i + 1);
    ImpulsePropagates(s, i);
  }

  // ----- The calculator -----

  /** The inner loop of `calculate`: the next value vector, entry by entry. */
  method NextValues(values: Vector, impulses: Vector) returns (res: Vector)
    requires |values| == |impulses|
    ensures res == VecAdd(values, impulses)
  {
    res := [];
    var j := 0;
    while j < |impulses|
      invariant 0 <= j <= |impulses|
      invariant |res| == j && forall t :: 0 <= t < j ==> res[t] == values[t] + impulses[t]
    {
      res := res + [values[j] + impulses[j]];
      j := j + 1;
    }
  }

  /**
   * The step loop of `calculate` on the three caches: append the steps
   * |values| .. steps-1, each from step 0 and the step before it.
   */
  method AppendSteps(ghost s: Snapshot, values: seq<Vector>, impulses: seq<Vector>, matrices: seq<Matrix>, steps: int)
    returns (values': seq<Vector>, impulses': seq<Vector>, matrices': seq<Matrix>)
    requires Cached(s, values, impulses, matrices) && 1 <= |values|
    ensures Cached(s, values', impulses', matrices')
    ensures |values'| == Max(|values|, if steps < 0 then 0 else steps)
    ensures values <= values' && impulses <= impulses' && matrices <= matrices'
  {
    values', impulses', matrices' := values, impulses, matrices;
    var i := |values|;
    while i < steps
      invariant |values| <= i && (i <= steps || i == |values|)
      invariant |values'| == i
      invariant Cached(s, values', impulses', matrices')
      invariant values <= values' && impulses <= impulses' && matrices <= matrices'
    {
      CachedExtend(s, values', impulses', matrices');
      var value, impulse, matrix := NextCachedStep(s, values', impulses', matrices');
      values', impulses', matrices' := values' + [value], impulses' + [impulse], matrices' + [matrix];
      i := i + 1;
    }
  }

  /** One round of the step loop: the step after the cached ones, from step 0 and the last cached step. */
  method NextCachedStep(ghost s: Snapshot, values: seq<Vector>, impulses: seq<Vector>, matrices: seq<Matrix>)
    returns (value: Vector, impulse: Vector, matrix: Matrix)
    requires Cached(s, values, impulses, matrices) && 1 <= |values|
    ensures value == ValueAt(s, |values|) && impulse == ImpulseAt(s, |values|) && matrix == MatrixAt(s, |values|)
  {
    var i := |values|;
    NextStep(s, values, impulses, matrices);
    value := NextValues(values[i - 1], impulses[i - 1]);
    impulse := VecMat(impulses[0], matrices[i - 1]);
    matrix := MatMul(matrices[0], matrices[i - 1]);
  }

  class Calculator {
    const storage: GraphDataStorage
    var values: seq<Vector>
    var impulses: seq<Vector>
    var matrices: seq<Matrix>
    var maxSteps: nat
    /** The snapshot of the stored graph; None where the source has `undefined`. */
    var graphData: Option<GraphData>
    /** How many of the storage's change notifications have reached this calculator. */
    ghost var heard: nat
    /** The initial snapshot of `graphData`, step 0 of the caches. */
    ghost var snapshot: Snapshot

    /** The three caches hold exactly the first `maxSteps` steps of the snapshot. */
    ghost predicate Valid()
      reads this
    {
      && |values| == maxSteps && |impulses| == maxSteps && |matrices| == maxSteps
      && (graphData.None? ==> maxSteps == 0)
      && (graphData.Some? ==>
            && InitialState(graphData.value) == Ok(snapshot) && 1 <= maxSteps
            && (|graphData.value.nodes| == 0 ==> maxSteps == 1)
            && Cached(snapshot, values, impulses, matrices))
    }

    /** Every notification has been delivered, so a held snapshot is the stored graph. */
    ghost predicate InSync()
      reads this, storage
    {
      && storage.Valid() && heard == storage.notifications
      && (graphData.Some? ==> storage.HasData() && graphData.value == storage.Current())
    }

    /** The source's constructor subscribes to the storage; nothing is cached yet. */
    constructor (storage: GraphDataStorage)
      requires storage.Valid()
      ensures this.storage == storage
      ensures Valid() && InSync()
      ensures graphData == None && values == [] && impulses == [] && matrices == [] && maxSteps == 0
    {
      this.storage := storage;
      values, impulses, matrices := [], [], [];
      maxSteps := 0;
      graphData := None;
      snapshot := Snapshot([], [], []);
      heard := storage.notifications;
    }

    /** The `dataUpdated` handler: drop the snapshot and every cached step. */
    method Invalidate()
      requires storage.Valid()
      modifies this
      ensures Valid() && InSync()
      ensures graphData == None && values == [] && impulses == [] && matrices == [] && maxSteps == 0
    {
      values := [];
      impulses := [];
      matrices := [];
      maxSteps := 0;
      graphData := None;
      heard := storage.notifications;
    }

    /**
     * `performInitialCalculation`: take the stored graph and cache its
     * snapshot as step 0.  Reports the edge on which the source throws.
     */
    method PerformInitialCalculation() returns (thrown: Option<nat>)
      requires storage.Valid() && storage.HasData()
      modifies this, storage`data
      ensures storage.Valid() && storage.HasData() && storage.Current() == old(storage.Current())
      ensures heard == old(heard) && storage.notifications == old(storage.notifications)
      ensures Valid()
      ensures match InitialState(old(storage.Current()))
        case Err(k) =>
          thrown == Some(k) && graphData == None && maxSteps == 0
        case Ok(s) =>
          && thrown == None && graphData == Some(old(storage.Current()))
          && values == [s.values] && impulses == [s.impulses] && matrices == [s.matrix] && maxSteps == 1
    {
      var g := storage.GetData();
      var built := BuildSnapshot(g);
      match built
      case Err(k) =>
        values, impulses, matrices := [], [], [];
        maxSteps := 0;
        graphData := None;
        return Some(k);
      case Ok(s) =>
        graphData := Some(g);
        snapshot := s;
        values, impulses, matrices := [s.values], [s.impulses], [s.matrix];
        maxSteps := 1;
        return None;
    }

    /** The loop of `calculate`: append steps until `steps` are cached. */
    method Extend(steps: int)
      requires 1 <= steps
      requires Valid() && graphData.Some? && |graphData.value.nodes| > 0
      modifies this`values, this`impulses, this`matrices, this`maxSteps
      ensures Valid()
      ensures maxSteps == Max(old(maxSteps), steps)
      ensures old(values) <= values && old(impulses) <= impulses && old(matrices) <= matrices
    {
      values, impulses, matrices := AppendSteps(snapshot, values, impulses, matrices, steps);
      maxSteps := Max(maxSteps, steps);
    }

    /**
     * `calculate(steps)`: build the snapshot if there is none, extend the
     * caches up to `steps` entries, and answer with their first `steps` entries.
     */
    method Calculate(steps: int) returns (outcome: Outcome)
      requires 1 <= steps
      requires Valid() && InSync() && storage.HasData()
      modifies this, storage`data
      ensures Valid() && InSync() && storage.HasData()
      ensures storage.Current() == old(storage.Current())
      ensures outcome == Expected(storage.Current(), steps)
      ensures outcome.Computed? ==> maxSteps == Max(old(maxSteps), steps)
      ensures outcome.NoNodes? ==> maxSteps == 1
      ensures outcome.NoNodes? && old(graphData).Some? ==>
        values == old(values) && impulses == old(impulses) && matrices == old(matrices) && maxSteps == old(maxSteps)
      ensures old(graphData).Some? ==>
        && graphData == old(graphData)
        && old(values) <= values && old(impulses) <= impulses && old(matrices) <= matrices
    {
      if graphData.None? {
        var thrown := PerformInitialCalculation();
        if thrown.Some? {
          return UnknownSource(thrown.value);
        }
      }
      var g := graphData.value;
      if |g.nodes| == 0 {
        return NoNodes;
      }
      Extend(steps);
      ghost var s := InitialState(g).value;
      assert values[..steps] == ValueSteps(s, steps);
      assert impulses[..steps] == ImpulseSteps(s, steps);
      assert matrices[..steps] == MatrixSteps(s, steps);
      return Computed(CalculationResult(values[..steps], impulses[..steps], matrices[..steps], g.nodes));
    }
  }

  /** `updateData` followed by the notification reaching the calculator. */
  method Publish(calculator: Calculator, d: GraphData)
    modifies calculator, calculator.storage
    ensures calculator.Valid() && calculator.InSync() && calculator.storage.HasData()
    ensures calculator.storage.Current() == d && calculator.graphData == None
  {
    calculator.storage.UpdateData(d);
    calculator.Invalidate();
  }

  /** `updateRawData` followed by the notification reaching the calculator. */
  method PublishRaw(calculator: Calculator, raw: RawGraphData)
    modifies calculator, calculator.storage
    ensures calculator.Valid() && calculator.InSync() && calculator.storage.HasData()
    ensures calculator.storage.Current() == Marshal(raw) && calculator.graphData == None
  {
    calculator.storage.UpdateRawData(raw);
    calculator.Invalidate();
  }

  /**
   * A session: publish a graph, ask for `s1` steps, then `s2 >= s1`, then `s1`
   * again.  The longer answer extends the shorter, the repeat is identical,
   * and all three come from the published graph.
   */
  method Session(calculator: Calculator, d: GraphData, s1: int, s2: int)
    returns (first: Outcome, second: Outcome, again: Outcome)
    requires 1 <= s1 <= s2
    modifies calculator, calculator.storage
    ensures first == Expected(d, s1) && second == Expected(d, s2) && again == first
    ensures first.Computed? ==>
      second.Computed? && first.result.values == second.result.values[..s1] &&
      first.result.impulses == second.result.impulses[..s1] &&
      first.result.matrices == second.result.matrices[..s1]
  {
    Publish(calculator, d);
    first := calculator.Calculate(s1);
    second := calculator.Calculate(s2);
    again := calculator.Calculate(s1);
    AnswersArePrefixes(d, s1, s2);
  }
}
