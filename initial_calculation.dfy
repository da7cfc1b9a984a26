/**
 * The snapshot the calculator builds from the graph before its first step
 * (`performInitialCalculation` in app/calculator.ts): the value vector, the
 * impulse vector and the n x n influence matrix, indexed by node position.
 *
 * Node ids are mapped to positions through an id-to-index table filled in
 * node order, so a repeated id maps to its last position.  Every edge then
 * writes its influence into the cell of its two endpoints, so a later edge
 * overwrites an earlier one on the same cell.  An edge whose `from` is not a
 * node id makes the source throw (it indexes a missing matrix row); an edge
 * whose `to` is not a node id changes no cell.
 */
module InitialCalculation {
  import opened Wrappers
  import opened Matrices
  import opened Graph
  import opened EdgeGuard
  import opened Propagation

  /** The position the id-to-index table gives `id`: the last node carrying it. */
  function IndexOf(nodes: seq<Node>, id: NodeId): (r: Option<nat>)
    ensures r.Some? ==> r.value < |nodes| && nodes[r.value].id == id
    ensures r.Some? ==> forall k :: r.value < k < |nodes| ==> nodes[k].id != id
    ensures r.None? <==> forall k :: 0 <= k < |nodes| ==> nodes[k].id != id
    decreases |nodes|
  {
    if |nodes| == 0 then None
    else if nodes[|nodes| - 1].id == id then Some(|nodes| - 1)
    else IndexOf(nodes[..|nodes| - 1], id)
  }

  /** The first edge whose `from` is no node's id, if any: where the source throws. */
  function FirstUnknownSource(nodes: seq<Node>, edges: seq<Edge>): (r: Option<nat>)
    ensures r.Some? ==> r.value < |edges| && IndexOf(nodes, edges[r.value].from).None?
    ensures r.Some? ==> forall k :: 0 <= k < r.value ==> IndexOf(nodes, edges[k].from).Some?
    ensures r.None? <==> forall k :: 0 <= k < |edges| ==> IndexOf(nodes, edges[k].from).Some?
    decreases |edges|
  {
    if |edges| == 0 then None
    else match FirstUnknownSource(nodes, edges[..|edges| - 1])
      case Some(k) => Some(k)
      case None => if IndexOf(nodes, edges[|edges| - 1].from).None? then Some(|edges| - 1) else None
  }

  /** Scanning one more edge: the scan stops there exactly when its `from` is unknown. */
  lemma FirstUnknownSourceStep(nodes: seq<Node>, edges: seq<Edge>, e: nat)
    requires e < |edges| && FirstUnknownSource(nodes, edges[..e]).None?
    ensures FirstUnknownSource(nodes, edges[..e + 1]) ==
      if IndexOf(nodes, edges[e].from).None? then Some(e) else None
  {
    assert edges[..e + 1][..e] == edges[..e];
  }

  /** Where a prefix of the edges stops, the whole sequence stops too. */
  lemma FirstUnknownSourcePrefix(nodes: seq<Node>, edges: seq<Edge>, e: nat)
    requires e <= |edges| && FirstUnknownSource(nodes, edges[..e]).Some?
    ensures FirstUnknownSource(nodes, edges) == FirstUnknownSource(nodes, edges[..e])
  {
    var k := FirstUnknownSource(nodes, edges[..e]).value;
    assert edges[..e][k] == edges[k];
    assert forall t :: 0 <= t < k ==> edges[..e][t] == edges[t];
  }

  /** `edge` writes into cell (i, j) of the influence matrix. */
  predicate Lands(nodes: seq<Node>, edge: Edge, i: nat, j: nat)
  {
    IndexOf(nodes, edge.from) == Some(i) && IndexOf(nodes, edge.to) == Some(j)
  }

  /** Cell (i, j) after all edges are written: the last edge landing there, or 0. */
  function LastInfluence(nodes: seq<Node>, edges: seq<Edge>, i: nat, j: nat): (r: real)
    ensures (forall l :: 0 <= l < |edges| ==> !Lands(nodes, edges[l], i, j)) ==> r == 0.0
    ensures r == 0.0 || exists l :: 0 <= l < |edges| && Lands(nodes, edges[l], i, j) && r == edges[l].influence
    decreases |edges|
  {
    if |edges| == 0 then 0.0
    else if Lands(nodes, edges[|edges| - 1], i, j) then edges[|edges| - 1].influence
    else
      var rest := edges[..|edges| - 1];
      assert forall l :: 0 <= l < |rest| ==> rest[l] == edges[l];
      LastInfluence(nodes, rest, i, j)
  }

  /** Writing edge `e` after the edges before it: its cell takes its influence, the others keep theirs. */
  lemma LastInfluenceStep(nodes: seq<Node>, edges: seq<Edge>, e: nat, i: nat, j: nat)
    requires e < |edges|
    ensures LastInfluence(nodes, edges[..e + 1], i, j) ==
      if Lands(nodes, edges[e], i, j) then edges[e].influence else LastInfluence(nodes, edges[..e], i, j)
  {
    assert edges[..e + 1][..e] == edges[..e];
  }

  /** The n x n influence matrix of the edges, n the number of nodes. */
  function InfluenceMatrix(nodes: seq<Node>, edges: seq<Edge>): (m: Matrix)
    ensures IsSquare(m, |nodes|)
    ensures forall a, b :: 0 <= a < |nodes| && 0 <= b < |nodes| && m[a][b] != 0.0 ==>
      exists l :: 0 <= l < |edges| && Lands(nodes, edges[l], a, b) && m[a][b] == edges[l].influence
  {
    var n := |nodes|;
    seq(n, i requires 0 <= i < n => seq(n, j requires 0 <= j < n => LastInfluence(nodes, edges, i, j)))
  }

  /** One write of the edge pass keeps every cell equal to the last influence landing on it. */
  lemma WriteEdgeCells(nodes: seq<Node>, edges: seq<Edge>, e: nat, before: Matrix, after: Matrix)
    requires e < |edges| && IsSquare(before, |nodes|)
    requires forall a, b :: 0 <= a < |nodes| && 0 <= b < |nodes| ==>
      before[a][b] == LastInfluence(nodes, edges[..e], a, b)
    requires IndexOf(nodes, edges[e].from).Some?
    requires after == match IndexOf(nodes, edges[e].to)
      case None => before
      case Some(j) =>
        var i := IndexOf(nodes, edges[e].from).value;
        before[i := before[i][j := edges[e].influence]]
    ensures IsSquare(after, |nodes|)
    ensures forall a, b :: 0 <= a < |nodes| && 0 <= b < |nodes| ==>
      after[a][b] == LastInfluence(nodes, edges[..e + 1], a, b)
  {
    forall a, b | 0 <= a < |nodes| && 0 <= b < |nodes|
      ensures after[a][b] == LastInfluence(nodes, edges[..e + 1], a, b)
    {
      WriteEdgeCell(nodes, edges, e, before, after, a, b);
    }
  }

  /** WriteEdgeCells for the one cell (a, b). */
  lemma WriteEdgeCell(nodes: seq<Node>, edges: seq<Edge>, e: nat, before: Matrix, after: Matrix, a: nat, b: nat)
    requires e < |edges| && IsSquare(before, |nodes|) && a < |nodes| && b < |nodes|
    requires before[a][b] == LastInfluence(nodes, edges[..e], a, b)
    requires IndexOf(nodes, edges[e].from).Some?
    requires after == match IndexOf(nodes, edges[e].to)
      case None => before
      case Some(j) =>
        var i := IndexOf(nodes, edges[e].from).value;
        before[i := before[i][j := edges[e].influence]]
    ensures IsSquare(after, |nodes|)
    ensures after[a][b] == LastInfluence(nodes, edges[..e + 1], a, b)
  {
    LastInfluenceStep(nodes, edges, e, a, b);
  }

  /** A matrix whose every cell is the last edge's influence there is the influence matrix. */
  lemma InfluenceMatrixByCells(nodes: seq<Node>, edges: seq<Edge>, m: Matrix)
    requires IsSquare(m, |nodes|)
    requires forall a, b :: 0 <= a < |nodes| && 0 <= b < |nodes| ==> m[a][b] == LastInfluence(nodes, edges, a, b)
    ensures m == InfluenceMatrix(nodes, edges)
  {
    var expected := InfluenceMatrix(nodes, edges);
    forall a | 0 <= a < |nodes|
      ensures m[a] == expected[a]
    {
    }
  }

  /** The snapshot of `g`, or the index of the edge on which the source throws. */
  function InitialState(g: GraphData): (r: Result<Snapshot, nat>)
    ensures r.Ok? ==> WellShaped(r.value) && |r.value.values| == |g.nodes|
    ensures r.Err? ==> r.error < |g.edges| && IndexOf(g.nodes, g.edges[r.error].from).None?
    ensures r.Err? ==> forall k :: 0 <= k < r.error ==> IndexOf(g.nodes, g.edges[k].from).Some?
  {
    match FirstUnknownSource(g.nodes, g.edges)
    case Some(k) => Err(k)
    case None =>
      var n := |g.nodes|;
      Ok(Snapshot(
        seq(n, k requires 0 <= k < n => g.nodes[k].value),
        seq(n, k requires 0 <= k < n => g.nodes[k].impulse),
        InfluenceMatrix(g.nodes, g.edges)))
  }

  // ----- What the snapshot holds -----

  /** The snapshot exists exactly when every edge starts at a node, and then step 0 copies the nodes. */
  lemma InitialStateCopiesNodes(g: GraphData)
    ensures InitialState(g).Ok? <==> forall e :: 0 <= e < |g.edges| ==> IndexOf(g.nodes, g.edges[e].from).Some?
    ensures InitialState(g).Ok? ==>
      var s := InitialState(g).value;
      && |s.values| == |s.impulses| == |g.nodes| && IsSquare(s.matrix, |g.nodes|)
      && forall k :: 0 <= k < |g.nodes| ==> s.values[k] == g.nodes[k].value && s.impulses[k] == g.nodes[k].impulse
  {
  }

  /** A cell holds the influence of the last edge landing on it. */
  lemma {:induction false} LastEdgeWins(nodes: seq<Node>, edges: seq<Edge>, k: nat, i: nat, j: nat)
    requires k < |edges| && Lands(nodes, edges[k], i, j)
    requires forall l :: k < l < |edges| ==> !Lands(nodes, edges[l], i, j)
    ensures LastInfluence(nodes, edges, i, j) == edges[k].influence
    decreases |edges|
  {
    if k < |edges| - 1 {
      LastEdgeWins(nodes, edges[..|edges| - 1], k, i, j);
    }
  }

  /** A cell no edge lands on holds 0. */
  lemma {:induction false} NoEdgeNoInfluence(nodes: seq<Node>, edges: seq<Edge>, i: nat, j: nat)
    requires forall l :: 0 <= l < |edges| ==> !Lands(nodes, edges[l], i, j)
    ensures LastInfluence(nodes, edges, i, j) == 0.0
    decreases |edges|
  {
    if |edges| > 0 {
      NoEdgeNoInfluence(nodes, edges[..|edges| - 1], i, j);
    }
  }

  /**
   * With the edge guard's invariant, the matrix has one cell per edge: the
   * cell of an edge holds its own influence and the opposite cell holds 0.
   */
  lemma SimpleGraphCells(g: GraphData, k: nat)
    requires Simple(Links(g.edges))
    requires InitialState(g).Ok?
    requires k < |g.edges| && IndexOf(g.nodes, g.edges[k].to).Some?
    ensures var s := InitialState(g).value;
      var i, j := IndexOf(g.nodes, g.edges[k].from).value, IndexOf(g.nodes, g.edges[k].to).value;
      i != j && s.matrix[i][j] == g.edges[k].influence && s.matrix[j][i] == 0.0
  {
    var nodes, edges := g.nodes, g.edges;
    var links := Links(edges);
    var i, j := IndexOf(nodes, edges[k].from).value, IndexOf(nodes, edges[k].to).value;
    assert links[k] == Link(edges[k].from, edges[k].to);
    assert i != j;
    forall l | k < l < |edges|
      ensures !Lands(nodes, edges[l], i, j)
    {
      assert links[l] == Link(edges[l].from, edges[l].to);
    }
    LastEdgeWins(nodes, edges, k, i, j);
    forall l | 0 <= l < |edges|
      ensures !Lands(nodes, edges[l], j, i)
    {
      assert links[l] == Link(edges[l].from, edges[l].to);
    }
    NoEdgeNoInfluence(nodes, edges, j, i);
  }

  // ----- The loops of performInitialCalculation -----

  /** The pass over the nodes: the id-to-index table and both vectors of step 0. */
  method IndexNodes(nodes: seq<Node>) returns (index: map<NodeId, nat>, values: Vector, impulses: Vector)
    ensures |values| == |nodes| && |impulses| == |nodes|
    ensures forall t :: 0 <= t < |nodes| ==> values[t] == nodes[t].value && impulses[t] == nodes[t].impulse
    ensures forall id :: id in index <==> IndexOf(nodes, id).Some?
    ensures forall id :: id in index ==> IndexOf(nodes, id) == Some(index[id])
  {
    index, values, impulses := map[], [], [];
    var k := 0;
    while k < |nodes|
      invariant 0 <= k <= |nodes|
      invariant |values| == k && |impulses| == k
      invariant forall t :: 0 <= t < k ==> values[t] == nodes[t].value && impulses[t] == nodes[t].impulse
      invariant forall id :: id in index <==> IndexOf(nodes[..k], id).Some?
      invariant forall id :: id in index ==> IndexOf(nodes[..k], id) == Some(index[id])
    {
      assert nodes[..k + 1][..k] == nodes[..k];
      index := index[nodes[k].id := k];
      impulses := impulses + [nodes[k].impulse];
      values := values + [nodes[k].value];
      k := k + 1;
    }
    assert nodes[..|nodes|] == nodes;
  }

  /** The n x n matrix of zeros, built row by row. */
  method ZeroMatrix(n: nat) returns (matrix: Matrix)
    ensures IsSquare(matrix, n)
    ensures forall a, b :: 0 <= a < n && 0 <= b < n ==> matrix[a][b] == 0.0
  {
    matrix := [];
    var i := 0;
    while i < n
      invariant 0 <= i <= n
      invariant |matrix| == i && forall a :: 0 <= a < i ==> matrix[a] == Zeros(n)
    {
      var row: Vector := [];
      var j := 0;
      while j < n
        invariant 0 <= j <= n && row == Zeros(j)
      {
        row := row + [0.0];
        j := j + 1;
      }
      matrix := matrix + [row];
      i := i + 1;
    }
  }

  /**
   * The pass over the edges: write each edge's influence into the cell of its
   * endpoints; stop with the edge's index when its `from` is not in the table.
   */
  method WriteInfluences(nodes: seq<Node>, edges: seq<Edge>, index: map<NodeId, nat>, zero: Matrix)
    returns (r: Result<Matrix, nat>)
    requires forall id :: id in index <==> IndexOf(nodes, id).Some?
    requires forall id :: id in index ==> IndexOf(nodes, id) == Some(index[id])
    requires IsSquare(zero, |nodes|)
    requires forall a, b :: 0 <= a < |nodes| && 0 <= b < |nodes| ==> zero[a][b] == 0.0
    ensures r == match FirstUnknownSource(nodes, edges)
                 case Some(k) => Err(k)
                 case None => Ok(InfluenceMatrix(nodes, edges))
  {
    var n := |nodes|;
    var matrix := zero;
    var e := 0;
    while e < |edges|
      invariant 0 <= e <= |edges|
      invariant IsSquare(matrix, n)
      invariant FirstUnknownSource(nodes, edges[..e]).None?
      invariant forall a, b :: 0 <= a < n && 0 <= b < n ==> matrix[a][b] == LastInfluence(nodes, edges[..e], a, b)
    {
      var edge := edges[e];
      FirstUnknownSourceStep(nodes, edges, e);
      if edge.from !in index {
        FirstUnknownSourcePrefix(nodes, edges, e + 1);
        return Err(e);
      }
      var from := index[edge.from];
      ghost var before := matrix;
      if edge.to in index {
        var to := index[edge.to];
        matrix := matrix[from := matrix[from][to := edge.influence]];
      }
      WriteEdgeCells(nodes, edges, e, before, matrix);
      e := e + 1;
    }
    assert edges[..|edges|] == edges;
    InfluenceMatrixByCells(nodes, edges, matrix);
    return Ok(matrix);
  }

  /** performInitialCalculation's computation: the snapshot of `g`, or the edge on which it throws. */
  method BuildSnapshot(g: GraphData) returns (r: Result<Snapshot, nat>)
    ensures r == InitialState(g)
  {
    var index, values, impulses := IndexNodes(g.nodes);
    var zero := ZeroMatrix(|g.nodes|);
    var written := WriteInfluences(g.nodes, g.edges, index, zero);
    match written
    case Err(e) =>
      return Err(e);
    case Ok(matrix) =>
      assert values == InitialState(g).value.values;
      assert impulses == InitialState(g).value.impulses;
      return Ok(Snapshot(values, impulses, matrix));
  }
}
