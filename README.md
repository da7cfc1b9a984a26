# Cognitive-map impulse calculator: a Dafny model

This project models the computational core of the cognitive-map editor. A
cognitive map is a directed graph. Each node has a value and an impulse, and
each edge has an influence.

- **The calculator** (`Calculator`, app/calculator.ts). It takes a snapshot of
  the stored graph: a value vector, an impulse vector and the n x n influence
  matrix. It then keeps an append-only cache of per-step values, impulses and
  matrices. The cache grows under a fixed recurrence:
  - `value += impulse`;
  - `impulse = impulse0 * previous matrix`;
  - `matrix = matrix0 * previous matrix`.

  `calculate(steps)` answers with the first `steps` entries of the cache. A
  change notification from the storage wipes the cache.
- **The graph storage** (`GraphDataStorage`, app/graph.component.ts). It holds
  the graph as the plain data the calculator reads, or as the display data the
  network widget edits, or both. It rebuilds a missing form on demand with the
  `MarshalData` / `UnmarshalData` conversions.
- **The edge guard** of the editor's `addEdge` hook. It refuses a self-loop
  and a second edge between the same two nodes in either direction.

Modules, one per file:

| file | module | contents |
|---|---|---|
| wrappers.dfy | `Wrappers` | `Option`, `Result` |
| matrices.dfy | `Matrices` | vectors, square matrices, the vector-matrix and matrix-matrix products, identity, powers, and their algebra (identities, linearity, associativity) |
| graph.dfy | `Graph` | the plain and display graph forms, `Marshal`/`Unmarshal` with their round trips, and the `GraphDataStorage` class |
| edge_guard.dfy | `EdgeGuard` | the `addEdge` guard as a loop, the predicate it decides, and the "simple edge list" invariant it keeps |
| propagation.dfy | `Propagation` | the step recurrence as functions of the initial snapshot, the cache invariant `Cached`, and the power laws |
| initial_calculation.dfy | `InitialCalculation` | the snapshot a graph yields (`InitialState`), and the loops of `performInitialCalculation` proved against it |
| calculator.dfy | `Calculation` | the answer `calculate(steps)` must give (`Expected`), its laws, and the `Calculator` class |
| worked_example.dfy | `WorkedExample` | the two-node example: A(10, 1), B(5, -1), edge A -> B of influence 0.5, two steps |

How the state is represented:

- The calculator's fields are fields of a Dafny class. `Valid()` states that
  the three caches hold exactly the first `maxSteps` steps of the snapshot.
  `InSync()` states that the held snapshot is the stored graph.
- The storage counts the `dataUpdated` notifications it emits in
  `notifications`. The calculator records in a ghost `heard` how many it has
  handled.
- `Calculator.Invalidate` is the body of the subscription callback.
  `Publish`/`PublishRaw` are an update followed by delivery of its
  notification.
- Numbers are exact reals.
- Node ids are integers, used only for equality.
- A vis `DataSet` is a sequence.
- The runtime's number-to-text conversion is a function parameter
  (`NumberFormat`).

Where the code and its description differ, the model follows the code. The
one exception is the state a thrown initial calculation leaves behind (see the
first `Calculation.Calculator.Calculate` line under "Left out").

- A graph with no nodes but some edges does not give an empty answer from the
  first `calculate` after a data change. The initial calculation runs first,
  and the first edge indexes a row of an empty matrix and throws. `Expected`
  gives `UnknownSource(0)` (lemma `EmptyGraph`). A later call behaves
  differently in the source, as "Left out" describes.
- An edge whose `to` is not a node id does not raise an error. It writes a
  non-index property on a row and changes no cell, so the model ignores it.
  Only an unknown `from` throws.

## Model

| member | source | states |
|---|---|---|
| `Matrices.VecMat` | app/calculator.ts:48 | `math.multiply(impulses[0], matrixPrev)`: the product of a row vector of n entries with an n x n matrix has n entries (entry j is the vector dotted with column j) |
| `Matrices.MatMul` | app/calculator.ts:49 | `math.multiply(matrices[0], matrixPrev)`: the product of two n x n matrices is n x n, and entry (i, j) is row i of the left factor dotted with column j of the right one |
| `Matrices.VecMatIdentity` | app/calculator.ts:48 | a row vector times the identity is the vector itself |
| `Matrices.MatMulIdentityRight` | app/calculator.ts:49 | a matrix times the identity is the matrix itself |
| `Matrices.MatMulIdentityLeft` | app/calculator.ts:49 | the identity times a matrix is the matrix itself |
| `Matrices.VecMatAssociative` | app/calculator.ts:48-49 | (v * a) * b == v * (a * b) for the products the calculator takes |
| `Matrices.MatMulAssociative` | app/calculator.ts:49 | (a * b) * c == a * (b * c) |
| `Matrices.MatPowCommutes` | app/calculator.ts:49 | m * m^k == m^k * m, so premultiplying by matrix0 builds powers |
| `Matrices.DotCommutes` | app/calculator.ts:48 | the dot product is symmetric |
| `Matrices.DotAddLeft` | app/calculator.ts:48 | the dot product is additive in its left argument |
| `Matrices.DotScaleLeft` | app/calculator.ts:48 | the dot product is homogeneous in its left argument |
| `Matrices.CombinationDot` | app/calculator.ts:48-49 | a dot product with a combination of rows is the combination of the row dot products |
| `Matrices.VecMatIsCombination` | app/calculator.ts:48 | v * m is the combination of the rows of m weighted by v |
| `Graph.NodeCaption` | app/graph.component.ts:106 | a node's caption starts with its label followed by " (" and ends with ")" |
| `Graph.EdgeCaption` | app/graph.component.ts:118 | an edge's caption starts with its label followed by " (" and ends with ")" |
| `Graph.Marshal` | app/graph.component.ts:87-99 | `MarshalData` keeps the number of nodes and edges |
| `Graph.Unmarshal` | app/graph.component.ts:101-126 | `UnmarshalData` keeps the number of nodes and edges |
| `Graph.UnmarshalKeepsFields` | app/graph.component.ts:103-124 | every display item keeps id / from / to and the plain fields in `info`, and is captioned `label (value, impulse)` or `label (influence)` |
| `Graph.MarshalUnmarshal` | app/graph.component.ts:87-126 | `MarshalData(UnmarshalData(d)) == d`: every node's id, label, value and impulse and every edge's from, to, label and influence survive, in order |
| `Graph.UnmarshalMarshal` | app/graph.component.ts:87-126 | `UnmarshalData(MarshalData(r)) == r` exactly when every caption of `r` is the standard one built from its `info` |
| `Graph.UnmarshalCharacterised` | app/graph.component.ts:87-126 | `UnmarshalData(d)` is the one well-captioned display form whose plain form is `d` |
| `Graph.GraphDataStorage.constructor` | app/graph.component.ts:55-59 | a new store holds neither form and has emitted no notification |
| `Graph.GraphDataStorage.GetData` | app/graph.component.ts:61-66 | returns the stored plain form, or builds it from the display form and caches it; the display form is untouched |
| `Graph.GraphDataStorage.GetRawData` | app/graph.component.ts:68-73 | returns the stored display form, or `UnmarshalData` of the plain form and caches it; the graph described does not change |
| `Graph.GraphDataStorage.UpdateData` | app/graph.component.ts:75-79 | installs the plain form, drops the display form, emits one notification |
| `Graph.GraphDataStorage.UpdateRawData` | app/graph.component.ts:81-85 | installs the display form, drops the plain form, emits one notification |
| `Graph.UpdateThenGetData` | app/graph.component.ts:61-79 | `getData()` after `updateData(d)` returns `d` |
| `Graph.UpdateRawThenGetRawData` | app/graph.component.ts:68-85 | `getRawData()` after `updateRawData(r)` returns `r` |
| `Graph.GetDataTwice` | app/graph.component.ts:61-66 | two `getData()` calls in a row return the same graph |
| `Graph.GetRawDataTwice` | app/graph.component.ts:68-73 | two `getRawData()` calls in a row return the same display form, whose plain form is the stored graph |
| `EdgeGuard.RawLinks` | app/graph.component.ts:214-228 | the guard reads one (from, to) pair per widget edge, in order |
| `EdgeGuard.AdmitEdge` | app/graph.component.ts:214-228 | the guard accepts exactly when `from != to` and no existing edge joins the two nodes in either direction |
| `EdgeGuard.AdmitKeepsSimple` | app/graph.component.ts:214-233 | appending an edge to a simple edge list (no self-loop, one edge per unordered pair) keeps it simple if and only if the guard admits the edge |
| `EdgeGuard.SimpleIffBuiltByGuard` | app/graph.component.ts:214-233 | an edge list is simple exactly when the guard could have built it one edge at a time |
| `EdgeGuard.MarshalKeepsLinks` | app/graph.component.ts:92-97 | marshalling keeps every edge's endpoints, so the guard's invariant carries over to the calculator's input |
| `InitialCalculation.IndexOf` | app/calculator.ts:66-68 | the id-to-index table maps an id to the last node carrying it, and to nothing when no node does |
| `InitialCalculation.FirstUnknownSource` | app/calculator.ts:82-85 | the first edge whose `from` is no node id, where the edge pass throws; none when every edge starts at a node |
| `InitialCalculation.LastInfluence` | app/calculator.ts:82-86 | a cell no edge lands on holds 0, and any other value a cell holds is the influence of an edge landing on it |
| `InitialCalculation.InfluenceMatrix` | app/calculator.ts:73-86 | the influence matrix is n x n, and every non-zero cell (i, j) is the influence of an edge from node i to node j |
| `InitialCalculation.InitialState` | app/calculator.ts:60-89 | a built snapshot is well shaped with n entries; a failure names an edge whose `from` is no node id, every earlier edge starting at a node |
| `InitialCalculation.InitialStateCopiesNodes` | app/calculator.ts:64-86 | a snapshot exists exactly when every edge starts at a node; then values[0] and impulses[0] have length n with entry k the value and impulse of node k, and the matrix is n x n |
| `InitialCalculation.LastEdgeWins` | app/calculator.ts:82-86 | a cell holds the influence of the last edge, in edge order, from its row node to its column node |
| `InitialCalculation.NoEdgeNoInfluence` | app/calculator.ts:74-81 | a cell no edge lands on holds 0 |
| `InitialCalculation.SimpleGraphCells` | app/calculator.ts:82-86 | on an edge list the guard could have built, each edge's cell holds its own influence and the opposite cell holds 0 |
| `InitialCalculation.IndexNodes` | app/calculator.ts:64-71 | the node pass fills the id-to-index table as `IndexOf` and copies every node's value and impulse |
| `InitialCalculation.ZeroMatrix` | app/calculator.ts:73-81 | the nested loops build the n x n zero matrix |
| `InitialCalculation.WriteInfluences` | app/calculator.ts:82-86 | the edge pass yields the influence matrix, or stops at the first edge with an unknown `from` |
| `InitialCalculation.BuildSnapshot` | app/calculator.ts:60-89 | `performInitialCalculation`'s computation yields exactly `InitialState` of the graph |
| `Propagation.MatrixAt` | app/calculator.ts:47-49 | the matrix of step i is n x n |
| `Propagation.ImpulseAt` | app/calculator.ts:47-48 | the impulse of step i has n entries |
| `Propagation.ValueAt` | app/calculator.ts:41-46 | the value vector of step i has n entries |
| `Propagation.CachedShapes` | app/calculator.ts:40-50 | every cached vector has n entries and every cached matrix is n x n |
| `Propagation.CachedValues` | app/calculator.ts:41-46 | values[i + 1][j] == values[i][j] + impulses[i][j] for every cached step and node |
| `Propagation.CachedPropagation` | app/calculator.ts:47-49 | impulses[i] == impulses[0] * matrices[i - 1] and matrices[i] == matrices[0] * matrices[i - 1] |
| `Propagation.CachedExtend` | app/calculator.ts:40-50 | appending the next step to exact caches keeps them exact |
| `Propagation.NextStep` | app/calculator.ts:41-49 | the loop body's three expressions, read from the caches, are the next step's value, impulse and matrix |
| `Propagation.StepsArePrefixes` | app/calculator.ts:52-56 | the first k1 steps are a prefix of the first k2 >= k1 steps |
| `Propagation.MatrixAtIsPower` | app/calculator.ts:47-49 | the matrix of step i is the influence matrix to the power i + 1 |
| `Propagation.ImpulseAtIsPower` | app/calculator.ts:47-48 | the impulse of step i is impulse0 times the influence matrix to the power i |
| `Propagation.ValueAtAccumulates` | app/calculator.ts:41-46 | a node's value at step i is its initial value plus every impulse it received in steps 0 .. i-1 |
| `Propagation.ImpulsePropagates` | app/calculator.ts:47-48 | each impulse is the previous impulse times the influence matrix |
| `Calculation.Expected` | app/calculator.ts:36-58 | the answer throws exactly when some edge starts at no node, naming the first such edge; it is empty exactly when the graph has neither nodes nor edges; otherwise it has `steps` entries in each sequence and carries the node list |
| `Calculation.EmptyGraph` | app/calculator.ts:37-86 | a graph without nodes gives no result; with any edge it throws on edge 0 |
| `Calculation.FirstStepIsGraph` | app/calculator.ts:52-87 | step 0 of an answer is the node values, the node impulses and the influence matrix, and the answer carries the node list |
| `Calculation.AnswersArePrefixes` | app/calculator.ts:40-57 | `calculate(s1)` and `calculate(s2)` with s1 <= s2 agree on the first s1 entries |
| `Calculation.AnswerIsCached` | app/calculator.ts:40-57 | an answer is exactly the first `steps` cached steps of the graph's snapshot |
| `Calculation.AnswerShapes` | app/calculator.ts:40-50 | every step of an answer has n values, n impulses and an n x n matrix |
| `Calculation.AnswerValues` | app/calculator.ts:41-46 | values[i + 1][j] == values[i][j] + impulses[i][j] in every answer |
| `Calculation.AnswerPropagation` | app/calculator.ts:47-49 | impulses[i + 1] == impulses[0] * matrices[i] and matrices[i + 1] == matrices[0] * matrices[i] in every answer |
| `Calculation.AnswerMatricesArePowers` | app/calculator.ts:47-49 | matrices[i] of an answer is the influence matrix to the power i + 1 |
| `Calculation.AnswerImpulsesPropagate` | app/calculator.ts:47-48 | impulses[i + 1] of an answer is impulses[i] times the influence matrix |
| `Calculation.NextValues` | app/calculator.ts:41-45 | the inner loop computes the entry-wise sum of the previous values and impulses |
| `Calculation.NextCachedStep` | app/calculator.ts:41-49 | one round of the step loop computes exactly the next step's value, impulse and matrix |
| `Calculation.AppendSteps` | app/calculator.ts:40-50 | the step loop only appends, brings the caches to max(old length, steps) entries, and keeps them exact |
| `Calculation.Calculator.constructor` | app/calculator.ts:26-34 | a new calculator holds nothing, and its invariants hold |
| `Calculation.Calculator.Invalidate` | app/calculator.ts:27-33 | the notification handler clears the caches and the snapshot and sets `maxSteps` to 0 |
| `Calculation.Calculator.PerformInitialCalculation` | app/calculator.ts:60-89 | caches step 0 of the stored graph with `maxSteps = 1`, or reports the edge whose `from` is unknown |
| `Calculation.Calculator.Extend` | app/calculator.ts:40-51 | the caches grow to `max(maxSteps, steps)` exact entries, each old entry kept |
| `Calculation.Calculator.Calculate` | app/calculator.ts:36-58 | the answer is `Expected` of the stored graph: the first `steps` entries of each cache and the node list; a nodeless graph leaves the cache untouched; an existing snapshot is kept and its cache only grows |
| `Calculation.Publish` | app/graph.component.ts:75-79 | `updateData(d)` plus delivery of its notification leaves the calculator empty and the store holding `d` |
| `Calculation.PublishRaw` | app/graph.component.ts:81-85 | `updateRawData(r)` plus delivery of its notification leaves the calculator empty and the store holding `MarshalData(r)` |
| `Calculation.Session` | app/calculator.ts:36-58 | after publishing a graph, `calculate(s1)`, `calculate(s2)` with s2 >= s1 and `calculate(s1)` again: the longer answer extends the shorter and the repeat is identical |
| `WorkedExample.ExampleSnapshot` | app/calculator.ts:60-89 | the example graph's snapshot is values [10, 5], impulses [1, -1], matrix [[0, 0.5], [0, 0]] |
| `WorkedExample.ExampleSquare` | app/calculator.ts:49 | the example's influence matrix squares to zero |
| `WorkedExample.ExampleStepOne` | app/calculator.ts:41-49 | step 1 of the example: impulse [0, 0.5], matrix zero, values [11, 4] |
| `WorkedExample.TwoSteps` | app/calculator.ts:36-58 | `calculate(2)` on the example gives values [[10, 5], [11, 4]], impulses [[1, -1], [0, 0.5]] and matrices [[[0, 0.5], [0, 0]], [[0, 0], [0, 0]]] |
| `WorkedExample.CalculateExample` | app/calculator.ts:36-58 | publishing the example and calling the calculator gives those two steps |

## Left out

- The Angular components, dialogs, charting, workbook export, Electron file handling and settings are not modelled. They are UI glue, foreign libraries and I/O.
- The `EventEmitter` fan-out is not modelled. The storage counts its notifications, and delivery is an explicit call to `Calculator.Invalidate` (`Publish`, `PublishRaw`).
- IEEE floating point and the math library's internals are not modelled. Numbers are exact reals, and the products are written out.
- The runtime's number-to-text conversion in captions is not modelled. It is a parameter.
- `console.log` calls are left out.
- The source's `label` fields are named `name` (the plain label) and `caption` (the displayed text), because `label` is a reserved word.
- Object identity and aliasing are not modelled. The source hands out the stored objects themselves, so a later change to a returned graph would reach the store. Values are immutable here.
- vis-assigned edge ids and `DataSet` behaviour beyond an ordered list are not modelled.
- Node ids are integers. The source keys its id-to-index table by the ids' string form, so distinct ids with the same string form would collide. The model does not capture that.
- Calculation.Calculator.Calculate: does not model a retry after a thrown initial calculation. Before throwing on an unknown `from`, the source has set `graphData`, step 0 of values and impulses, and `matrices = []` (app/calculator.ts:61-73). The next `calculate` then skips the rebuild (line 37). A graph without nodes returns undefined (line 38). With `maxSteps` 0, after a notification, the loop reads `impulses[-1]` and throws a TypeError (lines 42-43). With `maxSteps` never set, the loop is skipped; the answer holds one step of values and impulses and no matrix, and `maxSteps` becomes NaN (lines 40 and 51-55). The model clears the calculator on the throw, so every retry reports `UnknownSource` again.
- Calculation.Calculator.Calculate: requires `steps >= 1`. `slice` on zero, negative or non-integer steps is not modelled.
- Calculation.Calculator.Calculate: requires stored data, because `getData` on an empty store fails in the source.
- Calculation.Calculator.PerformInitialCalculation: when an edge's `from` is unknown, the source throws after installing the snapshot and a partly built cache. The model reports the edge and leaves the calculator empty, so that state is not represented.
- Calculation.Calculator.constructor: the source leaves `maxSteps` undefined until the first notification. The model starts at 0. The two agree while every initial calculation succeeds, since that sets `maxSteps` to 1 (line 88); after a throw they differ, as the first `Calculate` line above describes.
- InitialCalculation.WriteInfluences: an edge whose `to` is not a node id writes a non-index property on a matrix row in the source. The model ignores the edge; the property's effect on the math library is not modelled.
- Propagation.MatrixAt: the contract states only the shape. The closed form, a power of the influence matrix, is the lemma `MatrixAtIsPower`. As a postcondition it is expanded wherever a step is mentioned, and the cache proofs become too costly for the verifier.
- Propagation.ImpulseAt: the contract states only the length. The closed form is the lemma `ImpulseAtIsPower`, for the same reason.
- Propagation.ValueAt: the contract states only the length. The accumulated sum is the lemma `ValueAtAccumulates`, for the same reason.
- Matrices.VecMat: the contract states only the length. The row-combination law is the lemma `VecMatIsCombination`, kept out of the postcondition for the same reason.
