/**
 * The graph data of a cognitive map and its storage (app/graph.component.ts).
 *
 * The graph exists in two forms: the plain form (`GraphData`), which is saved
 * to file and read by the calculator, and the display form (`RawGraphData`),
 * which the network widget edits.  A display node keeps the plain fields in
 * its `info` and shows a caption built from them.  `GraphDataStorage` holds at
 * most one form as installed by the last update and rebuilds the other one on
 * demand.
 */
module Graph {
  import opened Wrappers

  /** Node identifiers; the source only ever compares them for equality. */
  type NodeId = int

  /** Conversion of a number to text in a caption (the JavaScript runtime's). */
  type NumberFormat = real -> string

  datatype Node = Node(id: NodeId, name: string, value: real, impulse: real)
  datatype Edge = Edge(from: NodeId, to: NodeId, name: string, influence: real)
  datatype GraphData = GraphData(nodes: seq<Node>, edges: seq<Edge>)

  datatype NodeInfo = NodeInfo(name: string, value: real, impulse: real)
  datatype EdgeInfo = EdgeInfo(name: string, influence: real)
  /** A node as the network widget holds it: `caption` is the text shown. */
  datatype RawNode = RawNode(id: NodeId, caption: string, info: NodeInfo)
  /** An edge as the network widget holds it: `caption` is the text shown. */
  datatype RawEdge = RawEdge(from: NodeId, to: NodeId, caption: string, info: EdgeInfo)
  datatype RawGraphData = RawGraphData(nodes: seq<RawNode>, edges: seq<RawEdge>)

  /** The caption `name (value, impulse)` of a node. */
  function NodeCaption(info: NodeInfo, format: NumberFormat): (c: string)
    ensures |c| >= |info.name| + 3 && c[..|info.name| + 2] == info.name + " (" && c[|c| - 1] == ')'
  {
    info.name + " (" + format(info.value) + ", " + format(info.impulse) + ")"
  }

  /** The caption `name (influence)` of an edge. */
  function EdgeCaption(info: EdgeInfo, format: NumberFormat): (c: string)
    ensures |c| >= |info.name| + 3 && c[..|info.name| + 2] == info.name + " (" && c[|c| - 1] == ')'
  {
    info.name + " (" + format(info.influence) + ")"
  }

  // ----- MarshalData: display form to plain form -----

  function MarshalNode(node: RawNode): Node
  {
    Node(node.id, node.info.name, node.info.value, node.info.impulse)
  }

  function MarshalEdge(edge: RawEdge): Edge
  {
    Edge(edge.from, edge.to, edge.info.name, edge.info.influence)
  }

  function Marshal(raw: RawGraphData): (d: GraphData)
    ensures |d.nodes| == |raw.nodes| && |d.edges| == |raw.edges|
  {
    GraphData(
      seq(|raw.nodes|, k requires 0 <= k < |raw.nodes| => MarshalNode(raw.nodes[k])),
      seq(|raw.edges|, k requires 0 <= k < |raw.edges| => MarshalEdge(raw.edges[k])))
  }

  // ----- UnmarshalData: plain form to display form -----

  function UnmarshalNode(node: Node, format: NumberFormat): RawNode
  {
    var info := NodeInfo(node.name, node.value, node.impulse);
    RawNode(node.id, NodeCaption(info, format), info)
  }

  function UnmarshalEdge(edge: Edge, format: NumberFormat): RawEdge
  {
    var info := EdgeInfo(edge.name, edge.influence);
    RawEdge(edge.from, edge.to, EdgeCaption(info, format), info)
  }

  function Unmarshal(d: GraphData, format: NumberFormat): (raw: RawGraphData)
    ensures |raw.nodes| == |d.nodes| && |raw.edges| == |d.edges|
  {
    RawGraphData(
      seq(|d.nodes|, k requires 0 <= k < |d.nodes| => UnmarshalNode(d.nodes[k], format)),
      seq(|d.edges|, k requires 0 <= k < |d.edges| => UnmarshalEdge(d.edges[k], format)))
  }

  /** Every caption of `raw` is the one its `info` gives. */
  predicate WellCaptioned(raw: RawGraphData, format: NumberFormat)
  {
    && (forall k :: 0 <= k < |raw.nodes| ==> raw.nodes[k].caption == NodeCaption(raw.nodes[k].info, format))
    && (forall k :: 0 <= k < |raw.edges| ==> raw.edges[k].caption == EdgeCaption(raw.edges[k].info, format))
  }

  /** Unmarshalling keeps every plain field in `info` and captions each item from it. */
  lemma UnmarshalKeepsFields(d: GraphData, format: NumberFormat)
    ensures var raw := Unmarshal(d, format);
      && WellCaptioned(raw, format)
      && (forall k :: 0 <= k < |d.nodes| ==>
            raw.nodes[k].id == d.nodes[k].id &&
            raw.nodes[k].info == NodeInfo(d.nodes[k].name, d.nodes[k].value, d.nodes[k].impulse))
      && (forall k :: 0 <= k < |d.edges| ==>
            raw.edges[k].from == d.edges[k].from && raw.edges[k].to == d.edges[k].to &&
            raw.edges[k].info == EdgeInfo(d.edges[k].name, d.edges[k].influence))
  {
  }

  /** Marshal undoes Unmarshal: order, length and every field survive. */
  lemma MarshalUnmarshal(d: GraphData, format: NumberFormat)
    ensures Marshal(Unmarshal(d, format)) == d
  {
    var d' := Marshal(Unmarshal(d, format));
    assert d'.nodes == d.nodes;
    assert d'.edges == d.edges;
  }

  /** Unmarshal undoes Marshal exactly on display data whose captions are the standard ones. */
  lemma UnmarshalMarshal(raw: RawGraphData, format: NumberFormat)
    ensures Unmarshal(Marshal(raw), format) == raw <==> WellCaptioned(raw, format)
  {
    var raw' := Unmarshal(Marshal(raw), format);
    if WellCaptioned(raw, format) {
      assert raw'.nodes == raw.nodes;
      assert raw'.edges == raw.edges;
    }
    if raw' == raw {
      UnmarshalKeepsFields(Marshal(raw), format);
    }
  }

  /** `Unmarshal(d)` is the one well-captioned display form whose plain form is `d`. */
  lemma UnmarshalCharacterised(d: GraphData, raw: RawGraphData, format: NumberFormat)
    ensures raw == Unmarshal(d, format) <==> WellCaptioned(raw, format) && Marshal(raw) == d
  {
    UnmarshalKeepsFields(d, format);
    MarshalUnmarshal(d, format);
    UnmarshalMarshal(raw, format);
  }

  // ----- GraphDataStorage -----

  /**
   * The store.  `data` and `rawData` are `undefined` in the source when they
   * are None here; `notifications` counts the `dataUpdated` events emitted.
   */
  class GraphDataStorage {
    var data: Option<GraphData>
    var rawData: Option<RawGraphData>
    var notifications: nat
    const format: NumberFormat

    /** When both forms are present they describe the same graph. */
    ghost predicate Valid()
      reads this
    {
      data.Some? && rawData.Some? ==> data.value == Marshal(rawData.value)
    }

    /** Some form has been installed, so the getters do not fail. */
    predicate HasData()
      reads this
    {
      data.Some? || rawData.Some?
    }

    /** The plain form of the stored graph, the value `getData` returns. */
    function Current(): GraphData
      reads this
      requires HasData()
    {
      if data.Some? then data.value else Marshal(rawData.value)
    }

    constructor (format: NumberFormat)
      ensures Valid() && !HasData()
      ensures data == None && rawData == None && notifications == 0
      ensures this.format == format
    {
      data := None;
      rawData := None;
      notifications := 0;
      this.format := format;
    }

    /** `getData`: the plain form, rebuilt from the display form and cached when absent. */
    method GetData() returns (d: GraphData)
      requires Valid() && HasData()
      modifies this`data
      ensures Valid() && HasData()
      ensures d == old(Current()) && Current() == d
      ensures data == Some(d)
      ensures old(data).Some? ==> d == old(data).value
      ensures rawData == old(rawData)
    {
      if data.None? {
        data := Some(Marshal(rawData.value));
      }
      d := data.value;
    }

    /** `getRawData`: the display form, rebuilt from the plain form and cached when absent. */
    method GetRawData() returns (raw: RawGraphData)
      requires Valid() && HasData()
      modifies this`rawData
      ensures Valid() && HasData()
      ensures rawData == Some(raw)
      ensures raw == if old(rawData).Some? then old(rawData).value else Unmarshal(old(data).value, format)
      ensures Current() == old(Current())
      ensures data == old(data)
    {
      if rawData.None? {
        MarshalUnmarshal(data.value, format);
        rawData := Some(Unmarshal(data.value, format));
      }
      raw := rawData.value;
    }

    /** `updateData`: install the plain form, drop the display form, notify. */
    method UpdateData(d: GraphData)
      modifies this
      ensures Valid() && HasData()
      ensures data == Some(d) && rawData == None && Current() == d
      ensures notifications == old(notifications) + 1
    {
      data := Some(d);
      rawData := None;
      notifications := notifications + 1;
    }

    /** `updateRawData`: install the display form, drop the plain form, notify. */
    method UpdateRawData(raw: RawGraphData)
      modifies this
      ensures Valid() && HasData()
      ensures rawData == Some(raw) && data == None && Current() == Marshal(raw)
      ensures notifications == old(notifications) + 1
    {
      rawData := Some(raw);
      data := None;
      notifications := notifications + 1;
    }
  }

  /** `updateData(d)` then `getData()`: the very graph installed comes back. */
  method UpdateThenGetData(storage: GraphDataStorage, d: GraphData) returns (got: GraphData)
    modifies storage
    ensures got == d && storage.Valid()
  {
    storage.UpdateData(d);
    got := storage.GetData();
  }

  /** `updateRawData(raw)` then `getRawData()`: the very display form installed comes back. */
  method UpdateRawThenGetRawData(storage: GraphDataStorage, raw: RawGraphData) returns (got: RawGraphData)
    modifies storage
    ensures got == raw && storage.Valid()
  {
    storage.UpdateRawData(raw);
    got := storage.GetRawData();
  }

  /** Two `getData()` calls in a row agree: the first one caches what it rebuilds. */
  method GetDataTwice(storage: GraphDataStorage) returns (first: GraphData, second: GraphData)
    requires storage.Valid() && storage.HasData()
    modifies storage`data
    ensures first == second == old(storage.Current())
  {
    first := storage.GetData();
    second := storage.GetData();
  }

  /** Two `getRawData()` calls in a row agree: the first one caches what it rebuilds. */
  method GetRawDataTwice(storage: GraphDataStorage) returns (first: RawGraphData, second: RawGraphData)
    requires storage.Valid() && storage.HasData()
    modifies storage`rawData
    ensures first == second
    ensures Marshal(first) == old(storage.Current())
  {
    first := storage.GetRawData();
    second := storage.GetRawData();
  }
}
