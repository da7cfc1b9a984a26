/**
 * The rule the graph editor applies before it lets the user add an edge
 * (the `addEdge` hook in app/graph.component.ts): no edge from a node to
 * itself, and no second edge between the same two nodes in either direction.
 */
module EdgeGuard {
  import opened Graph

  /** The two endpoints of an edge, in order. */
  datatype Link = Link(from: NodeId, to: NodeId)

  function Links(edges: seq<Edge>): (links: seq<Link>)
    ensures |links| == |edges|
  {
    seq(|edges|, k requires 0 <= k < |edges| => Link(edges[k].from, edges[k].to))
  }

  /** The endpoints of the widget's edges: those of their plain form. */
  function RawLinks(edges: seq<RawEdge>): (links: seq<Link>)
    ensures |links| == |edges|
    ensures forall k :: 0 <= k < |edges| ==> links[k] == Link(edges[k].from, edges[k].to)
  {
    Links(seq(|edges|, k requires 0 <= k < |edges| => MarshalEdge(edges[k])))
  }

  /** `link` joins `from` and `to`, in one direction or the other. */
  predicate Joins(link: Link, from: NodeId, to: NodeId)
  {
    (link.from == from && link.to == to) || (link.from == to && link.to == from)
  }

  /** The guard lets an edge from `from` to `to` be added beside `links`. */
  predicate Admissible(links: seq<Link>, from: NodeId, to: NodeId)
  {
    from != to && forall k :: 0 <= k < |links| ==> !Joins(links[k], from, to)
  }

  /** No self-loop, and at most one link per unordered pair of nodes. */
  predicate Simple(links: seq<Link>)
  {
    && (forall k :: 0 <= k < |links| ==> links[k].from != links[k].to)
    && (forall k, l :: 0 <= k < l < |links| ==> !Joins(links[k], links[l].from, links[l].to))
  }

  /** Every link was admissible beside the links before it. */
  predicate BuiltByGuard(links: seq<Link>)
    decreases |links|
  {
    |links| == 0 ||
    (BuiltByGuard(links[..|links| - 1]) &&
     Admissible(links[..|links| - 1], links[|links| - 1].from, links[|links| - 1].to))
  }

  /**
   * The guard: reject a self-loop, then walk the existing edges and reject on
   * the first one joining the same two nodes.
   */
  method AdmitEdge(edges: seq<RawEdge>, from: NodeId, to: NodeId) returns (ok: bool)
    ensures ok == Admissible(RawLinks(edges), from, to)
  {
    if from == to {
      return false;
    }
    var i := 0;
    while i < |edges|
      invariant 0 <= i <= |edges|
      invariant forall k :: 0 <= k < i ==> !Joins(RawLinks(edges)[k], from, to)
    {
      var edge := edges[i];
      if (edge.from == from && edge.to == to) || (edge.from == to && edge.to == from) {
        assert Joins(RawLinks(edges)[i], from, to);
        return false;
      }
      i := i + 1;
    }
    return true;
  }

  /** Adding an admitted edge to a simple edge list keeps it simple, and only an admitted edge does. */
  lemma AdmitKeepsSimple(links: seq<Link>, from: NodeId, to: NodeId)
    requires Simple(links)
    ensures Simple(links + [Link(from, to)]) <==> Admissible(links, from, to)
  {
    var links' := links + [Link(from, to)];
    if Admissible(links, from, to) {
      forall k, l | 0 <= k < l < |links'|
        ensures !Joins(links'[k], links'[l].from, links'[l].to)
      {
        if l == |links| {
          assert !Joins(links[k], from, to);
        }
      }
    }
    if Simple(links') {
      assert links'[|links|] == Link(from, to);
      forall k | 0 <= k < |links|
        ensures !Joins(links[k], from, to)
      {
        assert links'[k] == links[k];
      }
    }
  }

  /** An edge list is simple exactly when the guard could have built it one edge at a time. */
  lemma {:induction false} SimpleIffBuiltByGuard(links: seq<Link>)
    ensures Simple(links) <==> BuiltByGuard(links)
    decreases |links|
  {
    if |links| > 0 {
      var p := |links| - 1;
      var init := links[..p];
      assert links == init + [Link(links[p].from, links[p].to)];
      SimpleIffBuiltByGuard(init);
      if Simple(links) {
        assert Simple(init) by {
          forall k, l | 0 <= k < l < |init|
            ensures !Joins(init[k], init[l].from, init[l].to)
          {
            assert init[k] == links[k] && init[l] == links[l];
          }
        }
        AdmitKeepsSimple(init, links[p].from, links[p].to);
      }
      if BuiltByGuard(links) {
        AdmitKeepsSimple(init, links[p].from, links[p].to);
      }
    }
  }

  /** Marshalling keeps every edge's endpoints, so simplicity carries over to the plain form. */
  lemma MarshalKeepsLinks(raw: RawGraphData)
    ensures Links(Marshal(raw).edges) == RawLinks(raw.edges)
  {
  }
}
