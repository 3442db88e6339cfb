/** How the delete and render filters of the canvas editor treat repeated
    entries: each keeps every copy of what it keeps, in order, so together
    with the order lemmas of `Canvas` they pin down JavaScript's `filter`. */
module CanvasFilters {
  import opened MindMapTypes
  import opened Canvas

  /** Deleting keeps every copy of a surviving node: with the order lemma
      below, this pins down `filter` exactly. */
  lemma {:induction false} WithoutNodeCounts(nodes: seq<Node>, id: NodeId)
    ensures forall n :: multiset(WithoutNode(nodes, id))[n] == if n.id == id then 0 else multiset(nodes)[n]
  {
    if nodes != [] {
      assert nodes == [nodes[0]] + nodes[1..];
      WithoutNodeCounts(nodes[1..], id);
    }
  }

  /** Deleting keeps every copy of a connection that does not touch the node. */
  lemma {:induction false} WithoutIncidentCounts(connections: seq<Connection>, id: NodeId)
    ensures forall c :: multiset(WithoutIncident(connections, id))[c]
                        == if c.from == id || c.to == id then 0 else multiset(connections)[c]
  {
    if connections != [] {
      assert connections == [connections[0]] + connections[1..];
      WithoutIncidentCounts(connections[1..], id);
    }
  }

  /** A drawn connection is drawn as many times as it occurs in the list. */
  lemma {:induction false} DrawnCounts(nodes: seq<Node>, connections: seq<Connection>)
    ensures forall c :: multiset(Drawn(nodes, connections))[c]
                        == if HasNode(nodes, c.from) && HasNode(nodes, c.to) then multiset(connections)[c] else 0
  {
    if connections != [] {
      assert connections == [connections[0]] + connections[1..];
      DrawnCounts(nodes, connections[1..]);
    }
  }

  /** The drawn lines keep the order they have in the connection list. */
  lemma {:induction false} DrawnKeepsOrder(nodes: seq<Node>, connections: seq<Connection>)
    ensures IsSubsequence(Drawn(nodes, connections), connections)
  {
    if connections != [] {
      DrawnKeepsOrder(nodes, connections[1..]);
    }
  }
}
