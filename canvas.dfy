/** The canvas editor of the create page (client/src/pages/CreateMindMap.tsx):
    the pure list transforms behind its handlers, the render-time filter of
    connections, and the component state as a class whose methods are the
    click and edit handlers. */
module Canvas {
  import opened MindMapTypes

  const NewNodeText: string := "New Node"
  const NewNodeColor: string := "#6b7280"

  /** The node the page starts with. */
  const MainIdea: Node := Node("1", 200.0, 150.0, "Main Idea", "#3b82f6")

  /** `a` is `b` with some elements dropped, the rest in their order. */
  ghost predicate IsSubsequence<T>(a: seq<T>, b: seq<T>)
    decreases |b|
  {
    a == [] || (b != [] && ((a[0] == b[0] && IsSubsequence(a[1..], b[1..])) || IsSubsequence(a, b[1..])))
  }

  /** `nodes.find(n => n.id === id)` finds something. */
  predicate HasNode(nodes: seq<Node>, id: NodeId) {
    exists n :: n in nodes && n.id == id
  }

  ghost predicate NoSelfLoops(connections: seq<Connection>) {
    forall c :: c in connections ==> c.from != c.to
  }

  /** `nodes.map(node => node.id === id ? { ...node, text } : node)`. */
  function WithText(nodes: seq<Node>, id: NodeId, text: string): (r: seq<Node>)
    ensures |r| == |nodes|
    ensures forall i :: 0 <= i < |r| ==>
              r[i].id == nodes[i].id && r[i].x == nodes[i].x && r[i].y == nodes[i].y && r[i].color == nodes[i].color
    ensures forall i :: 0 <= i < |r| ==> r[i].text == if nodes[i].id == id then text else nodes[i].text
  {
    if nodes == [] then []
    else [if nodes[0].id == id then nodes[0].(text := text) else nodes[0]] + WithText(nodes[1..], id, text)
  }

  /** `nodes.map(node => node.id === id ? { ...node, color } : node)`. */
  function WithColor(nodes: seq<Node>, id: NodeId, color: string): (r: seq<Node>)
    ensures |r| == |nodes|
    ensures forall i :: 0 <= i < |r| ==>
              r[i].id == nodes[i].id && r[i].x == nodes[i].x && r[i].y == nodes[i].y && r[i].text == nodes[i].text
    ensures forall i :: 0 <= i < |r| ==> r[i].color == if nodes[i].id == id then color else nodes[i].color
  {
    if nodes == [] then []
    else [if nodes[0].id == id then nodes[0].(color := color) else nodes[0]] + WithColor(nodes[1..], id, color)
  }

  /** `nodes.filter(node => node.id !== id)`. */
  function WithoutNode(nodes: seq<Node>, id: NodeId): (r: seq<Node>)
    ensures |r| <= |nodes|
    ensures forall n :: n in r <==> n in nodes && n.id != id
  {
    if nodes == [] then []
    else if nodes[0].id == id then WithoutNode(nodes[1..], id)
    else [nodes[0]] + WithoutNode(nodes[1..], id)
  }

  /** `connections.filter(conn => conn.from !== id && conn.to !== id)`. */
  function WithoutIncident(connections: seq<Connection>, id: NodeId): (r: seq<Connection>)
    ensures |r| <= |connections|
    ensures forall c :: c in r <==> c in connections && c.from != id && c.to != id
  {
    if connections == [] then []
    else if connections[0].from == id || connections[0].to == id then WithoutIncident(connections[1..], id)
    else [connections[0]] + WithoutIncident(connections[1..], id)
  }

  /** The connections the canvas draws: those whose two endpoints are found
      among the nodes; the others render as nothing. */
  function Drawn(nodes: seq<Node>, connections: seq<Connection>): (r: seq<Connection>)
    ensures |r| <= |connections|
    ensures forall c :: c in r <==> c in connections && HasNode(nodes, c.from) && HasNode(nodes, c.to)
  {
    if connections == [] then []
    else if HasNode(nodes, connections[0].from) && HasNode(nodes, connections[0].to)
    then [connections[0]] + Drawn(nodes, connections[1..])
    else Drawn(nodes, connections[1..])
  }

  /** Deleting keeps the surviving nodes in their order. */
  lemma {:induction false} WithoutNodeKeepsOrder(nodes: seq<Node>, id: NodeId)
    ensures IsSubsequence(WithoutNode(nodes, id), nodes)
  {
    if nodes != [] {
      WithoutNodeKeepsOrder(nodes[1..], id);
    }
  }

  /** Deleting keeps the surviving connections in their order. */
  lemma {:induction false} WithoutIncidentKeepsOrder(connections: seq<Connection>, id: NodeId)
    ensures IsSubsequence(WithoutIncident(connections, id), connections)
  {
    if connections != [] {
      WithoutIncidentKeepsOrder(connections[1..], id);
    }
  }

  /** Deleting an id no node has changes nothing. */
  lemma {:induction false} WithoutAbsentNode(nodes: seq<Node>, id: NodeId)
    requires !HasNode(nodes, id)
    ensures WithoutNode(nodes, id) == nodes
  {
    if nodes != [] {
      assert nodes[0] in nodes;
      assert !HasNode(nodes[1..], id) by {
        forall n | n in nodes[1..] ensures n.id != id {
          assert n in nodes;
        }
      }
      WithoutAbsentNode(nodes[1..], id);
    }
  }

  /** After a deletion a node id is found exactly when it was found before and
      is not the deleted one. */
  lemma HasNodeAfterDelete(nodes: seq<Node>, x: NodeId, id: NodeId)
    ensures HasNode(WithoutNode(nodes, x), id) <==> HasNode(nodes, id) && id != x
  {
    if HasNode(nodes, id) && id != x {
      var n :| n in nodes && n.id == id;
      assert n in WithoutNode(nodes, x);
    }
  }

  /** Deleting a node takes out of the drawing exactly the lines that touch
      it, and keeps the order of the other lines. */
  lemma {:induction false} DeleteNodeDrawn(nodes: seq<Node>, connections: seq<Connection>, x: NodeId)
    ensures Drawn(WithoutNode(nodes, x), WithoutIncident(connections, x)) == WithoutIncident(Drawn(nodes, connections), x)
  {
    if connections != [] {
      var c := connections[0];
      HasNodeAfterDelete(nodes, x, c.from);
      HasNodeAfterDelete(nodes, x, c.to);
      DeleteNodeDrawn(nodes, connections[1..], x);
    }
  }

  /** Editing a node's text or colour never changes which lines are drawn. */
  lemma {:induction false} EditKeepsDrawn(nodes: seq<Node>, connections: seq<Connection>, id: NodeId,
                                          text: string, color: string)
    ensures Drawn(WithText(nodes, id, text), connections) == Drawn(nodes, connections)
    ensures Drawn(WithColor(nodes, id, color), connections) == Drawn(nodes, connections)
  {
    forall y: NodeId
      ensures HasNode(WithText(nodes, id, text), y) == HasNode(nodes, y)
      ensures HasNode(WithColor(nodes, id, color), y) == HasNode(nodes, y)
    {
      SameIdsSameHasNode(nodes, WithText(nodes, id, text), y);
      SameIdsSameHasNode(nodes, WithColor(nodes, id, color), y);
    }
    if connections != [] {
      EditKeepsDrawn(nodes, connections[1..], id, text, color);
    }
  }

  /** Two node lists with the same ids position by position find the same ids. */
  lemma SameIdsSameHasNode(a: seq<Node>, b: seq<Node>, y: NodeId)
    requires |a| == |b|
    requires forall i :: 0 <= i < |a| ==> a[i].id == b[i].id
    ensures HasNode(a, y) == HasNode(b, y)
  {
    if HasNode(a, y) {
      var n :| n in a && n.id == y;
      var i :| 0 <= i < |a| && a[i] == n;
      assert b[i] in b;
    }
    if HasNode(b, y) {
      var n :| n in b && n.id == y;
      var i :| 0 <= i < |b| && b[i] == n;
      assert a[i] in a;
    }
  }

  /** The state of the editor component. */
  class Editor {
    var nodes: seq<Node>
    var connections: seq<Connection>
    var selectedNode: Option<NodeId>
    var isConnecting: bool
    var connectionStart: Option<NodeId>

    /** A start node is only recorded in connect mode, and no connection
        links a node to itself. */
    ghost predicate Valid()
      reads this
    {
      (connectionStart.Some? ==> isConnecting) && NoSelfLoops(connections)
    }

    constructor ()
      ensures Valid()
      ensures nodes == [MainIdea] && connections == []
      ensures selectedNode == None && !isConnecting && connectionStart == None
    {
      nodes, connections := [MainIdea], [];
      selectedNode, isConnecting, connectionStart := None, false, None;
    }

    /** `addNode`; `id` stands for `Date.now().toString()` and `x`, `y` for
        the random position. */
    method AddNode(id: NodeId, x: real, y: real)
      requires Valid()
      modifies this
      ensures Valid()
      ensures nodes == old(nodes) + [Node(id, x, y, NewNodeText, NewNodeColor)]
      ensures connections == old(connections) && selectedNode == old(selectedNode)
      ensures isConnecting == old(isConnecting) && connectionStart == old(connectionStart)
    {
      nodes := nodes + [Node(id, x, y, NewNodeText, NewNodeColor)];
    }

    /** `addConnection`: the "Add Line" / "Cancel Connection" toggle. */
    method AddConnection()
      requires Valid()
      modifies this
      ensures Valid()
      ensures isConnecting == !old(isConnecting)
      ensures connectionStart == None
      ensures nodes == old(nodes) && connections == old(connections) && selectedNode == old(selectedNode)
    {
      if isConnecting {
        isConnecting := false;
        connectionStart := None;
      } else {
        isConnecting := true;
      }
    }

    /** `handleNodeClick`: outside connect mode it selects; in connect mode the
        first click records the start, a click on another node adds the line
        and a click on the start again cancels. `connId` stands for
        `Date.now().toString()`. */
    method HandleNodeClick(nodeId: NodeId, connId: string)
      requires Valid()
      modifies this
      ensures Valid()
      ensures !old(isConnecting) ==>
                && selectedNode == Some(nodeId)
                && !isConnecting && connectionStart == None && connections == old(connections)
      ensures old(isConnecting) && !Truthy(old(connectionStart)) ==>
                && isConnecting && connectionStart == Some(nodeId)
                && connections == old(connections) && selectedNode == old(selectedNode)
      ensures old(isConnecting) && Truthy(old(connectionStart)) && old(connectionStart).value != nodeId ==>
                && connections == old(connections) + [Connection(connId, old(connectionStart).value, nodeId)]
                && !isConnecting && connectionStart == None && selectedNode == old(selectedNode)
      ensures old(isConnecting) && Truthy(old(connectionStart)) && old(connectionStart).value == nodeId ==>
                && connections == old(connections)
                && !isConnecting && connectionStart == None && selectedNode == old(selectedNode)
      ensures nodes == old(nodes)
    {
      if isConnecting {
        if !Truthy(connectionStart) {
          connectionStart := Some(nodeId);
        } else if connectionStart.value != nodeId {
          var c := Connection(connId, connectionStart.value, nodeId);
          connections := connections + [c];
          isConnecting := false;
          connectionStart := None;
        } else {
          isConnecting := false;
          connectionStart := None;
        }
      } else {
        selectedNode := Some(nodeId);
      }
    }

    /** `handleCanvasClick`: leaves connect mode and clears the selection. */
    method HandleCanvasClick()
      requires Valid()
      modifies this
      ensures Valid()
      ensures !isConnecting && connectionStart == None && selectedNode == None
      ensures nodes == old(nodes) && connections == old(connections)
    {
      if isConnecting {
        isConnecting := false;
        connectionStart := None;
      }
      selectedNode := None;
    }

    /** `updateNodeText`. */
    method UpdateNodeText(nodeId: NodeId, text: string)
      requires Valid()
      modifies this
      ensures Valid()
      ensures nodes == WithText(old(nodes), nodeId, text)
      ensures connections == old(connections) && selectedNode == old(selectedNode)
      ensures isConnecting == old(isConnecting) && connectionStart == old(connectionStart)
    {
      nodes := WithText(nodes, nodeId, text);
    }

    /** `updateNodeColor`. */
    method UpdateNodeColor(nodeId: NodeId, color: string)
      requires Valid()
      modifies this
      ensures Valid()
      ensures nodes == WithColor(old(nodes), nodeId, color)
      ensures connections == old(connections) && selectedNode == old(selectedNode)
      ensures isConnecting == old(isConnecting) && connectionStart == old(connectionStart)
    {
      nodes := WithColor(nodes, nodeId, color);
    }

    /** `deleteNode`: drops the node and every connection touching it and
        clears the selection. Connect mode and its start are left as they
        are, so a start that was the deleted node survives. */
    method DeleteNode(nodeId: NodeId)
      requires Valid()
      modifies this
      ensures Valid()
      ensures nodes == WithoutNode(old(nodes), nodeId) && !HasNode(nodes, nodeId)
      ensures connections == WithoutIncident(old(connections), nodeId)
      ensures forall c :: c in connections ==> c.from != nodeId && c.to != nodeId
      ensures selectedNode == None
      ensures isConnecting == old(isConnecting) && connectionStart == old(connectionStart)
    {
      nodes := WithoutNode(nodes, nodeId);
      connections := WithoutIncident(connections, nodeId);
      selectedNode := None;
    }
  }
}

/** Client code of the editor: the two-click connect protocol. */
module CanvasScenarios {
  import opened MindMapTypes
  import opened Canvas

  method ConnectTwoNodes() {
    var e := new Editor();
    e.AddNode("2", 0.0, 0.0);
    e.AddConnection();
    e.HandleNodeClick("1", "c1");
    assert e.connectionStart == Some("1") && e.connections == [];
    e.HandleNodeClick("2", "c2");
    assert e.connections == [Connection("c2", "1", "2")] && !e.isConnecting;
    e.AddConnection();
    e.HandleNodeClick("2", "c3");
    e.HandleNodeClick("2", "c4");
    assert e.connections == [Connection("c2", "1", "2")] && !e.isConnecting;
    e.DeleteNode("2");
    assert e.nodes == [MainIdea] && e.connections == [];
  }
}
