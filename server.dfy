/** The server's in-memory document store, chat store and realtime rooms
    (server/index.js). Every REST route and socket event handler is a method
    of `Store`; each runs to completion before the next, so each is one
    atomic step on the store. */
module Server {
  import opened MindMapTypes

  type DocId = string

  /** A socket connection, identified by its `socket.id`. */
  type ConnId = string

  const UntitledTitle: string := "Untitled Mind Map"

  /** A stored mind map. */
  datatype Doc = Doc(id: DocId, title: string, nodes: seq<Node>, connections: seq<Connection>,
                     createdAt: Time, updatedAt: Time)

  /** The two error answers of the REST routes. */
  datatype Error = NotFound | ValidationError

  function Status(e: Error): nat {
    match e
    case NotFound => 404
    case ValidationError => 400
  }

  function ErrorText(e: Error): string {
    match e
    case NotFound => "Mind map not found"
    case ValidationError => "User and message are required"
  }

  datatype Result<+T> = Ok(value: T) | Err(error: Error)

  /** The events the server emits to sockets. */
  datatype Event =
    | MindMapUpdated(nodes: seq<Node>, connections: seq<Connection>)
    | NodeSelected(nodeId: NodeId, userId: ConnId)
    | CursorMoved(x: real, y: real, userId: ConnId)
    | NewMessage(message: ChatMessage)

  /** One emission: an event and the connections it is delivered to. */
  datatype Emit = Emit(recipients: set<ConnId>, event: Event)

  /** The members of room `docId`; a room nobody joined has none. */
  function Members(rooms: map<DocId, set<ConnId>>, docId: DocId): set<ConnId> {
    if docId in rooms then rooms[docId] else {}
  }

  /** The recipients of `socket.to(docId)`: the room without the sender,
      whether or not the sender is itself a member. */
  function Others(rooms: map<DocId, set<ConnId>>, docId: DocId, sender: ConnId): (r: set<ConnId>)
    ensures sender !in r
    ensures forall c :: c in r <==> c in Members(rooms, docId) && c != sender
  {
    Members(rooms, docId) - {sender}
  }

  /** The chat thread of `docId`; an id nobody posted to has an empty one. */
  function Thread(chats: map<DocId, seq<ChatMessage>>, docId: DocId): seq<ChatMessage> {
    if docId in chats then chats[docId] else []
  }

  /** The document `POST /api/mindmaps` builds from the optional body fields.
      `created` and `updated` are the two separate clock readings taken for
      the two timestamps. */
  function NewDoc(id: DocId, title: Option<string>, nodes: Option<seq<Node>>,
                  connections: Option<seq<Connection>>, created: Time, updated: Time): (d: Doc)
    ensures d.id == id && d.createdAt == created && d.updatedAt == updated
    ensures d.title != ""
    ensures Truthy(title) ==> d.title == title.value
    ensures !Truthy(title) ==> d.title == UntitledTitle
    ensures nodes.Some? ==> d.nodes == nodes.value
    ensures nodes.None? ==> d.nodes == []
    ensures connections.Some? ==> d.connections == connections.value
    ensures connections.None? ==> d.connections == []
  {
    Doc(id, StringOr(title, UntitledTitle), SeqOr(nodes, []), SeqOr(connections, []), created, updated)
  }

  /** The partial update of `PUT /api/mindmaps/:id` applied to the stored
      document `d`: a falsy title and absent arrays keep the old values, a
      supplied array (even an empty one) replaces the old one wholesale. */
  function MergeDoc(d: Doc, title: Option<string>, nodes: Option<seq<Node>>,
                    connections: Option<seq<Connection>>, now: Time): (r: Doc)
    ensures r.id == d.id && r.createdAt == d.createdAt && r.updatedAt == now
    ensures Truthy(title) ==> r.title == title.value
    ensures !Truthy(title) ==> r.title == d.title
    ensures d.title != "" ==> r.title != ""
    ensures nodes.Some? ==> r.nodes == nodes.value
    ensures nodes.None? ==> r.nodes == d.nodes
    ensures connections.Some? ==> r.connections == connections.value
    ensures connections.None? ==> r.connections == d.connections
  {
    d.(title := StringOr(title, d.title),
       nodes := SeqOr(nodes, d.nodes),
       connections := SeqOr(connections, d.connections),
       updatedAt := now)
  }

  /** An explicitly empty title is indistinguishable from an absent one. */
  lemma EmptyTitleIsAbsent(d: Doc, nodes: Option<seq<Node>>, connections: Option<seq<Connection>>, now: Time)
    ensures MergeDoc(d, Some(""), nodes, connections, now) == MergeDoc(d, None, nodes, connections, now)
  {
  }

  /** An update with an empty body only refreshes `updatedAt`. */
  lemma EmptyUpdateOnlyRefreshes(d: Doc, now: Time)
    ensures MergeDoc(d, None, None, None, now) == d.(updatedAt := now)
  {
  }

  /** Repeating an update changes nothing but the timestamp. */
  lemma MergeIdempotent(d: Doc, title: Option<string>, nodes: Option<seq<Node>>,
                        connections: Option<seq<Connection>>, now: Time, later: Time)
    ensures MergeDoc(MergeDoc(d, title, nodes, connections, now), title, nodes, connections, later)
         == MergeDoc(d, title, nodes, connections, later)
  {
  }

  /** Facts every stored document keeps. */
  ghost predicate DocOk(key: DocId, d: Doc, clock: Time) {
    d.id == key && d.title != "" && d.createdAt <= d.updatedAt <= clock
  }

  /** Facts every stored chat message keeps. */
  ghost predicate MessageOk(m: ChatMessage, clock: Time) {
    m.user != "" && m.message != "" && m.timestamp <= clock
  }

  ghost predicate ThreadOk(t: seq<ChatMessage>, clock: Time) {
    forall i :: 0 <= i < |t| ==> MessageOk(t[i], clock)
  }

  class Store {
    /** `mindMaps`: document id to document. */
    var mindMaps: map<DocId, Doc>
    /** `chatMessages`: document id to its chat thread, oldest first. */
    var chatMessages: map<DocId, seq<ChatMessage>>
    /** Room membership as kept by the realtime transport. */
    var rooms: map<DocId, set<ConnId>>
    /** The latest clock reading any handler has taken. */
    var clock: Time

    ghost predicate Valid()
      reads this
    {
      && (forall key :: key in mindMaps ==> DocOk(key, mindMaps[key], clock))
      && (forall key :: key in chatMessages ==> ThreadOk(chatMessages[key], clock))
      && (forall key :: key in rooms ==> rooms[key] != {})
    }

    constructor ()
      ensures Valid()
      ensures mindMaps == map[] && chatMessages == map[] && rooms == map[] && clock == 0
    {
      mindMaps, chatMessages, rooms, clock := map[], map[], map[], 0;
    }

    /** `GET /api/mindmaps/:id`. */
    method Get(id: DocId) returns (r: Result<Doc>)
      ensures id in mindMaps ==> r == Ok(mindMaps[id])
      ensures id !in mindMaps ==> r == Err(NotFound)
    {
      if id in mindMaps {
        r := Ok(mindMaps[id]);
      } else {
        r := Err(NotFound);
      }
    }

    /** `POST /api/mindmaps`. `id` is the fresh token `uuidv4()` draws;
        `created` and `updated` are the clock readings of the two
        `new Date()` calls, in that order. */
    method Create(id: DocId, created: Time, updated: Time, title: Option<string>, nodes: Option<seq<Node>>,
                  connections: Option<seq<Connection>>) returns (d: Doc)
      requires Valid() && id !in mindMaps && clock <= created <= updated
      modifies this
      ensures Valid()
      ensures d == NewDoc(id, title, nodes, connections, created, updated)
      ensures d.createdAt <= d.updatedAt
      ensures mindMaps == old(mindMaps)[id := d] && |mindMaps| == |old(mindMaps)| + 1
      ensures chatMessages == old(chatMessages) && rooms == old(rooms) && clock == updated
    {
      d := NewDoc(id, title, nodes, connections, created, updated);
      mindMaps := mindMaps[id := d];
      clock := updated;
    }

    /** `PUT /api/mindmaps/:id`. */
    method Update(id: DocId, now: Time, title: Option<string>, nodes: Option<seq<Node>>,
                  connections: Option<seq<Connection>>) returns (r: Result<Doc>)
      requires Valid() && clock <= now
      modifies this
      ensures Valid()
      ensures id !in old(mindMaps) ==> r == Err(NotFound) && mindMaps == old(mindMaps) && clock == old(clock)
      ensures id in old(mindMaps) ==>
                && r == Ok(MergeDoc(old(mindMaps)[id], title, nodes, connections, now))
                && mindMaps == old(mindMaps)[id := r.value]
                && old(mindMaps)[id].updatedAt <= r.value.updatedAt
                && clock == now
      ensures chatMessages == old(chatMessages) && rooms == old(rooms)
    {
      if id !in mindMaps {
        return Err(NotFound);
      }
      var d := MergeDoc(mindMaps[id], title, nodes, connections, now);
      mindMaps := mindMaps[id := d];
      clock := now;
      r := Ok(d);
    }

    /** `GET /api/mindmaps/:id/chat`. */
    method ChatList(id: DocId) returns (messages: seq<ChatMessage>)
      ensures id in chatMessages ==> messages == chatMessages[id]
      ensures id !in chatMessages ==> messages == []
    {
      messages := Thread(chatMessages, id);
    }

    /** `POST /api/mindmaps/:id/chat`. `msgId` and `now` stand for `uuidv4()`
        and the clock; `emit` is the `newMessage` emission to the room. The
        mind map `id` need not exist. */
    method ChatPost(id: DocId, msgId: string, now: Time, user: Option<string>, message: Option<string>)
      returns (r: Result<ChatMessage>, emit: Option<Emit>)
      requires Valid() && clock <= now
      modifies this
      ensures Valid()
      ensures !(Truthy(user) && Truthy(message)) ==>
                && r == Err(ValidationError) && emit == None
                && chatMessages == old(chatMessages) && clock == old(clock)
      ensures Truthy(user) && Truthy(message) ==>
                && r == Ok(ChatMessage(msgId, user.value, message.value, now))
                && chatMessages == old(chatMessages)[id := Thread(old(chatMessages), id) + [r.value]]
                && emit == Some(Emit(Members(rooms, id), NewMessage(r.value)))
                && clock == now
      ensures mindMaps == old(mindMaps) && rooms == old(rooms)
    {
      if !Truthy(user) || !Truthy(message) {
        return Err(ValidationError), None;
      }
      var m := ChatMessage(msgId, user.value, message.value, now);
      chatMessages := chatMessages[id := Thread(chatMessages, id) + [m]];
      clock := now;
      r, emit := Ok(m), Some(Emit(Members(rooms, id), NewMessage(m)));
    }

    /** Socket event `joinMindMap`. */
    method Join(conn: ConnId, docId: DocId)
      requires Valid()
      modifies this
      ensures Valid()
      ensures forall d :: Members(rooms, d) == if d == docId then old(Members(rooms, d)) + {conn}
                                                  else old(Members(rooms, d))
      ensures mindMaps == old(mindMaps) && chatMessages == old(chatMessages) && clock == old(clock)
    {
      rooms := rooms[docId := Members(rooms, docId) + {conn}];
    }

    /** Socket event `leaveMindMap`; a room left empty is dropped. */
    method Leave(conn: ConnId, docId: DocId)
      requires Valid()
      modifies this
      ensures Valid()
      ensures forall d :: Members(rooms, d) == if d == docId then old(Members(rooms, d)) - {conn}
                                                  else old(Members(rooms, d))
      ensures mindMaps == old(mindMaps) && chatMessages == old(chatMessages) && clock == old(clock)
    {
      var rest := Members(rooms, docId) - {conn};
      if rest == {} {
        rooms := rooms - {docId};
      } else {
        rooms := rooms[docId := rest];
      }
    }

    /** Socket event `updateMindMap` from `sender`: replaces the arrays of an
        existing document and relays them to the rest of the room; an unknown
        id is dropped silently. */
    method UpdateMindMap(sender: ConnId, docId: DocId, nodes: seq<Node>, connections: seq<Connection>,
                         now: Time) returns (emit: Option<Emit>)
      requires Valid() && clock <= now
      modifies this
      ensures Valid()
      ensures docId !in old(mindMaps) ==> emit == None && mindMaps == old(mindMaps) && clock == old(clock)
      ensures docId in old(mindMaps) ==>
                && mindMaps == old(mindMaps)[docId := old(mindMaps)[docId].(nodes := nodes,
                                                     connections := connections, updatedAt := now)]
                && emit == Some(Emit(Others(rooms, docId, sender), MindMapUpdated(nodes, connections)))
                && clock == now
      ensures chatMessages == old(chatMessages) && rooms == old(rooms)
    {
      if docId !in mindMaps {
        return None;
      }
      var d := MergeDoc(mindMaps[docId], None, Some(nodes), Some(connections), now);
      mindMaps := mindMaps[docId := d];
      clock := now;
      emit := Some(Emit(Others(rooms, docId, sender), MindMapUpdated(nodes, connections)));
    }

    /** Socket event `selectNode`: a relay that touches no store. */
    method SelectNode(sender: ConnId, docId: DocId, nodeId: NodeId) returns (emit: Emit)
      ensures sender !in emit.recipients
      ensures emit.recipients == Members(rooms, docId) - {sender}
      ensures emit.event == NodeSelected(nodeId, sender)
    {
      emit := Emit(Others(rooms, docId, sender), NodeSelected(nodeId, sender));
    }

    /** Socket event `cursorMove`: a relay that touches no store. */
    method CursorMove(sender: ConnId, docId: DocId, x: real, y: real) returns (emit: Emit)
      ensures sender !in emit.recipients
      ensures emit.recipients == Members(rooms, docId) - {sender}
      ensures emit.event == CursorMoved(x, y, sender)
    {
      emit := Emit(Others(rooms, docId, sender), CursorMoved(x, y, sender));
    }
  }
}

/** Client code of the store: the flows the server is meant to support,
    written against the contracts of `Server.Store` alone. */
module ServerScenarios {
  import opened MindMapTypes
  import opened Server

  /** A create with an empty body, then a get of the new id. */
  method CreateEmptyThenGet() {
    var s := new Store();
    var d := s.Create("m1", 5, 5, None, None, None);
    assert d.title == UntitledTitle && d.nodes == [] && d.connections == [];
    assert d.createdAt == 5 && d.updatedAt == 5;
    var r := s.Get("m1");
    assert r == Ok(d);
    var missing := s.Get("m2");
    assert missing == Err(NotFound);
  }

  /** A `PUT` whose body holds only `nodes`. */
  method UpdateNodesOnly(ns: seq<Node>) {
    var s := new Store();
    var d := s.Create("m1", 1, 1, Some("Plan"), None, None);
    var r := s.Update("m1", 7, None, Some(ns), None);
    assert r.Ok? && r.value.nodes == ns;
    assert r.value.title == "Plan" && r.value.connections == [] && r.value.updatedAt == 7;
    assert r.value.createdAt == d.createdAt;
    var absent := s.Update("m9", 8, Some("x"), None, None);
    assert absent == Err(NotFound);
  }

  /** Two connections in a room: a cursor move is not echoed, an edit
      reaches only the other member, an edit of an unknown id is dropped. */
  method EditsAreNotEchoed() {
    var s := new Store();
    var _ := s.Create("m1", 1, 2, None, None, None);
    s.Join("A", "m1");
    s.Join("B", "m1");
    var e := s.CursorMove("A", "m1", 1.0, 2.0);
    assert "B" in e.recipients && "A" !in e.recipients;
    var u := s.UpdateMindMap("A", "m1", [], [], 2);
    assert u.Some? && u.value.recipients == {"B"};
    var dropped := s.UpdateMindMap("A", "m2", [], [], 3);
    assert dropped == None;
  }

  /** A chat post reaches the whole room, poster included; an empty message
      is refused and leaves the thread as it was. */
  method ChatReachesWholeRoom() {
    var s := new Store();
    s.Join("A", "m1");
    s.Join("B", "m1");
    var r, c := s.ChatPost("m1", "c1", 4, Some("Ann"), Some("hi"));
    assert c.Some? && c.value.recipients == {"A", "B"};
    var bad, none := s.ChatPost("m1", "c2", 5, Some("Ann"), Some(""));
    assert bad == Err(ValidationError) && none == None;
    var thread := s.ChatList("m1");
    assert thread == [r.value];
  }

  /** After the only other member leaves, a selection reaches nobody. */
  method LeaveStopsDelivery() {
    var s := new Store();
    s.Join("A", "m1");
    s.Join("B", "m1");
    s.Leave("A", "m1");
    var e := s.SelectNode("B", "m1", "n1");
    assert e.recipients == {};
  }
}
