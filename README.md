# mindmap-builder core, modelled in Dafny

This project models the parts of the mind-map builder that hold logic:

- **The server store** (`server.dfy`, module `Server`). It covers the
  in-memory `mindMaps` and `chatMessages` maps, the socket rooms, the five
  REST routes and the socket handlers (`joinMindMap`, `leaveMindMap`,
  `updateMindMap`, `selectNode`, `cursorMove`). `Server.Store` is a class:
  - `mindMaps: map<DocId, Doc>`, `chatMessages: map<DocId, seq<ChatMessage>>`
    and `rooms: map<DocId, set<ConnId>>` are its fields;
  - every handler is a method, and a handler that emits returns the
    recipients of the emission together with the event;
  - `Valid()` is the store invariant: a document is stored under its own id,
    its title is never empty, and `createdAt <= updatedAt <= clock`; every
    stored chat message has a non-empty user and message; no stored room is
    empty.
- **The canvas editor** (`canvas.dfy`, module `Canvas`). The node and
  connection updates (`map`, `filter`) are recursive functions with lemmas.
  So is the render-time filter that skips lines with a missing endpoint. The
  component state (`nodes`, `connections`, `selectedNode`, `isConnecting`,
  `connectionStart`) is the class `Canvas.Editor`. Its methods are the click
  and edit handlers. Its invariant says that a start node is only recorded in
  connect mode and that no connection links a node to itself.
  `canvas_filters.dfy` (module `CanvasFilters`) adds how the two delete
  filters and the render filter treat repeated entries. Each keeps every copy
  of what it keeps, in the original order.
- **The chat composer and permission toggle** (`collaboration.dfy`, module
  `Collaboration`). `String.prototype.trim` is modelled over the ECMAScript
  white-space set. `sendMessage` is a guarded append on the class
  `Collaboration.ChatPanel`.

`types.dfy` (module `MindMapTypes`) holds the shared records. It also holds
JavaScript truthiness of an optional string: absent, `null` and `""` are
falsy. `title || old`, `!user` and `!connectionStart` are all modelled with
it. Arrays are always truthy, so a supplied `[]` replaces the stored array.

The modules `ServerScenarios` and `CanvasScenarios` are client methods. They
use only the contracts above to walk through the intended flows:
- a create with an empty body, then a get;
- a `PUT` carrying only `nodes`;
- edits and cursor moves not echoed to the sender;
- chat reaching the poster;
- the two-click connect protocol.

Inputs that the source draws from its environment become parameters:
- `uuidv4()` and `Date.now().toString()` become an `id` argument. `Create`
  requires the id to be unused, which is the uniqueness `uuidv4()` provides.
- Each `new Date()` call becomes a `Time` reading. Creating a document calls
  it twice, so `Create` takes two readings, `created` and `updated`, which
  may differ. The store keeps the latest reading in `clock`. The model
  assumes the clock never goes back: each new reading must be no earlier
  than `clock`. The source reads the wall clock and makes no such promise
  (see "## Left out").
- `Math.random()` positions become `x` and `y` arguments.

Behaviour of the code that the model keeps:
- `updatedAt` comes from the clock, so two updates within one millisecond
  get the same stamp. Given a clock that never goes back, the model proves
  that `updatedAt` never decreases; it does not promise a strict increase.
- The `disconnect` handler only logs. The model has no disconnect step.
- A chat post is refused for any falsy `user` or `message`, absent as well
  as empty.
- `deleteNode` leaves `isConnecting` and `connectionStart` as they are. If
  the deleted node was the recorded start, the next click on another node
  adds a connection from the deleted id. The render filter then hides that
  line. `Canvas.Editor.DeleteNode` states this: connect mode and its start
  are unchanged.

## Model

| member | source | states |
|---|---|---|
| `Server.Others` | server/index.js:143-152 | the recipients of a `socket.to(room)` emission are exactly the room's members other than the sender; the sender is never among them |
| `Server.NewDoc` | server/index.js:48-55 | a created document carries the given id, `createdAt` from the first clock reading and `updatedAt` from the second; a falsy title becomes "Untitled Mind Map", so the title is never empty; absent arrays become empty and supplied ones are kept |
| `Server.MergeDoc` | server/index.js:70-73 | a partial update keeps `id` and `createdAt`, sets `updatedAt` to now, keeps the old title for a falsy one, keeps absent arrays and replaces supplied ones (even empty ones) wholesale; a non-empty title stays non-empty |
| `Server.EmptyTitleIsAbsent` | server/index.js:70 | an update with title `""` is the same as one with no title |
| `Server.EmptyUpdateOnlyRefreshes` | server/index.js:70-73 | an update with an empty body changes only `updatedAt` |
| `Server.MergeIdempotent` | server/index.js:70-73 | applying the same update twice equals applying it once at the later time |
| `Server.Store.constructor` | server/index.js:29-30 | the store starts with no documents, no chat threads and no rooms |
| `Server.Store.Get` | server/index.js:33-42 | a known id yields its stored document and an unknown id yields NotFound (404); nothing changes |
| `Server.Store.Create` | server/index.js:44-59 | the new document, built by `NewDoc` from two clock readings taken in order, so `createdAt <= updatedAt`, is stored under an id that was not in use; the store grows by one; no other document, thread or room changes; the invariant is kept |
| `Server.Store.Update` | server/index.js:61-77 | an unknown id yields NotFound and changes nothing; a known id stores and returns `MergeDoc` of the old document, so, given a clock that never goes back, `updatedAt` does not decrease; threads and rooms are unchanged |
| `Server.Store.ChatList` | server/index.js:79-83 | returns the stored thread, or an empty one for an id with no thread; no entry is created |
| `Server.Store.ChatPost` | server/index.js:85-108 | a falsy user or message yields ValidationError (400) with no emission and no change; otherwise exactly one message is appended at the end of that id's thread (created if missing), no other thread changes, the mind map need not exist, and `newMessage` goes to every room member |
| `Server.Store.Join` | server/index.js:115-118 | the connection is added to that room's members; no other room and no store changes |
| `Server.Store.Leave` | server/index.js:121-124 | the connection is removed from that room's members; no other room and no store changes |
| `Server.Store.UpdateMindMap` | server/index.js:127-140 | for an existing document, nodes and connections are replaced wholesale and `updatedAt` is set to now, while title and `createdAt` are kept; `{nodes, connections}` goes to the room without the sender. For an unknown id nothing changes and nothing is sent |
| `Server.Store.SelectNode` | server/index.js:143-146 | `nodeSelected` carries the node id and the sender's id and reaches the room without the sender; no store is touched |
| `Server.Store.CursorMove` | server/index.js:149-152 | `cursorMoved` carries the position and the sender's id and reaches the room without the sender; no store is touched |
| `Canvas.WithText` | client/src/pages/CreateMindMap.tsx:86-90 | length and order are kept; nodes whose id matches get the new text; every other field of every node, and every field of the other nodes, is unchanged |
| `Canvas.WithColor` | client/src/pages/CreateMindMap.tsx:92-96 | length and order are kept; nodes whose id matches get the new colour; every other field is unchanged |
| `Canvas.WithoutNode` | client/src/pages/CreateMindMap.tsx:99 | a node is kept exactly when it was there and its id is not the deleted one |
| `CanvasFilters.WithoutNodeCounts` | client/src/pages/CreateMindMap.tsx:99 | every copy of a kept node survives: its count is unchanged, while nodes with the deleted id occur zero times |
| `Canvas.WithoutIncident` | client/src/pages/CreateMindMap.tsx:100-102 | a connection is kept exactly when it was there and neither endpoint is the deleted node |
| `CanvasFilters.WithoutIncidentCounts` | client/src/pages/CreateMindMap.tsx:100-102 | a kept connection keeps its count and one touching the deleted node occurs zero times |
| `Canvas.Drawn` | client/src/pages/CreateMindMap.tsx:218-221 | a connection is drawn exactly when it is in the list and both endpoints are found among the nodes |
| `CanvasFilters.DrawnCounts` | client/src/pages/CreateMindMap.tsx:218-221 | a drawn connection is drawn as often as it occurs in the list; the others occur zero times |
| `CanvasFilters.DrawnKeepsOrder` | client/src/pages/CreateMindMap.tsx:218-221 | the drawn lines are a subsequence of the connection list: their order is kept |
| `Canvas.WithoutNodeKeepsOrder` | client/src/pages/CreateMindMap.tsx:99 | the surviving nodes are a subsequence of the old ones: relative order is kept |
| `Canvas.WithoutIncidentKeepsOrder` | client/src/pages/CreateMindMap.tsx:100-102 | the surviving connections keep their relative order |
| `Canvas.WithoutAbsentNode` | client/src/pages/CreateMindMap.tsx:99 | deleting an id that no node has leaves the node list identical |
| `Canvas.HasNodeAfterDelete` | client/src/pages/CreateMindMap.tsx:99 | after a deletion an id is found exactly when it was found before and is not the deleted one |
| `Canvas.DeleteNodeDrawn` | client/src/pages/CreateMindMap.tsx:98-104 | after `deleteNode` the drawn lines are the previously drawn lines minus exactly those touching the deleted node, in the same order |
| `Canvas.EditKeepsDrawn` | client/src/pages/CreateMindMap.tsx:86-96 | editing a node's text or colour never changes which lines are drawn |
| `Canvas.Editor.constructor` | client/src/pages/CreateMindMap.tsx:23-29 | the editor starts with the single "Main Idea" node, no connections, no selection and not connecting |
| `Canvas.Editor.AddNode` | client/src/pages/CreateMindMap.tsx:31-40 | one node with text "New Node" and colour "#6b7280" is appended; existing nodes and all other state are unchanged |
| `Canvas.Editor.AddConnection` | client/src/pages/CreateMindMap.tsx:42-51 | `isConnecting` is flipped and no start is left recorded; nodes, connections and selection are unchanged |
| `Canvas.Editor.HandleNodeClick` | client/src/pages/CreateMindMap.tsx:53-76 | outside connect mode the click only selects; with no (truthy) start it records the node as start and adds nothing; on another node it appends exactly one connection `{from: start, to: node}` and returns to idle; on the start node it cancels and adds nothing; nodes never change and no self-loop can arise |
| `Canvas.Editor.HandleCanvasClick` | client/src/pages/CreateMindMap.tsx:78-84 | connect mode ends, no start is recorded and nothing is selected; nodes and connections are unchanged |
| `Canvas.Editor.UpdateNodeText` | client/src/pages/CreateMindMap.tsx:86-90 | the nodes become `WithText` of the old ones; nothing else changes |
| `Canvas.Editor.UpdateNodeColor` | client/src/pages/CreateMindMap.tsx:92-96 | the nodes become `WithColor` of the old ones; nothing else changes |
| `Canvas.Editor.DeleteNode` | client/src/pages/CreateMindMap.tsx:98-104 | no node with that id remains; no remaining connection touches it; the selection is cleared; connect mode and its start are left as they were |
| `Collaboration.TrimStart` | client/src/pages/Collaboration.tsx:33 | the result is a suffix of the input that does not start with white space; everything dropped is white space |
| `Collaboration.TrimEnd` | client/src/pages/Collaboration.tsx:33 | the result is a prefix of the input that does not end with white space; everything dropped is white space |
| `Collaboration.TrimEmptyIffBlank` | client/src/pages/Collaboration.tsx:33 | `trim()` yields the empty string exactly when the input is all white space |
| `Collaboration.Seeded` | client/src/pages/Collaboration.tsx:21-25 | the chat starts with three seeded messages in order: ids "1", "2", "3", users Alex, Jamie and Sam, their three texts, each stamped with its own clock reading |
| `Collaboration.ChatPanel.constructor` | client/src/pages/Collaboration.tsx:19-25 | the page starts with permission "view", an empty input and the three seeded messages |
| `Collaboration.ChatPanel.SetNewMessage` | client/src/pages/Collaboration.tsx:211 | typing replaces the input and changes nothing else |
| `Collaboration.ChatPanel.SendMessage` | client/src/pages/Collaboration.tsx:32-43 | a blank input leaves messages and input unchanged; otherwise exactly one message from "You", with the untrimmed input as its text, is appended after the earlier ones and the input becomes empty |
| `Collaboration.ChatPanel.SetPermission` | client/src/pages/Collaboration.tsx:101-122 | the permission becomes the chosen one of the two values view and edit; messages and input are unchanged |

## Left out

- HTTP, Express, CORS, static file serving and the catch-all `index.html` route: transport plumbing. Console logging is left out too.
- Socket.io internals are left out. This covers delivery, acknowledgement, the per-socket default room and the removal of a disconnected socket from its rooms, which the library does. The `disconnect` handler itself only logs.
- Server.Store: every handler that reads the clock requires the reading to be no earlier than the last one (`clock <= now`). This is the model's assumption, not the source's. The source reads the wall clock with `new Date()`, which can step back, and then a stored `updatedAt` can decrease. The invariant `createdAt <= updatedAt <= clock` and the "does not decrease" property of `Update` hold only under this assumption.
- Concurrency and the REST-versus-socket last-write-wins race. Handlers run one at a time on a single thread, so each is one atomic step.
- How `uuidv4()`, `Date.now()` and `new Date()` produce values, including ISO timestamp formatting. These are parameters.
- JSON payloads whose fields have the wrong type, and socket payloads with missing fields. The server does not check these, so their behaviour is unspecified.
- Node positions come from `Math.random()` and are JavaScript numbers. They are `real` arguments that are only stored and relayed, never computed with.
- Rendering is left out: SVG and JSX markup, styling, node highlight classes, and the node-properties panel's `find(...)?.text || ''` display.
- Clipboard copying, the share-link field and the decorative SVG on the collaboration page.
- The home, pricing and routing pages hold no logic.
- `Server.Status` and `Server.ErrorText` are the HTTP status and error body of each error. They are plain tables, not stated as contracts.

