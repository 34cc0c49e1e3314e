# Ephemeral two-party temp-chat coordinator, modelled in Dafny

This project models the backend of the temporary chat in
BenakKishanJ/fullstack-chat-app. Two anonymous parties share a session
through a link. The creator opens it and one participant joins. The backend
keeps three pieces of state consistent:

- the persisted `TempChatSession` records, keyed by `sessionId`;
- the persisted `TempMessage` log;
- the in-memory registry `tempChatSocketMap`, which maps a session id to a
  role to a socket id. The socket server's `userSocketMap` for regular users
  sits beside it.

Every read-path handler gates on one liveness test: `isActive`, and the
current time is before `expiresAt`. A session ends in one of two ways:

- an explicit leave;
- the last registered role disconnecting.

Either way the record becomes inactive and every message of the session is
deleted. MongoDB's TTL monitor runs on its own and serves two TTL
indexes: one deletes expired session records, the other deletes messages
24 hours after their own timestamp. The model treats the two indexes as
two independent passes.

Layout:

- `wrappers.dfy`: `Option` and `Result`.
- `js_text.dfy`: JavaScript's `String.prototype.trim` (ECMAScript whitespace)
  and truthiness, which the handlers' validation relies on.
- `temp_chat_session_model.dfy`: the session schema. It has the record, its
  defaults, the liveness filter, the TTL reap, and the "later version of a
  record" relation (`Succeeds`) used to state that `isActive` only goes from
  true to false.
- `temp_message_model.dfy`: the message schema. It has the role enum, the
  per-session filters (find, deleteMany), the timestamp sort, and the TTL
  reap.
- `coordinator.dfy`: the whole state as one value (`World`), plus what the
  handlers share. An outbox records every emitted event. `Inv` is the
  invariant every handler keeps:
  - records are well formed and stored under their own id;
  - messages are well formed;
  - an ended session owns no message;
  - the registry holds no empty entry.
- `temp_chat_spec.dfy` and `socket_spec.dfy`: each HTTP handler and each
  socket handler as one atomic transition `World -> (reply, World)`. Each has
  its contract.
- `store.dfy`, `socket.dfy`, `temp_chat_controller.dfy`: the imperative side.
  - `Database` is a class holding the two collections. Its methods are the
    MongoDB calls: insert with the unique index, save, findOneAndUpdate,
    deleteMany, sorted find, and the TTL passes.
  - `SocketServer` is a class holding the two registries and the socket
    outbox.
  - The controller's handlers are methods that load a record, change it,
    save it and emit.
  - Every such method is proved to leave exactly the state, and give exactly
    the reply, that its specification function gives.
- `coordinator_properties.dfy`: runs, meaning arbitrary sequences of
  requests, socket events and TTL passes. It proves:
  - the invariant is kept;
  - `isActive` never goes back to true;
  - emissions are only appended;
  - teardown happens once whichever path comes first;
  - the superseded-socket behaviour of the registry.

The environment's inputs are parameters:

- the clock reading `now` (milliseconds) stands for `new Date()`;
- the fresh id stands for `uuidv4()`;
- the optional base URL stands for `process.env.FRONTEND_URL`;
- the socket id and the handshake query are plain arguments.

## Model

| member | source | states |
|---|---|---|
| `JsText.LeadingWhitespace` | backend/src/controllers/tempChat.controller.js:10-18 | the count of whitespace characters `trim()` drops from the front: all of them are whitespace and the next character, if any, is not |
| `JsText.TrailingWhitespace` | backend/src/controllers/tempChat.controller.js:10-18 | the same count from the back: the characters dropped from the end are whitespace and the one before them, if any, is not |
| `JsText.Trim` | backend/src/controllers/tempChat.controller.js:10-18 | `trim()` returns the slice of the input between its leading and trailing whitespace; every dropped character is whitespace, and a non-empty result starts and ends with a non-whitespace character |
| `JsText.BlankIffAllWhitespace` | backend/src/controllers/tempChat.controller.js:10-12 | the `trim() === ""` test rejects exactly the strings made only of whitespace, in both directions |
| `JsText.TrimIdempotent` | backend/src/controllers/tempChat.controller.js:18 | trimming twice gives the same name as trimming once |
| `JsText.IsBlank` | backend/src/controllers/tempChat.controller.js:10 | `x.trim() === ""`, whose meaning `BlankIffAllWhitespace` states |
| `JsText.NonBlank` | backend/src/controllers/tempChat.controller.js:10 | a name passes `!x \|\| x.trim() === ""` exactly when it is present and not blank |
| `JsText.Truthy` | backend/src/lib/socket.js:34-40 | JavaScript truthiness of an optional string: present and not empty |
| `TempChatSessionModel.NewSession` | backend/src/models/tempChatSession.model.js:14-37 | a new record has `isActive` true, no participant name, no cached socket ids, `createdAt = now` and `expiresAt = now + 86 400 000`; it is live at every instant of the next 24 hours and not live at their end |
| `TempChatSessionModel.ReapSessions` | backend/src/models/tempChatSession.model.js:43 | the TTL pass keeps a record exactly when `now < expiresAt`, active or not, and keeps it unchanged; a live record always survives |
| `TempChatSessionModel.IsLive` | backend/src/controllers/tempChat.controller.js:43-47 | the filter `{ isActive: true, expiresAt: { $gt: now } }` on one record |
| `TempChatSessionModel.LiveIn` | backend/src/controllers/tempChat.controller.js:43-47 | the live `findOne` by `sessionId` finds a record |
| `TempChatSessionModel.NotLiveStaysNotLive` | backend/src/models/tempChatSession.model.js:26-37 | a record that is ended or expired is not live in any later version of it at any later time |
| `TempChatSessionModel.SucceedsTransitive` | backend/src/models/tempChatSession.model.js:26-37 | the relation "id, creator, creation time and expiry fixed, `isActive` never turned back on" chains across versions |
| `TempMessageModel.RoleName` | backend/src/models/tempMessage.model.js:14-18 | each role's enum string parses back to that role |
| `TempMessageModel.ParseRole` | backend/src/models/tempMessage.model.js:14-18 | the enum validator accepts exactly `"creator"` and `"participant"`, each as its own role |
| `TempMessageModel.Other` | backend/src/controllers/tempChat.controller.js:156-158 | the other party's role differs from the sender's |
| `TempMessageModel.MessagesOf` | backend/src/controllers/tempChat.controller.js:111 | `find({ sessionId })` returns exactly the log's messages of that session, whatever their position in the log |
| `TempMessageModel.Purge` | backend/src/controllers/tempChat.controller.js:187 | `deleteMany({ sessionId })` keeps exactly the messages of other sessions |
| `TempMessageModel.PurgeWithoutMessages` | backend/src/controllers/tempChat.controller.js:186-187 | deleting the messages of a session that has none leaves the log as it was |
| `TempMessageModel.PurgeKeepsOtherSessions` | backend/src/controllers/tempChat.controller.js:186-187 | after deleting one session's messages, every other session's message list is the same, in the same order |
| `TempMessageModel.PurgeRemovesExactlyItsMessages` | backend/src/controllers/tempChat.controller.js:186-187 | the deleted messages and the kept ones together are the old log as a multiset, so nothing else is lost |
| `TempMessageModel.ReapMessages` | backend/src/models/tempMessage.model.js:35 | the message TTL pass keeps exactly the messages with `now < timestamp + 86 400 000`, whatever their session, each with its multiplicity in the log, and drops every copy of the others |
| `TempMessageModel.InsertByTimestamp` | backend/src/controllers/tempChat.controller.js:111-112 | inserting into an ascending sequence keeps it ascending and adds exactly that message |
| `TempMessageModel.SortByTimestamp` | backend/src/controllers/tempChat.controller.js:111-112 | `.sort({ timestamp: 1 })` gives an ascending permutation of its input |
| `Coordinator.CounterpartSocketId` | backend/src/controllers/tempChat.controller.js:156-158 | for a valid role, the selected cached socket id is the other role's; any other `userType` selects the creator's |
| `Coordinator.CacheSocket` | backend/src/controllers/tempChat.controller.js:220-224 | only the named role's cached socket field is written; any other `userType` writes nothing; identity, names, activity and expiry stay |
| `Coordinator.DeliverTo` | backend/src/controllers/tempChat.controller.js:160-162 | a notification goes to the cached socket exactly when that id is truthy, at most once |
| `Coordinator.Teardown` | backend/src/controllers/tempChat.controller.js:182-187 | teardown sets only `isActive` to false on the record, leaving its other fields, purges that session's messages only, changes no other record, and keeps the invariant |
| `Coordinator.Initial` | backend/src/lib/socket.js:22-24 | the empty state satisfies the invariant |
| `TempChatSpec.BaseUrl` | backend/src/controllers/tempChat.controller.js:25 | `process.env.FRONTEND_URL \|\| 'http://localhost:5173'`: the configured base when it is truthy, the default otherwise |
| `TempChatSpec.ShareLink` | backend/src/controllers/tempChat.controller.js:25 | the share link is the base, then `/join/`, then the session id, and nothing else |
| `TempChatSpec.CreateTempChat` | backend/src/controllers/tempChat.controller.js:6-32 | a missing or blank name gives 400 and no change. Otherwise it succeeds exactly when the fresh id is free: one new record under that id with the trimmed name and schema defaults, the reply carries the id, share link and trimmed name, and nothing else changes. A taken id gives 500 and no change |
| `TempChatSpec.JoinTempChat` | backend/src/controllers/tempChat.controller.js:34-67 | a blank name gives 400 before any lookup. A session that is not live gives the 404. Success happens exactly when the name is non-blank and the session is live, and it overwrites `participantName` with the trimmed name and changes nothing else |
| `TempChatSpec.GetTempChatSession` | backend/src/controllers/tempChat.controller.js:69-94 | succeeds exactly on a live session, with its public fields; otherwise the single 404 |
| `TempChatSpec.GetTempMessages` | backend/src/controllers/tempChat.controller.js:96-119 | on a live session, returns exactly that session's messages (same multiset), in ascending timestamp order; otherwise the 404 |
| `TempChatSpec.SendTempMessage` | backend/src/controllers/tempChat.controller.js:121-169 | checks liveness (404), then text or image (400), then sender (400), and any failure changes nothing. A sender type outside the enum gives 500. Success happens exactly when all pass, appends exactly one message stamped `now` and returns it, and delivers it only to the other role's cached socket id when that id is set |
| `TempChatSpec.LeaveTempChat` | backend/src/controllers/tempChat.controller.js:171-203 | fails only on a missing record, with no liveness check. Otherwise it marks the record inactive, deletes exactly that session's messages, keeps the registry, and notifies only the counterpart's cached socket |
| `TempChatSpec.UpdateSocketId` | backend/src/controllers/tempChat.controller.js:205-233 | on a live session, writes only the named role's cached socket field; any other `userType` leaves both fields; a session that is not live gives the 404 and no change |
| `SocketSpec.ReceiverSocketId` | backend/src/lib/socket.js:18-20 | `getReceiverSocketId` is a plain lookup in `userSocketMap` |
| `SocketSpec.HandleTempChatConnection` | backend/src/lib/socket.js:60-108 | on a session that is not live: only an error to this socket. Otherwise these happen: the socket becomes the handle for `(sessionId, userType)`, replacing any earlier one and leaving every other key; the role's cached field takes the socket id; the room minus this socket hears `userJoined` with the role's stored name; this socket hears `otherUserConnected`, which is true exactly when the other role's cached field is truthy |
| `SocketSpec.AttachSocket` | backend/src/lib/socket.js:73-102 | on a live session the entry is created if missing and the socket becomes the role's handle, leaving every other key of the entry and every other session's entry; the record becomes `CacheSocket` of itself and no other record changes; messages and the user map stay; the room minus this socket hears `userJoined` with the role's stored name, then this socket hears `connectedToTempChat` with whether the other role's cached id is truthy |
| `SocketSpec.AttachSocketKeepsInv` | backend/src/lib/socket.js:73-87 | attaching a socket keeps the invariant and never reactivates or re-dates the record |
| `SocketSpec.Unregister` | backend/src/lib/socket.js:113-118 | the entry is deleted exactly when no key other than `userType` was registered; otherwise only that key goes |
| `SocketSpec.DetachFromRegistry` | backend/src/lib/socket.js:112-127 | an unknown session changes nothing. Removing the last key deletes the entry and tears the session down. Otherwise only the key goes. No other record changes |
| `SocketSpec.ForgetSocket` | backend/src/lib/socket.js:129-141 | when the record exists, it becomes `CacheSocket(record, userType, None)`, so only that role's cached field is cleared and every other field stays, and the room hears `userDisconnected`; activity, messages and registry are untouched |
| `SocketSpec.HandleTempChatDisconnect` | backend/src/lib/socket.js:110-146 | a session absent from the registry keeps its activity and its messages. The last key's removal deletes the entry, marks the record inactive and purges its messages. Whenever the record exists, it becomes the record (made inactive when the last key went) with only the role's cached field cleared, and `userDisconnected` is emitted |
| `SocketSpec.TrackUser` | backend/src/lib/socket.js:34-37 | a truthy user id maps to this socket, every other entry stays, everyone hears the ids online, and nothing else changes; no user id changes nothing |
| `SocketSpec.UntrackUser` | backend/src/lib/socket.js:48-51 | a truthy user id leaves the map, every other entry stays, everyone hears the ids online, and nothing else changes; no user id changes nothing |
| `SocketSpec.OnConnection` | backend/src/lib/socket.js:26-42 | a truthy user id is mapped to the socket and first of all everyone hears the online list; a truthy `sessionId` and `userType` then hand that state to `HandleTempChatConnection`; without a temp-chat query the result is exactly `TrackUser`'s, one online-list emission and nothing else |
| `SocketSpec.OnDisconnect` | backend/src/lib/socket.js:44-57 | a truthy user id is deleted from the map and everyone hears the online list; a truthy `sessionId` and `userType` then hand that state to `HandleTempChatDisconnect`; without a temp-chat query the result is exactly `UntrackUser`'s, one online-list emission and nothing else |
| `Store.Database.FindOne` | backend/src/controllers/tempChat.controller.js:176 | finds the record exactly when one is stored under the id |
| `Store.Database.FindOneLive` | backend/src/controllers/tempChat.controller.js:43-47 | finds the record exactly when it is live |
| `Store.Database.InsertSession` | backend/src/models/tempChatSession.model.js:5-9 | the unique index: inserts exactly when the id is free, and otherwise changes nothing |
| `Store.Database.SaveSession` | backend/src/controllers/tempChat.controller.js:55 | `save()` replaces the loaded record and nothing else |
| `Store.Database.Deactivate` | backend/src/lib/socket.js:121-124 | `findOneAndUpdate` sets `isActive` false on the record, if there is one |
| `Store.Database.InsertMessage` | backend/src/controllers/tempChat.controller.js:145-153 | the message is appended to the log |
| `Store.Database.DeleteMany` | backend/src/controllers/tempChat.controller.js:187 | the log becomes its purge by session |
| `Store.Database.FindMessagesSorted` | backend/src/controllers/tempChat.controller.js:111-112 | returns the sorted messages of the session |
| `Store.Database.ReapExpiredSessions` | backend/src/models/tempChatSession.model.js:43 | the sessions become their TTL reap |
| `Store.Database.ReapExpiredMessages` | backend/src/models/tempMessage.model.js:35 | the log becomes its TTL reap |
| `Socket.SocketServer.GetReceiverSocketId` | backend/src/lib/socket.js:18-20 | finds a socket id exactly when the user id is in the map, and it is the mapped one |
| `Socket.SocketServer.Emit` | backend/src/lib/socket.js:93-102 | an emission is appended to the outbox |
| `Socket.SocketServer.HandleTempChatConnection` | backend/src/lib/socket.js:60-108 | the new registries, records and outbox are exactly those of `SocketSpec.HandleTempChatConnection` |
| `Socket.SocketServer.AttachSocket` | backend/src/lib/socket.js:73-102 | the live branch leaves exactly the state of `SocketSpec.AttachSocket` |
| `Socket.SocketServer.AddHandle` | backend/src/lib/socket.js:73-79 | the registry becomes the old one with the session's entry (empty if missing) extended by the role's handle |
| `Socket.SocketServer.HandleTempChatDisconnect` | backend/src/lib/socket.js:110-146 | the new state is exactly that of `SocketSpec.HandleTempChatDisconnect` |
| `Socket.SocketServer.DetachFromRegistry` | backend/src/lib/socket.js:112-127 | the new state is exactly that of `SocketSpec.DetachFromRegistry` |
| `Socket.SocketServer.RemoveHandle` | backend/src/lib/socket.js:113-118 | the registry and the "entry emptied" answer are those of `SocketSpec.Unregister` |
| `Socket.SocketServer.OnConnection` | backend/src/lib/socket.js:26-42 | the new state is exactly that of `SocketSpec.OnConnection` |
| `Socket.SocketServer.OnDisconnect` | backend/src/lib/socket.js:44-57 | the new state is exactly that of `SocketSpec.OnDisconnect` |
| `TempChatController.CreateTempChat` | backend/src/controllers/tempChat.controller.js:6-32 | reply and new state are exactly those of `TempChatSpec.CreateTempChat` |
| `TempChatController.JoinTempChat` | backend/src/controllers/tempChat.controller.js:34-67 | reply and new state are exactly those of `TempChatSpec.JoinTempChat` |
| `TempChatController.GetTempChatSession` | backend/src/controllers/tempChat.controller.js:69-94 | the reply is that of `TempChatSpec.GetTempChatSession`, and nothing changes |
| `TempChatController.GetTempMessages` | backend/src/controllers/tempChat.controller.js:96-119 | the reply is that of `TempChatSpec.GetTempMessages`, and nothing changes |
| `TempChatController.SendTempMessage` | backend/src/controllers/tempChat.controller.js:121-169 | reply, log and outbox are exactly those of `TempChatSpec.SendTempMessage` |
| `TempChatController.LeaveTempChat` | backend/src/controllers/tempChat.controller.js:171-203 | reply, records, log and outbox are exactly those of `TempChatSpec.LeaveTempChat` |
| `TempChatController.UpdateSocketId` | backend/src/controllers/tempChat.controller.js:205-233 | reply and new state are exactly those of `TempChatSpec.UpdateSocketId` |
| `CoordinatorProperties.Step` | backend/src/controllers/tempChat.controller.js:6-233 | every handler, socket event and TTL pass keeps the invariant, never reactivates or re-dates a record, adds a record only under a create's fresh id, and only appends to the outbox |
| `CoordinatorProperties.RunPreservesInv` | backend/src/models/tempChatSession.model.js:5-37 | after any run from a state satisfying the invariant, the invariant still holds |
| `CoordinatorProperties.ReachableStatesKeepInv` | backend/src/models/tempMessage.model.js:5-18 | every state reachable from the empty one has only well-formed records and messages, no messages of ended sessions and no empty registry entry |
| `CoordinatorProperties.RunNeverReactivates` | backend/src/models/tempChatSession.model.js:26-37 | with fresh create ids, every record present at both ends of a run kept its id, creator, `createdAt` and `expiresAt`, and `isActive` was never set back to true |
| `CoordinatorProperties.EndedSessionsStayEnded` | backend/src/controllers/tempChat.controller.js:43-51 | a session that ended or expired is never live again at that time or any later one, so no later join, send, update or connect accepts it |
| `CoordinatorProperties.RunOutboxGrows` | backend/src/lib/socket.js:93-102 | emitted events are never retracted over a run |
| `CoordinatorProperties.LeaveEndedSessionChangesNothing` | backend/src/controllers/tempChat.controller.js:176-198 | a leave on an already ended session succeeds and changes nothing but the outbox |
| `CoordinatorProperties.LeaveTwice` | backend/src/controllers/tempChat.controller.js:171-203 | a second leave succeeds and changes nothing beyond the first, except a repeated notice |
| `CoordinatorProperties.DisconnectAfterEndDeletesNothing` | backend/src/lib/socket.js:113-141 | after a leave, a disconnect deletes no message and changes no record's activity |
| `CoordinatorProperties.LeaveAfterLastDisconnectChangesNothing` | backend/src/controllers/tempChat.controller.js:176-198 | after the last disconnect tore a session down, a leave changes nothing but the outbox |
| `CoordinatorProperties.ReconnectReplacesHandle` | backend/src/lib/socket.js:73-79 | for any role, a second connection of that role replaces the first socket's handle, leaving one key |
| `CoordinatorProperties.SupersededSocketEndsSession` | backend/src/lib/socket.js:73-127 | for any role: when it reconnects, the new socket replaces the old one in the registry; the old socket's late disconnect then removes the new handle and, if no other role is connected, ends the session |
| `CoordinatorProperties.SentMessageIsListed` | backend/src/controllers/tempChat.controller.js:145-164 | a sent message is visible to list-messages right away, whether or not it was delivered live |
| `CoordinatorProperties.SessionReapOrphansMessages` | backend/src/models/tempMessage.model.js:5-9 | reaping sessions leaves the message log untouched, so messages of reaped sessions stay behind as orphans |

## Design questions the code answers

Each point below is a place where the code makes a choice a reader might
not expect; the model follows the code in each case.

- Join overwrites `participantName` on every successful call, even when a
  participant has already joined.
- Leave does not remove the session's registry entries. It notifies the
  other role through the cached socket field on the record, not through the
  registry. Send also delivers through that cached field, so the registry
  is not the only record of who is connected.
- A disconnect that leaves the other role registered changes nothing but
  the key, the cached field and the `userDisconnected` emission; the
  emission goes to the whole room in every case.
- Teardown is not guarded by a compare-and-set on `isActive`. Being run
  twice is harmless only because a purge of a session with no messages
  deletes nothing (`LeaveTwice`, `DisconnectAfterEndDeletesNothing`).
- A disconnect emits `userDisconnected` to the room whenever the record
  exists. This includes the disconnect that tore the session down, and no
  `chatSessionEnded` is sent on that path.
- The registry is keyed by `(sessionId, userType)` with the raw `userType`
  string. Any truthy value is accepted there. Only `"creator"` and
  `"participant"` write a cached field on the record.
- A late disconnect from a superseded socket deletes the current handle for
  its key (`SupersededSocketEndsSession`).

## Left out

- Socket.IO, Express, HTTP server construction, CORS, routes, and the React
  frontend. Emissions are recorded in an outbox rather than delivered.
  Room membership (`socket.join`) is not modelled, so a `ToRoom` emission
  names the room, not its members.
- Asynchrony and real concurrency. Each handler, and each MongoDB call
  inside it, is one atomic step. A race between leave and disconnect
  appears only as the two interleavings of whole steps.
- `catch` paths and `console.log`. Two failures are modelled as the 500
  reply that the `catch` would send, because the model can name their
  input: a fresh id that is already taken, and a `senderType` outside the
  enum. Every other thrown error is left out, including:
  - a non-string name;
  - a database that is down;
  - the "Failed to connect to chat session" error of the connection handler.
- `updatedAt`/`createdAt` from `{ timestamps: true }`, and the message
  `_id`. Two messages with the same fields and timestamp are
  indistinguishable here.
- Every clock read of one request is the same `now`: the `new Date()` of a
  lookup, and in create the two separate `Date.now()` calls of the
  `createdAt` and `expiresAt` defaults (tempChatSession.model.js:32, 36).
  `WellFormed`'s exact `expiresAt == createdAt + 86 400 000` relies on
  those two calls returning the same time; in the code they may differ by
  a millisecond or more.
- `SocketSpec.OnConnection`: the online list is an unordered set of user ids,
  not the insertion order of `Object.keys`.
- `SocketSpec.OnDisconnect`: the same, the online list is a set.
- `TempMessageModel.SortByTimestamp`: the database's order among messages
  with equal timestamps is unspecified; the model uses a stable insertion
  sort, and its contract states only sortedness and permutation.
- `SocketSpec.HandleTempChatConnection`: the registries are Dafny maps,
  not plain JavaScript objects, so keys that an object inherits or treats
  specially (`"__proto__"`, `"constructor"`, `"toString"`, …) behave like
  any other key. In the code, `tempChatSocketMap[S]["__proto__"] =
  socket.id` is ignored, so such a role never counts towards the entry's
  keys and its entry can empty (or never fill) differently from the model;
  a session id such as `"constructor"` would find an inherited value as its
  entry. A connection passes the liveness check only for the uuid id of a
  stored record, so on this path only the role key matters.
- `SocketSpec.HandleTempChatDisconnect`: with the same cause, a disconnect
  whose query has `sessionId=__proto__` finds `Object.prototype` as the
  entry even though the connection failed the liveness check, deletes the
  property named by `userType` from it, and runs the teardown queries for a
  session id no record has; the model sees no entry and leaves the
  registry alone.
- `SocketSpec.OnConnection`: likewise a `userId` of `"__proto__"` is not
  stored in `userSocketMap`, and `ReceiverSocketId` then returns
  `Object.prototype` rather than nothing; the model stores and finds it.
- The TTL monitors are separate steps that may run at any time with any
  `now`; their real schedule (about once a minute) is not modelled.
