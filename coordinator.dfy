/** The whole state of the ephemeral session coordinator, as one value: the
    two persisted collections, the two in-memory connection registries of the
    socket server, and the notifications emitted so far. Also the pieces of
    behaviour the HTTP handlers and the socket handlers share. */
module Coordinator {
  import opened Wrappers
  import opened JsText
  import opened TempChatSessionModel
  import opened TempMessageModel

  /** Where a notification goes: one socket (`io.to(id)` / `socket.emit`),
      a session's room except the sending socket (`socket.to(room)`), a whole
      room (`io.to(room)`), or every connection (`io.emit`). */
  datatype Target =
    | ToSocket(socketId: string)
    | ToRoomExcept(room: string, except: string)
    | ToRoom(room: string)
    | Everyone

  /** The outbound events, with their payloads. */
  datatype Event =
    | NewTempMessage(message: Message)
    | ChatSessionEnded(sessionId: string)
    | UserJoined(userType: string, userName: Option<string>)
    | ConnectedToTempChat(sessionId: string, userType: string, otherUserConnected: bool)
    | UserDisconnected(userType: string)
    | ConnectionError(reason: string)
    | OnlineUsers(userIds: set<string>)

  datatype Emission = Emission(target: Target, event: Event)

  datatype World = World(
    sessions: map<string, Session>,                      // TempChatSession, keyed by sessionId
    messages: seq<Message>,                              // TempMessage, in insertion order
    tempChatSocketMap: map<string, map<string, string>>, // sessionId -> userType -> socket id
    userSocketMap: map<string, string>,                  // userId -> socket id
    outbox: seq<Emission>)                               // everything emitted, oldest first

  /** The cached socket id of a role's connection on the session record. */
  function RoleSocketId(s: Session, role: Role): Option<string>
  {
    match role
    case Creator => s.creatorSocketId
    case Participant => s.participantSocketId
  }

  /** `userType === "creator" ? session.participantSocketId : session.creatorSocketId`:
      the cached socket id of the other party; any `userType` other than
      "creator" selects the creator's. */
  function CounterpartSocketId(s: Session, userType: string): (r: Option<string>)
    ensures ParseRole(userType).Some? ==> r == RoleSocketId(s, Other(ParseRole(userType).value))
    ensures ParseRole(userType).None? ==> r == s.creatorSocketId
  {
    if userType == "creator" then s.participantSocketId else s.creatorSocketId
  }

  /** The branch `if (userType === "creator") … else if (userType === "participant") …`
      that writes a socket id into the named role's cached field; any other
      `userType` writes nothing. */
  function CacheSocket(s: Session, userType: string, socketId: Option<string>): (r: Session)
    ensures Succeeds(s, r) && r.isActive == s.isActive
    ensures r.participantName == s.participantName
    ensures r.creatorSocketId == if userType == "creator" then socketId else s.creatorSocketId
    ensures r.participantSocketId == if userType == "participant" then socketId else s.participantSocketId
  {
    match ParseRole(userType)
    case Some(Creator) => s.(creatorSocketId := socketId)
    case Some(Participant) => s.(participantSocketId := socketId)
    case None => s
  }

  /** `if (receiverSocketId) io.to(receiverSocketId).emit(…)`: one emission
      when the cached id is truthy, none otherwise. */
  function DeliverTo(receiver: Option<string>, event: Event): (r: seq<Emission>)
    ensures |r| <= 1
    ensures r != [] <==> Truthy(receiver)
    ensures r != [] ==> r[0] == Emission(ToSocket(receiver.value), event)
  {
    if Truthy(receiver) then [Emission(ToSocket(receiver.value), event)] else []
  }

  /** The teardown both end paths perform: mark the record (if any) inactive
      and delete every message of the session. */
  function Teardown(st: World, sessionId: string): (r: World)
    ensures r.messages == Purge(st.messages, sessionId)
    ensures NoMessagesOf(r.messages, sessionId)
    ensures r.sessions.Keys == st.sessions.Keys
    ensures sessionId in r.sessions ==> !r.sessions[sessionId].isActive
    ensures sessionId in st.sessions ==> r.sessions[sessionId] == st.sessions[sessionId].(isActive := false)
    ensures forall id :: id in st.sessions && id != sessionId ==> r.sessions[id] == st.sessions[id]
    ensures TableEvolves(st.sessions, r.sessions)
    ensures r.tempChatSocketMap == st.tempChatSocketMap
    ensures r.userSocketMap == st.userSocketMap && r.outbox == st.outbox
    ensures Inv(st) ==> Inv(r)
  {
    var sessions :=
      if sessionId in st.sessions
      then st.sessions[sessionId := st.sessions[sessionId].(isActive := false)]
      else st.sessions;
    st.(sessions := sessions, messages := Purge(st.messages, sessionId))
  }

  // The invariant every handler keeps.

  /** Records are stored under their own `sessionId` (so the unique index
      holds by construction) and satisfy the schema. */
  predicate SessionsWellFormed(sessions: map<string, Session>)
  {
    forall id :: id in sessions ==> sessions[id].sessionId == id && WellFormed(sessions[id])
  }

  predicate MessagesWellFormed(log: seq<Message>)
  {
    forall m :: m in log ==> WellFormedMessage(m)
  }

  /** A session that has ended owns no message: teardown purged them all, and
      nothing can add a message to a session that is not live. */
  predicate EndedSessionsPurged(st: World)
  {
    forall id :: id in st.sessions && !st.sessions[id].isActive ==> NoMessagesOf(st.messages, id)
  }

  /** The registry never keeps an empty per-session entry: the last
      disconnect deletes it. */
  predicate RegistryHasNoEmptyEntries(registry: map<string, map<string, string>>)
  {
    forall sid :: sid in registry ==> registry[sid] != map[]
  }

  predicate Inv(st: World)
  {
    && SessionsWellFormed(st.sessions)
    && MessagesWellFormed(st.messages)
    && EndedSessionsPurged(st)
    && RegistryHasNoEmptyEntries(st.tempChatSocketMap)
  }

  /** Writing a cached socket field keeps the invariant: `CacheSocket`
      touches neither the identity, the schema fields nor `isActive`. */
  lemma CacheSocketKeepsInv(st: World, sessionId: string, userType: string, socketId: Option<string>)
    requires sessionId in st.sessions
    ensures Inv(st) ==> Inv(st.(sessions := st.sessions[sessionId := CacheSocket(st.sessions[sessionId], userType, socketId)]))
  {
  }

  /** Storing a new record under a free id keeps the invariant. */
  lemma NewSessionKeepsInv(st: World, sessionId: string, creatorName: string, now: int)
    requires sessionId !in st.sessions && creatorName != ""
    ensures Inv(st) ==> Inv(st.(sessions := st.sessions[sessionId := NewSession(sessionId, creatorName, now)]))
  {
  }

  /** The state before any request. */
  function Initial(): (st: World)
    ensures Inv(st)
  {
    World(map[], [], map[], map[], [])
  }
}
