/** What the socket server's lifecycle handlers do, as atomic transitions of
    the coordinator's state. A connection carries the `userId`, `sessionId`
    and `userType` of its handshake query; the same three values reach the
    disconnect handler. */
module SocketSpec {
  import opened Wrappers
  import opened JsText
  import opened TempChatSessionModel
  import opened TempMessageModel
  import opened Coordinator

  const SessionUnavailable := "Chat session not found or expired"

  /** `getReceiverSocketId`: the socket id registered for a regular user. */
  function ReceiverSocketId(userSocketMap: map<string, string>, userId: string): (r: Option<string>)
    ensures r.Some? <==> userId in userSocketMap
    ensures r.Some? ==> r.value == userSocketMap[userId]
  {
    if userId in userSocketMap then Some(userSocketMap[userId]) else None
  }

  /** The registry entry of a session, `{}` when it has none. */
  function EntryOf(registry: map<string, map<string, string>>, sessionId: string): map<string, string>
  {
    if sessionId in registry then registry[sessionId] else map[]
  }

  /** `handleTempChatConnection`. On a session that is not live: an error to
      this socket and nothing else. Otherwise the socket id becomes the
      registry's handle for `(sessionId, userType)` (replacing any earlier
      one, leaving every other key alone) and that role's cached field on the
      record; the rest of the room hears that the role joined, with the
      role's stored name, and this socket hears whether the other role's
      cached socket id is set. */
  function HandleTempChatConnection(st: World, socketId: string, sessionId: string, userType: string, now: int)
    : (r: World)
    ensures !LiveIn(st.sessions, sessionId, now) ==>
      r == st.(outbox := st.outbox + [Emission(ToSocket(socketId), ConnectionError(SessionUnavailable))])
    ensures LiveIn(st.sessions, sessionId, now) ==>
      var s := st.sessions[sessionId];
      var before := EntryOf(st.tempChatSocketMap, sessionId);
      && r.tempChatSocketMap.Keys == st.tempChatSocketMap.Keys + {sessionId}
      && (forall sid :: sid in st.tempChatSocketMap && sid != sessionId ==>
            r.tempChatSocketMap[sid] == st.tempChatSocketMap[sid])
      && r.tempChatSocketMap[sessionId].Keys == before.Keys + {userType}
      && r.tempChatSocketMap[sessionId][userType] == socketId
      && (forall u :: u in before && u != userType ==> r.tempChatSocketMap[sessionId][u] == before[u])
      && r.sessions == st.sessions[sessionId := CacheSocket(s, userType, Some(socketId))]
      && r.messages == st.messages
      && r.userSocketMap == st.userSocketMap
      && r.outbox == st.outbox + [
           Emission(ToRoomExcept(sessionId, socketId),
                    UserJoined(userType, if userType == "creator" then Some(s.creatorName) else s.participantName)),
           Emission(ToSocket(socketId),
                    ConnectedToTempChat(sessionId, userType, Truthy(CounterpartSocketId(s, userType))))]
    ensures TableEvolves(st.sessions, r.sessions)
    ensures Inv(st) ==> Inv(r)
  {
    if !LiveIn(st.sessions, sessionId, now) then
      st.(outbox := st.outbox + [Emission(ToSocket(socketId), ConnectionError(SessionUnavailable))])
    else
      AttachSocketKeepsInv(st, socketId, sessionId, userType);
      AttachSocket(st, socketId, sessionId, userType)
  }

  /** The branch of `handleTempChatConnection` taken on a live session: the
      socket becomes the role's handle in the registry and its cached field,
      and two notifications are appended. */
  function AttachSocket(st: World, socketId: string, sessionId: string, userType: string): (r: World)
    requires sessionId in st.sessions
    ensures r.tempChatSocketMap.Keys == st.tempChatSocketMap.Keys + {sessionId}
    ensures forall sid :: sid in st.tempChatSocketMap && sid != sessionId ==>
      r.tempChatSocketMap[sid] == st.tempChatSocketMap[sid]
    ensures r.tempChatSocketMap[sessionId].Keys == EntryOf(st.tempChatSocketMap, sessionId).Keys + {userType}
    ensures r.tempChatSocketMap[sessionId][userType] == socketId
    ensures forall u :: u in EntryOf(st.tempChatSocketMap, sessionId) && u != userType ==>
      r.tempChatSocketMap[sessionId][u] == EntryOf(st.tempChatSocketMap, sessionId)[u]
    ensures r.sessions == st.sessions[sessionId := CacheSocket(st.sessions[sessionId], userType, Some(socketId))]
    ensures r.messages == st.messages && r.userSocketMap == st.userSocketMap
    ensures var s := st.sessions[sessionId];
      r.outbox == st.outbox + [
        Emission(ToRoomExcept(sessionId, socketId),
                 UserJoined(userType, if userType == "creator" then Some(s.creatorName) else s.participantName)),
        Emission(ToSocket(socketId),
                 ConnectedToTempChat(sessionId, userType, Truthy(CounterpartSocketId(s, userType))))]
  {
    var entry := EntryOf(st.tempChatSocketMap, sessionId)[userType := socketId];
    var session := CacheSocket(st.sessions[sessionId], userType, Some(socketId));
    CacheSocketKeepsInv(st, sessionId, userType, Some(socketId));
    var userName := if userType == "creator" then Some(session.creatorName) else session.participantName;
    var joined := Emission(ToRoomExcept(sessionId, socketId), UserJoined(userType, userName));
    var status := Emission(ToSocket(socketId),
                           ConnectedToTempChat(sessionId, userType, Truthy(CounterpartSocketId(session, userType))));
    st.(tempChatSocketMap := st.tempChatSocketMap[sessionId := entry],
        sessions := st.sessions[sessionId := session],
        outbox := st.outbox + [joined, status])
  }

  /** The registry after removing `(sessionId, userType)`, and whether that
      left the session with no key at all. */
  function Unregister(registry: map<string, map<string, string>>, sessionId: string, userType: string)
    : (r: (map<string, map<string, string>>, bool))
    requires sessionId in registry
    ensures r.1 <==> registry[sessionId].Keys <= {userType}
    ensures r.1 ==> r.0 == registry - {sessionId}
    ensures !r.1 ==> r.0 == registry[sessionId := registry[sessionId] - {userType}]
    ensures RegistryHasNoEmptyEntries(registry) ==> RegistryHasNoEmptyEntries(r.0)
  {
    var entry := registry[sessionId] - {userType};
    if |entry| == 0 then (registry - {sessionId}, true) else (registry[sessionId := entry], false)
  }

  /** `handleTempChatDisconnect`. Only the `(sessionId, userType)` key leaves
      the registry; when that empties the session's entry, the entry goes and
      the session is torn down (inactive, messages purged). A session the
      registry does not know keeps its activity and its messages. Whenever the
      record still exists, that role's cached socket field is cleared and the
      room hears that the role disconnected. */
  function HandleTempChatDisconnect(st: World, sessionId: string, userType: string): (r: World)
    ensures r.sessions.Keys == st.sessions.Keys
    ensures sessionId !in st.tempChatSocketMap ==>
      && r.tempChatSocketMap == st.tempChatSocketMap
      && r.messages == st.messages
      && (forall id :: id in st.sessions ==> r.sessions[id].isActive == st.sessions[id].isActive)
    ensures sessionId in st.tempChatSocketMap && !(st.tempChatSocketMap[sessionId].Keys <= {userType}) ==>
      && r.tempChatSocketMap == st.tempChatSocketMap[sessionId := st.tempChatSocketMap[sessionId] - {userType}]
      && r.messages == st.messages
      && (forall id :: id in st.sessions ==> r.sessions[id].isActive == st.sessions[id].isActive)
    ensures sessionId in st.tempChatSocketMap && st.tempChatSocketMap[sessionId].Keys <= {userType} ==>
      && r.tempChatSocketMap == st.tempChatSocketMap - {sessionId}
      && r.messages == Purge(st.messages, sessionId)
      && (sessionId in r.sessions ==> !r.sessions[sessionId].isActive)
    ensures forall id :: id in st.sessions && id != sessionId ==> r.sessions[id] == st.sessions[id]
    ensures sessionId in st.sessions ==>
      var s := st.sessions[sessionId];
      var lastKey := sessionId in st.tempChatSocketMap && st.tempChatSocketMap[sessionId].Keys <= {userType};
      r.sessions[sessionId] == CacheSocket(if lastKey then s.(isActive := false) else s, userType, None)
    ensures sessionId in st.sessions ==>
      && (userType == "creator" ==> r.sessions[sessionId].creatorSocketId == None)
      && (userType == "participant" ==> r.sessions[sessionId].participantSocketId == None)
      && r.outbox == st.outbox + [Emission(ToRoom(sessionId), UserDisconnected(userType))]
    ensures sessionId !in st.sessions ==> r.outbox == st.outbox
    ensures r.userSocketMap == st.userSocketMap
    ensures TableEvolves(st.sessions, r.sessions)
    ensures Inv(st) ==> Inv(r)
  {
    ForgetSocket(DetachFromRegistry(st, sessionId, userType), sessionId, userType)
  }

  /** The second half of `handleTempChatDisconnect`: when the record still
      exists, that role's cached socket field is cleared and the room is told;
      nothing else changes. */
  function ForgetSocket(st: World, sessionId: string, userType: string): (r: World)
    ensures sessionId !in st.sessions ==> r == st
    ensures r.sessions.Keys == st.sessions.Keys
    ensures r.messages == st.messages && r.tempChatSocketMap == st.tempChatSocketMap
    ensures r.userSocketMap == st.userSocketMap
    ensures forall id :: id in st.sessions ==> r.sessions[id].isActive == st.sessions[id].isActive
    ensures forall id :: id in st.sessions && id != sessionId ==> r.sessions[id] == st.sessions[id]
    ensures sessionId in st.sessions ==>
      && r.sessions[sessionId] == CacheSocket(st.sessions[sessionId], userType, None)
      && (userType == "creator" ==> r.sessions[sessionId].creatorSocketId == None)
      && (userType == "participant" ==> r.sessions[sessionId].participantSocketId == None)
      && r.outbox == st.outbox + [Emission(ToRoom(sessionId), UserDisconnected(userType))]
    ensures TableEvolves(st.sessions, r.sessions)
    ensures Inv(st) ==> Inv(r)
  {
    if sessionId in st.sessions then
      CacheSocketKeepsInv(st, sessionId, userType, None);
      st.(sessions := st.sessions[sessionId := CacheSocket(st.sessions[sessionId], userType, None)],
          outbox := st.outbox + [Emission(ToRoom(sessionId), UserDisconnected(userType))])
    else st
  }

  /** The first half of `handleTempChatDisconnect`: the registry update and,
      when it leaves the session without keys, the teardown. */
  function DetachFromRegistry(st: World, sessionId: string, userType: string): (r: World)
    ensures r.sessions.Keys == st.sessions.Keys
    ensures r.userSocketMap == st.userSocketMap && r.outbox == st.outbox
    ensures sessionId !in st.tempChatSocketMap ==> r == st
    ensures sessionId in st.tempChatSocketMap && !(st.tempChatSocketMap[sessionId].Keys <= {userType}) ==>
      r == st.(tempChatSocketMap := st.tempChatSocketMap[sessionId := st.tempChatSocketMap[sessionId] - {userType}])
    ensures sessionId in st.tempChatSocketMap && st.tempChatSocketMap[sessionId].Keys <= {userType} ==>
      r == Teardown(st.(tempChatSocketMap := st.tempChatSocketMap - {sessionId}), sessionId)
    ensures forall id :: id in st.sessions && id != sessionId ==> r.sessions[id] == st.sessions[id]
    ensures TableEvolves(st.sessions, r.sessions)
    ensures Inv(st) ==> Inv(r)
  {
    if sessionId in st.tempChatSocketMap then
      var (registry, empty) := Unregister(st.tempChatSocketMap, sessionId, userType);
      var st0 := st.(tempChatSocketMap := registry);
      assert Inv(st) ==> Inv(st0);
      if empty then Teardown(st0, sessionId) else st0
    else st
  }

  /** Attaching a socket to a session keeps the invariant: the entry it
      writes holds the new key, and the record only changes a socket field. */
  lemma AttachSocketKeepsInv(st: World, socketId: string, sessionId: string, userType: string)
    requires sessionId in st.sessions
    ensures TableEvolves(st.sessions, AttachSocket(st, socketId, sessionId, userType).sessions)
    ensures Inv(st) ==> Inv(AttachSocket(st, socketId, sessionId, userType))
  {
    var r := AttachSocket(st, socketId, sessionId, userType);
    CacheSocketKeepsInv(st, sessionId, userType, Some(socketId));
    assert userType in r.tempChatSocketMap[sessionId];
  }

  /** The regular-user half of the `connection` handler: a truthy `userId`
      maps to this socket (replacing any earlier one) and everyone hears the
      ids now online; nothing else changes. */
  function TrackUser(st: World, socketId: string, userId: Option<string>): (r: World)
    ensures Truthy(userId) ==>
      && r.userSocketMap.Keys == st.userSocketMap.Keys + {userId.value}
      && ReceiverSocketId(r.userSocketMap, userId.value) == Some(socketId)
      && (forall u :: u in st.userSocketMap && u != userId.value ==> r.userSocketMap[u] == st.userSocketMap[u])
      && r.outbox == st.outbox + [Emission(Everyone, OnlineUsers(r.userSocketMap.Keys))]
    ensures !Truthy(userId) ==> r == st
    ensures r.(userSocketMap := st.userSocketMap, outbox := st.outbox) == st
  {
    if Truthy(userId) then
      var users := st.userSocketMap[userId.value := socketId];
      st.(userSocketMap := users, outbox := st.outbox + [Emission(Everyone, OnlineUsers(users.Keys))])
    else st
  }

  /** The regular-user half of the `disconnect` handler: a truthy `userId`
      leaves the map and everyone hears the ids still online; nothing else
      changes. */
  function UntrackUser(st: World, userId: Option<string>): (r: World)
    ensures Truthy(userId) ==>
      && r.userSocketMap.Keys == st.userSocketMap.Keys - {userId.value}
      && ReceiverSocketId(r.userSocketMap, userId.value) == None
      && (forall u :: u in r.userSocketMap ==> r.userSocketMap[u] == st.userSocketMap[u])
      && r.outbox == st.outbox + [Emission(Everyone, OnlineUsers(r.userSocketMap.Keys))]
    ensures !Truthy(userId) ==> r == st
    ensures r.(userSocketMap := st.userSocketMap, outbox := st.outbox) == st
  {
    if Truthy(userId) then
      var users := st.userSocketMap - {userId.value};
      st.(userSocketMap := users, outbox := st.outbox + [Emission(Everyone, OnlineUsers(users.Keys))])
    else st
  }

  /** The `connection` handler: a regular user's socket is recorded under its
      user id and everyone hears the online list; a temporary-chat socket is
      then attached to its session. */
  function OnConnection(st: World, socketId: string, userId: Option<string>, sessionId: Option<string>,
                        userType: Option<string>, now: int): (r: World)
    ensures r.sessions.Keys == st.sessions.Keys
    ensures Truthy(userId) ==>
      && r.userSocketMap == st.userSocketMap[userId.value := socketId]
      && ReceiverSocketId(r.userSocketMap, userId.value) == Some(socketId)
    ensures !Truthy(userId) ==> r.userSocketMap == st.userSocketMap
    ensures Truthy(userId) ==>
      |st.outbox| < |r.outbox| && r.outbox[|st.outbox|] == Emission(Everyone, OnlineUsers(r.userSocketMap.Keys))
    ensures !Truthy(userId) && !(Truthy(sessionId) && Truthy(userType)) ==> r == st
    ensures !(Truthy(sessionId) && Truthy(userType)) ==>
      && r.sessions == st.sessions && r.messages == st.messages
      && r.tempChatSocketMap == st.tempChatSocketMap
    ensures Truthy(sessionId) && Truthy(userType) ==>
      r == HandleTempChatConnection(TrackUser(st, socketId, userId), socketId, sessionId.value, userType.value, now)
    ensures !(Truthy(sessionId) && Truthy(userType)) ==> r == TrackUser(st, socketId, userId)
    ensures st.outbox <= r.outbox
    ensures TableEvolves(st.sessions, r.sessions)
    ensures Inv(st) ==> Inv(r)
  {
    var st1 := TrackUser(st, socketId, userId);
    if Truthy(sessionId) && Truthy(userType)
    then HandleTempChatConnection(st1, socketId, sessionId.value, userType.value, now)
    else st1
  }

  /** The `disconnect` handler: a regular user's entry is deleted and everyone
      hears the online list; a temporary-chat socket is then detached from its
      session. */
  function OnDisconnect(st: World, userId: Option<string>, sessionId: Option<string>, userType: Option<string>)
    : (r: World)
    ensures r.sessions.Keys == st.sessions.Keys
    ensures Truthy(userId) ==>
      && r.userSocketMap == st.userSocketMap - {userId.value}
      && ReceiverSocketId(r.userSocketMap, userId.value) == None
    ensures !Truthy(userId) ==> r.userSocketMap == st.userSocketMap
    ensures Truthy(userId) ==>
      |st.outbox| < |r.outbox| && r.outbox[|st.outbox|] == Emission(Everyone, OnlineUsers(r.userSocketMap.Keys))
    ensures !Truthy(userId) && !(Truthy(sessionId) && Truthy(userType)) ==> r == st
    ensures !(Truthy(sessionId) && Truthy(userType)) ==>
      && r.sessions == st.sessions && r.messages == st.messages
      && r.tempChatSocketMap == st.tempChatSocketMap
    ensures Truthy(sessionId) && Truthy(userType) ==>
      r == HandleTempChatDisconnect(UntrackUser(st, userId), sessionId.value, userType.value)
    ensures !(Truthy(sessionId) && Truthy(userType)) ==> r == UntrackUser(st, userId)
    ensures st.outbox <= r.outbox
    ensures TableEvolves(st.sessions, r.sessions)
    ensures Inv(st) ==> Inv(r)
  {
    var st1 := UntrackUser(st, userId);
    if Truthy(sessionId) && Truthy(userType)
    then HandleTempChatDisconnect(st1, sessionId.value, userType.value)
    else st1
  }
}
