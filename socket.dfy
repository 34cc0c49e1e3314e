/** The socket server: its two module-level registries, updated in place by
    the connection and disconnection handlers, and the emissions it makes.
    The database is the `Database` object the handlers query and save. */
module Socket {
  import opened Wrappers
  import opened JsText
  import opened TempChatSessionModel
  import opened TempMessageModel
  import opened Coordinator
  import opened Store
  import SocketSpec

  class SocketServer {
    var userSocketMap: map<string, string>                       // userId -> socket id
    var tempChatSocketMap: map<string, map<string, string>>      // sessionId -> userType -> socket id
    var outbox: seq<Emission>                                    // every emit, oldest first

    constructor ()
      ensures userSocketMap == map[] && tempChatSocketMap == map[] && outbox == []
    {
      userSocketMap := map[];
      tempChatSocketMap := map[];
      outbox := [];
    }

    /** `getReceiverSocketId(userId)`: a plain lookup in `userSocketMap`. */
    function GetReceiverSocketId(userId: string): (r: Option<string>)
      reads this
      ensures r.Some? <==> userId in userSocketMap
      ensures r.Some? ==> r.value == userSocketMap[userId]
    {
      SocketSpec.ReceiverSocketId(userSocketMap, userId)
    }

    /** `emit`: the event is recorded as sent to `target`. */
    method Emit(target: Target, event: Event)
      modifies this`outbox
      ensures outbox == old(outbox) + [Emission(target, event)]
    {
      outbox := outbox + [Emission(target, event)];
    }

    method HandleTempChatConnection(db: Database, socketId: string, sessionId: string, userType: string, now: int)
      modifies this, db
      ensures Snapshot(db, this) ==
        SocketSpec.HandleTempChatConnection(old(Snapshot(db, this)), socketId, sessionId, userType, now)
    {
      var found := db.FindOneLive(sessionId, now);
      if found.None? {
        Emit(ToSocket(socketId), ConnectionError(SocketSpec.SessionUnavailable));
        return;
      }
      AttachSocket(db, socketId, sessionId, userType);
    }

    /** The live-session branch of the connection handler. */
    method AttachSocket(db: Database, socketId: string, sessionId: string, userType: string)
      requires sessionId in db.sessions
      modifies this, db
      ensures Snapshot(db, this) ==
        SocketSpec.AttachSocket(old(Snapshot(db, this)), socketId, sessionId, userType)
    {
      ghost var st := Snapshot(db, this);
      AddHandle(sessionId, userType, socketId);
      var session := db.sessions[sessionId];
      if userType == "creator" {
        session := session.(creatorSocketId := Some(socketId));
      } else if userType == "participant" {
        session := session.(participantSocketId := Some(socketId));
      }
      assert session == CacheSocket(st.sessions[sessionId], userType, Some(socketId));
      db.SaveSession(sessionId, session);
      // socket.join(sessionId): room membership is not modelled.
      var userName := if userType == "creator" then Some(session.creatorName) else session.participantName;
      Emit(ToRoomExcept(sessionId, socketId), UserJoined(userType, userName));
      var otherUserConnected :=
        if userType == "creator" then Truthy(session.participantSocketId) else Truthy(session.creatorSocketId);
      assert otherUserConnected == Truthy(CounterpartSocketId(session, userType));
      Emit(ToSocket(socketId), ConnectedToTempChat(sessionId, userType, otherUserConnected));
      assert Snapshot(db, this) == SocketSpec.AttachSocket(st, socketId, sessionId, userType);
    }

    /** `tempChatSocketMap[sessionId] ||= {}; tempChatSocketMap[sessionId][userType] = socketId`. */
    method AddHandle(sessionId: string, userType: string, socketId: string)
      modifies this`tempChatSocketMap
      ensures tempChatSocketMap ==
        old(tempChatSocketMap)[sessionId := SocketSpec.EntryOf(old(tempChatSocketMap), sessionId)[userType := socketId]]
    {
      if sessionId !in tempChatSocketMap {
        tempChatSocketMap := tempChatSocketMap[sessionId := map[]];
      }
      tempChatSocketMap := tempChatSocketMap[sessionId := tempChatSocketMap[sessionId][userType := socketId]];
    }

    method HandleTempChatDisconnect(db: Database, sessionId: string, userType: string)
      modifies this, db
      ensures Snapshot(db, this) ==
        SocketSpec.HandleTempChatDisconnect(old(Snapshot(db, this)), sessionId, userType)
    {
      DetachFromRegistry(db, sessionId, userType);
      ghost var st1 := Snapshot(db, this);
      var found := db.FindOne(sessionId);
      if found.Some? {
        var session := found.value;
        if userType == "creator" {
          session := session.(creatorSocketId := None);
        } else if userType == "participant" {
          session := session.(participantSocketId := None);
        }
        assert session == CacheSocket(st1.sessions[sessionId], userType, None);
        db.SaveSession(sessionId, session);
        Emit(ToRoom(sessionId), UserDisconnected(userType));
      }
    }

    /** The registry half of the disconnect handler, with the teardown it
        triggers when the session is left without keys. */
    method DetachFromRegistry(db: Database, sessionId: string, userType: string)
      modifies this`tempChatSocketMap, db
      ensures Snapshot(db, this) ==
        SocketSpec.DetachFromRegistry(old(Snapshot(db, this)), sessionId, userType)
    {
      if sessionId in tempChatSocketMap {
        var empty := RemoveHandle(sessionId, userType);
        if empty {
          db.Deactivate(sessionId);
          db.DeleteMany(sessionId);
        }
      }
    }

    /** `delete tempChatSocketMap[sessionId][userType]`, then the entry itself
        when no key is left; the answer says whether it was. */
    method RemoveHandle(sessionId: string, userType: string) returns (empty: bool)
      requires sessionId in tempChatSocketMap
      modifies this`tempChatSocketMap
      ensures (tempChatSocketMap, empty) == SocketSpec.Unregister(old(tempChatSocketMap), sessionId, userType)
    {
      var entry := tempChatSocketMap[sessionId] - {userType};
      empty := |entry| == 0;
      if empty {
        tempChatSocketMap := tempChatSocketMap - {sessionId};
      } else {
        tempChatSocketMap := tempChatSocketMap[sessionId := entry];
      }
    }

    /** The `connection` event. */
    method OnConnection(db: Database, socketId: string, userId: Option<string>, sessionId: Option<string>,
                        userType: Option<string>, now: int)
      modifies this, db
      ensures Snapshot(db, this) ==
        SocketSpec.OnConnection(old(Snapshot(db, this)), socketId, userId, sessionId, userType, now)
    {
      if Truthy(userId) {
        userSocketMap := userSocketMap[userId.value := socketId];
        Emit(Everyone, OnlineUsers(userSocketMap.Keys));
      }
      if Truthy(sessionId) && Truthy(userType) {
        HandleTempChatConnection(db, socketId, sessionId.value, userType.value, now);
      }
    }

    /** The `disconnect` event of a connection with the given handshake values. */
    method OnDisconnect(db: Database, userId: Option<string>, sessionId: Option<string>, userType: Option<string>)
      modifies this, db
      ensures Snapshot(db, this) ==
        SocketSpec.OnDisconnect(old(Snapshot(db, this)), userId, sessionId, userType)
    {
      if Truthy(userId) {
        userSocketMap := userSocketMap - {userId.value};
        Emit(Everyone, OnlineUsers(userSocketMap.Keys));
      }
      if Truthy(sessionId) && Truthy(userType) {
        HandleTempChatDisconnect(db, sessionId.value, userType.value);
      }
    }
  }

  /** The coordinator's state held by the database and the socket server. */
  function Snapshot(db: Database, io: SocketServer): World
    reads db, io
  {
    World(db.sessions, db.messages, io.tempChatSocketMap, io.userSocketMap, io.outbox)
  }
}
