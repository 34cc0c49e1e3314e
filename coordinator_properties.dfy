/** Properties of whole runs of the coordinator: any sequence of requests,
    socket events and TTL passes, each one atomic, applied in order. */
module CoordinatorProperties {
  import opened Wrappers
  import opened TempChatSessionModel
  import opened TempMessageModel
  import opened Coordinator
  import TempChatSpec
  import SocketSpec

  /** One request or event, with every input the environment supplies: the
      fresh id `uuidv4()` would draw, the clock reading, the socket id, the
      handshake query. */
  datatype Op =
    | Create(creatorName: Option<string>, freshId: string, frontendUrl: Option<string>, now: int)
    | Join(sessionId: string, participantName: Option<string>, now: int)
    | GetSession(sessionId: string, now: int)
    | GetMessages(sessionId: string, now: int)
    | Send(sessionId: string, text: Option<string>, image: Option<string>,
           senderName: Option<string>, senderType: Option<string>, now: int)
    | Leave(sessionId: string, userType: Option<string>)
    | UpdateSocket(sessionId: string, newSocketId: Option<string>, userType: Option<string>, now: int)
    | Connect(socketId: string, userId: Option<string>, query: Option<string>, userType: Option<string>, now: int)
    | Disconnect(userId: Option<string>, query: Option<string>, userType: Option<string>)
    | ReapSessionsAt(now: int)
    | ReapMessagesAt(now: int)

  /** The state after one step. The two TTL monitors run independently of
      each other and of every handler. */
  function Step(st: World, op: Op): (r: World)
    ensures Inv(st) ==> Inv(r)
    ensures TableEvolves(st.sessions, r.sessions)
    ensures forall id :: id in r.sessions && !(op.Create? && id == op.freshId) ==> id in st.sessions
    ensures st.outbox <= r.outbox
  {
    match op
    case Create(name, id, url, now) => TempChatSpec.CreateTempChat(st, name, id, url, now).1
    case Join(id, name, now) => TempChatSpec.JoinTempChat(st, id, name, now).1
    case GetSession(_, _) => st
    case GetMessages(_, _) => st
    case Send(id, text, image, name, role, now) => TempChatSpec.SendTempMessage(st, id, text, image, name, role, now).1
    case Leave(id, role) => TempChatSpec.LeaveTempChat(st, id, role).1
    case UpdateSocket(id, socketId, role, now) => TempChatSpec.UpdateSocketId(st, id, socketId, role, now).1
    case Connect(socketId, userId, query, role, now) => SocketSpec.OnConnection(st, socketId, userId, query, role, now)
    case Disconnect(userId, query, role) => SocketSpec.OnDisconnect(st, userId, query, role)
    case ReapSessionsAt(now) => st.(sessions := ReapSessions(st.sessions, now))
    case ReapMessagesAt(now) => st.(messages := ReapMessages(st.messages, now))
  }

  /** The state after a whole run, one step at a time. */
  function Run(st: World, ops: seq<Op>): World
    decreases |ops|
  {
    if ops == [] then st else Step(Run(st, ops[..|ops| - 1]), ops[|ops| - 1])
  }

  /** Every id a run creates is fresh with respect to the starting table, as a
      random version-4 uuid is. */
  predicate FreshIdsOnly(st: World, ops: seq<Op>)
  {
    forall i :: 0 <= i < |ops| && ops[i].Create? ==> ops[i].freshId !in st.sessions
  }

  /** The invariant holds after every run from a state that has it. */
  lemma {:induction false} RunPreservesInv(st: World, ops: seq<Op>)
    requires Inv(st)
    ensures Inv(Run(st, ops))
    decreases |ops|
  {
    if ops != [] {
      RunPreservesInv(st, ops[..|ops| - 1]);
    }
  }

  /** Every state reachable from the empty one keeps the invariant. */
  lemma ReachableStatesKeepInv(ops: seq<Op>)
    ensures Inv(Run(Initial(), ops))
  {
    RunPreservesInv(Initial(), ops);
  }

  /** Across a run, a record that was there at the start and is still there
      at the end kept its id, creator, creation time and expiry, and was never
      made active again. */
  lemma {:induction false} RunNeverReactivates(st: World, ops: seq<Op>)
    requires FreshIdsOnly(st, ops)
    ensures TableEvolves(st.sessions, Run(st, ops).sessions)
    decreases |ops|
  {
    if ops != [] {
      var init := ops[..|ops| - 1];
      var last := ops[|ops| - 1];
      assert FreshIdsOnly(st, init) by {
        forall i | 0 <= i < |init| && init[i].Create?
          ensures init[i].freshId !in st.sessions
        {
          assert init[i] == ops[i];
        }
      }
      RunNeverReactivates(st, init);
      var mid := Run(st, init);
      var end := Step(mid, last);
      forall id | id in st.sessions && id in end.sessions
        ensures Succeeds(st.sessions[id], end.sessions[id])
      {
        assert !(last.Create? && id == last.freshId);
        assert id in mid.sessions;
        SucceedsTransitive(st.sessions[id], mid.sessions[id], end.sessions[id]);
      }
    }
  }

  /** A session that has ended, or whose time is up, is never live again,
      whatever follows and however late: no handler (join, send,
      update-socket, connect) will accept it. */
  lemma EndedSessionsStayEnded(st: World, ops: seq<Op>, sessionId: string, now: int, later: int)
    requires FreshIdsOnly(st, ops)
    requires sessionId in st.sessions
    requires !st.sessions[sessionId].isActive || st.sessions[sessionId].expiresAt <= now
    requires now <= later
    ensures !LiveIn(Run(st, ops).sessions, sessionId, later)
  {
    var end := Run(st, ops).sessions;
    RunNeverReactivates(st, ops);
    if sessionId in end {
      NotLiveStaysNotLive(st.sessions[sessionId], end[sessionId], now, later);
    }
  }

  /** Emissions are only ever appended. */
  lemma {:induction false} RunOutboxGrows(st: World, ops: seq<Op>)
    ensures st.outbox <= Run(st, ops).outbox
    decreases |ops|
  {
    if ops != [] {
      RunOutboxGrows(st, ops[..|ops| - 1]);
    }
  }

  /** A second leave of a session that has already ended succeeds and changes
      nothing but the outbox (it tells the other role's cached socket again). */
  lemma LeaveEndedSessionChangesNothing(st: World, sessionId: string, userType: Option<string>)
    requires Inv(st)
    requires sessionId in st.sessions && !st.sessions[sessionId].isActive
    ensures var out := TempChatSpec.LeaveTempChat(st, sessionId, userType);
      out.0.Success? && out.1.(outbox := st.outbox) == st
  {
    PurgeWithoutMessages(st.messages, sessionId);
    assert st.sessions[sessionId := st.sessions[sessionId].(isActive := false)] == st.sessions;
  }

  /** Leaving twice is leaving once, apart from the repeated notice. */
  lemma LeaveTwice(st: World, sessionId: string, first: Option<string>, second: Option<string>)
    requires Inv(st) && sessionId in st.sessions
    ensures var once := TempChatSpec.LeaveTempChat(st, sessionId, first).1;
      var twice := TempChatSpec.LeaveTempChat(once, sessionId, second);
      twice.0.Success? && twice.1.(outbox := once.outbox) == once
  {
    var once := TempChatSpec.LeaveTempChat(st, sessionId, first).1;
    LeaveEndedSessionChangesNothing(once, sessionId, second);
  }

  /** After a leave, a disconnect on the ended session, last role or not,
      deletes no message and changes no record's activity: teardown happens
      once. */
  lemma DisconnectAfterEndDeletesNothing(st: World, sessionId: string, userType: string)
    requires Inv(st)
    requires sessionId in st.sessions && !st.sessions[sessionId].isActive
    ensures var r := SocketSpec.HandleTempChatDisconnect(st, sessionId, userType);
      && r.messages == st.messages
      && forall id :: id in st.sessions ==> r.sessions[id].isActive == st.sessions[id].isActive
  {
    PurgeWithoutMessages(st.messages, sessionId);
  }

  /** The other order: once the last role's disconnect has torn the session
      down, a leave changes nothing but the outbox. */
  lemma LeaveAfterLastDisconnectChangesNothing(st: World, sessionId: string, userType: string,
                                               leaver: Option<string>)
    requires Inv(st) && sessionId in st.sessions
    requires sessionId in st.tempChatSocketMap && st.tempChatSocketMap[sessionId].Keys <= {userType}
    ensures var down := SocketSpec.HandleTempChatDisconnect(st, sessionId, userType);
      var out := TempChatSpec.LeaveTempChat(down, sessionId, leaver);
      out.0.Success? && out.1.(outbox := down.outbox) == down
  {
    var down := SocketSpec.HandleTempChatDisconnect(st, sessionId, userType);
    LeaveEndedSessionChangesNothing(down, sessionId, leaver);
  }

  /** Two connections of the same role to a live session with no registry
      entry leave one handle, the newer socket's, and the session live. */
  lemma ReconnectReplacesHandle(st: World, sessionId: string, oldSocket: string, newSocket: string,
                                userType: string, now: int)
    requires LiveIn(st.sessions, sessionId, now)
    requires sessionId !in st.tempChatSocketMap
    ensures var s1 := SocketSpec.HandleTempChatConnection(st, oldSocket, sessionId, userType, now);
      var s2 := SocketSpec.HandleTempChatConnection(s1, newSocket, sessionId, userType, now);
      && sessionId in s2.sessions
      && sessionId in s2.tempChatSocketMap
      && s2.tempChatSocketMap[sessionId] == map[userType := newSocket]
  {
    var s1 := SocketSpec.HandleTempChatConnection(st, oldSocket, sessionId, userType, now);
    assert s1.tempChatSocketMap[sessionId] == map[userType := oldSocket];
    assert LiveIn(s1.sessions, sessionId, now);
    var s2 := SocketSpec.HandleTempChatConnection(s1, newSocket, sessionId, userType, now);
    assert s2.tempChatSocketMap[sessionId] == map[userType := newSocket];
  }

  /** The registry is keyed by role, not by socket: when a role reconnects on
      a new socket before its old socket's disconnect arrives, that late
      disconnect removes the new handle and, if no other role is connected,
      ends the session although the new socket is still open. */
  lemma SupersededSocketEndsSession(st: World, sessionId: string, oldSocket: string, newSocket: string,
                                    userType: string, now: int)
    requires LiveIn(st.sessions, sessionId, now)
    requires sessionId !in st.tempChatSocketMap
    ensures var s1 := SocketSpec.HandleTempChatConnection(st, oldSocket, sessionId, userType, now);
      var s2 := SocketSpec.HandleTempChatConnection(s1, newSocket, sessionId, userType, now);
      var s3 := SocketSpec.HandleTempChatDisconnect(s2, sessionId, userType);
      && s2.tempChatSocketMap[sessionId] == map[userType := newSocket]
      && sessionId !in s3.tempChatSocketMap
      && !s3.sessions[sessionId].isActive
      && NoMessagesOf(s3.messages, sessionId)
  {
    ReconnectReplacesHandle(st, sessionId, oldSocket, newSocket, userType, now);
    var s1 := SocketSpec.HandleTempChatConnection(st, oldSocket, sessionId, userType, now);
    var s2 := SocketSpec.HandleTempChatConnection(s1, newSocket, sessionId, userType, now);
    assert s2.tempChatSocketMap[sessionId].Keys <= {userType};
  }

  /** A message that is sent is listed by the next list-messages call at the
      same time, whether or not it was delivered live. */
  lemma SentMessageIsListed(st: World, sessionId: string, text: Option<string>, image: Option<string>,
                            senderName: Option<string>, senderType: Option<string>, now: int)
    ensures var out := TempChatSpec.SendTempMessage(st, sessionId, text, image, senderName, senderType, now);
      out.0.Success? ==>
        var listed := TempChatSpec.GetTempMessages(out.1.sessions, out.1.messages, sessionId, now);
        listed.Success? && out.0.value in listed.value
  {
  }

  /** The two TTL monitors are independent: reaping sessions leaves every
      message in the log, including those of the sessions it removed. */
  lemma SessionReapOrphansMessages(st: World, now: int)
    ensures var r := Step(st, ReapSessionsAt(now));
      && r.messages == st.messages
      && forall m :: (m in st.messages && m.sessionId in st.sessions &&
                      st.sessions[m.sessionId].expiresAt <= now) ==> m.sessionId !in r.sessions
  {
  }
}
