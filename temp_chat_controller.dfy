/** The HTTP handlers of the temporary-chat controller. Each loads a record,
    changes it in memory, saves it, and may emit through the socket server;
    each is proved to make exactly the transition `TempChatSpec` describes. */
module TempChatController {
  import opened Wrappers
  import opened JsText
  import opened TempChatSessionModel
  import opened TempMessageModel
  import opened Coordinator
  import opened Store
  import opened Socket
  import TempChatSpec

  method CreateTempChat(db: Database, io: SocketServer, creatorName: Option<string>, freshId: string,
                        frontendUrl: Option<string>, now: int)
    returns (r: Result<TempChatSpec.CreatedReply, TempChatSpec.ApiError>)
    modifies db
    ensures (r, Snapshot(db, io)) ==
      TempChatSpec.CreateTempChat(old(Snapshot(db, io)), creatorName, freshId, frontendUrl, now)
  {
    if creatorName.None? || Trim(creatorName.value) == "" {
      return Failure(TempChatSpec.CreatorNameRequired);
    }
    var sessionId := freshId;
    var session := NewSession(sessionId, Trim(creatorName.value), now);
    var inserted := db.InsertSession(session);
    if !inserted {
      return Failure(TempChatSpec.InternalServerError);
    }
    var base := if Truthy(frontendUrl) then frontendUrl.value else TempChatSpec.DefaultFrontendUrl;
    r := Success(TempChatSpec.CreatedReply(sessionId, base + "/join/" + sessionId, Trim(creatorName.value)));
  }

  method JoinTempChat(db: Database, io: SocketServer, sessionId: string, participantName: Option<string>, now: int)
    returns (r: Result<TempChatSpec.JoinedReply, TempChatSpec.ApiError>)
    modifies db
    ensures (r, Snapshot(db, io)) ==
      TempChatSpec.JoinTempChat(old(Snapshot(db, io)), sessionId, participantName, now)
  {
    if participantName.None? || Trim(participantName.value) == "" {
      return Failure(TempChatSpec.ParticipantNameRequired);
    }
    var found := db.FindOneLive(sessionId, now);
    if found.None? {
      return Failure(TempChatSpec.NotFoundOrExpired);
    }
    var session := found.value;
    session := session.(participantName := Some(Trim(participantName.value)));
    db.SaveSession(sessionId, session);
    r := Success(TempChatSpec.JoinedReply(sessionId, session.creatorName, Trim(participantName.value)));
  }

  method GetTempChatSession(db: Database, sessionId: string, now: int)
    returns (r: Result<TempChatSpec.SessionInfo, TempChatSpec.ApiError>)
    ensures r == TempChatSpec.GetTempChatSession(db.sessions, sessionId, now)
  {
    var found := db.FindOneLive(sessionId, now);
    if found.None? {
      return Failure(TempChatSpec.NotFoundOrExpired);
    }
    var session := found.value;
    r := Success(TempChatSpec.SessionInfo(session.sessionId, session.creatorName, session.participantName,
                                          session.isActive, session.createdAt));
  }

  method GetTempMessages(db: Database, sessionId: string, now: int)
    returns (r: Result<seq<Message>, TempChatSpec.ApiError>)
    ensures r == TempChatSpec.GetTempMessages(db.sessions, db.messages, sessionId, now)
  {
    var found := db.FindOneLive(sessionId, now);
    if found.None? {
      return Failure(TempChatSpec.NotFoundOrExpired);
    }
    var messages := db.FindMessagesSorted(sessionId);
    r := Success(messages);
  }

  method SendTempMessage(db: Database, io: SocketServer, sessionId: string, text: Option<string>,
                         image: Option<string>, senderName: Option<string>, senderType: Option<string>, now: int)
    returns (r: Result<Message, TempChatSpec.ApiError>)
    modifies db, io`outbox
    ensures (r, Snapshot(db, io)) ==
      TempChatSpec.SendTempMessage(old(Snapshot(db, io)), sessionId, text, image, senderName, senderType, now)
  {
    ghost var st := Snapshot(db, io);
    var found := db.FindOneLive(sessionId, now);
    if found.None? {
      return Failure(TempChatSpec.NotFoundOrExpired);
    }
    var session := found.value;
    if !Truthy(text) && !Truthy(image) {
      return Failure(TempChatSpec.EmptyMessage);
    }
    if !Truthy(senderName) || !Truthy(senderType) {
      return Failure(TempChatSpec.SenderInfoRequired);
    }
    var role := ParseRole(senderType.value);
    if role.None? {
      // The enum validator rejects the document on save().
      return Failure(TempChatSpec.InternalServerError);
    }
    var message := Message(sessionId, senderName.value, role.value, text, image, now);
    db.InsertMessage(message);
    var receiverSocketId :=
      if senderType.value == "creator" then session.participantSocketId else session.creatorSocketId;
    if Truthy(receiverSocketId) {
      io.Emit(ToSocket(receiverSocketId.value), NewTempMessage(message));
    }
    assert io.outbox == st.outbox + DeliverTo(receiverSocketId, NewTempMessage(message));
    r := Success(message);
  }

  method LeaveTempChat(db: Database, io: SocketServer, sessionId: string, userType: Option<string>)
    returns (r: Result<string, TempChatSpec.ApiError>)
    modifies db, io`outbox
    ensures (r, Snapshot(db, io)) == TempChatSpec.LeaveTempChat(old(Snapshot(db, io)), sessionId, userType)
  {
    ghost var st := Snapshot(db, io);
    var found := db.FindOne(sessionId);
    if found.None? {
      return Failure(TempChatSpec.SessionNotFound);
    }
    var session := found.value;
    session := session.(isActive := false);
    db.SaveSession(sessionId, session);
    db.DeleteMany(sessionId);
    var otherSocketId :=
      if userType == Some("creator") then session.participantSocketId else session.creatorSocketId;
    if Truthy(otherSocketId) {
      io.Emit(ToSocket(otherSocketId.value), ChatSessionEnded(sessionId));
    }
    assert io.outbox == st.outbox + DeliverTo(otherSocketId, ChatSessionEnded(sessionId));
    r := Success(TempChatSpec.LeftMessage);
  }

  method UpdateSocketId(db: Database, io: SocketServer, sessionId: string, socketId: Option<string>,
                        userType: Option<string>, now: int)
    returns (r: Result<string, TempChatSpec.ApiError>)
    modifies db
    ensures (r, Snapshot(db, io)) ==
      TempChatSpec.UpdateSocketId(old(Snapshot(db, io)), sessionId, socketId, userType, now)
  {
    var found := db.FindOneLive(sessionId, now);
    if found.None? {
      return Failure(TempChatSpec.NotFoundOrExpired);
    }
    var session := found.value;
    if userType == Some("creator") {
      session := session.(creatorSocketId := socketId);
    } else if userType == Some("participant") {
      session := session.(participantSocketId := socketId);
    }
    db.SaveSession(sessionId, session);
    r := Success(TempChatSpec.SocketIdUpdated);
  }
}
