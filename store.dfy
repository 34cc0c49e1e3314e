/** The two MongoDB collections as one object whose fields the handlers'
    queries and saves update in place. Each method is one database call,
    taken as atomic. */
module Store {
  import opened Wrappers
  import opened TempChatSessionModel
  import opened TempMessageModel

  class Database {
    var sessions: map<string, Session>
    var messages: seq<Message>

    constructor ()
      ensures sessions == map[] && messages == []
    {
      sessions := map[];
      messages := [];
    }

    /** `TempChatSession.findOne({ sessionId })`. */
    function FindOne(sessionId: string): (r: Option<Session>)
      reads this
      ensures r.Some? <==> sessionId in sessions
      ensures r.Some? ==> r.value == sessions[sessionId]
    {
      if sessionId in sessions then Some(sessions[sessionId]) else None
    }

    /** `TempChatSession.findOne({ sessionId, isActive: true, expiresAt: { $gt: now } })`. */
    function FindOneLive(sessionId: string, now: int): (r: Option<Session>)
      reads this
      ensures r.Some? <==> LiveIn(sessions, sessionId, now)
      ensures r.Some? ==> r.value == sessions[sessionId]
    {
      if LiveIn(sessions, sessionId, now) then Some(sessions[sessionId]) else None
    }

    /** `save()` of a new record; the unique index on `sessionId` refuses a
        second record under the same id. */
    method InsertSession(s: Session) returns (inserted: bool)
      modifies this`sessions
      ensures inserted <==> s.sessionId !in old(sessions)
      ensures sessions == if inserted then old(sessions)[s.sessionId := s] else old(sessions)
    {
      inserted := s.sessionId !in sessions;
      if inserted {
        sessions := sessions[s.sessionId := s];
      }
    }

    /** `save()` of the record loaded earlier under `sessionId`, changed in memory. */
    method SaveSession(sessionId: string, s: Session)
      requires sessionId in sessions
      modifies this`sessions
      ensures sessions == old(sessions)[sessionId := s]
    {
      sessions := sessions[sessionId := s];
    }

    /** `findOneAndUpdate({ sessionId }, { isActive: false })`. */
    method Deactivate(sessionId: string)
      modifies this`sessions
      ensures sessionId in old(sessions) ==>
        sessions == old(sessions)[sessionId := old(sessions)[sessionId].(isActive := false)]
      ensures sessionId !in old(sessions) ==> sessions == old(sessions)
    {
      if sessionId in sessions {
        sessions := sessions[sessionId := sessions[sessionId].(isActive := false)];
      }
    }

    /** `save()` of a new message. */
    method InsertMessage(m: Message)
      modifies this`messages
      ensures messages == old(messages) + [m]
    {
      messages := messages + [m];
    }

    /** `TempMessage.deleteMany({ sessionId })`. */
    method DeleteMany(sessionId: string)
      modifies this`messages
      ensures messages == Purge(old(messages), sessionId)
    {
      messages := Purge(messages, sessionId);
    }

    /** `TempMessage.find({ sessionId }).sort({ timestamp: 1 })`. */
    method FindMessagesSorted(sessionId: string) returns (found: seq<Message>)
      ensures found == SortByTimestamp(MessagesOf(messages, sessionId))
    {
      found := SortByTimestamp(MessagesOf(messages, sessionId));
    }

    /** One pass of the session collection's TTL monitor. */
    method ReapExpiredSessions(now: int)
      modifies this`sessions
      ensures sessions == ReapSessions(old(sessions), now)
    {
      sessions := ReapSessions(sessions, now);
    }

    /** One pass of the message collection's TTL monitor. */
    method ReapExpiredMessages(now: int)
      modifies this`messages
      ensures messages == ReapMessages(old(messages), now)
    {
      messages := ReapMessages(messages, now);
    }
  }
}
