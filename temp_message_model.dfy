/** The `TempMessage` collection: the message log of all sessions, the role
    enum, the natural-order filters the handlers apply to it, and the TTL
    index that deletes each message 24 hours after its own timestamp. */
module TempMessageModel {
  import opened Wrappers
  import opened JsText

  /** `senderType`: `enum: ["creator", "participant"]`. */
  datatype Role = Creator | Participant

  function RoleName(role: Role): (name: string)
    ensures ParseRole(name) == Some(role)
  {
    match role
    case Creator => "creator"
    case Participant => "participant"
  }

  /** The enum validator: a string names a role only if it is one of the two
      enum values. */
  function ParseRole(name: string): (r: Option<Role>)
    ensures r == Some(Creator) <==> name == "creator"
    ensures r == Some(Participant) <==> name == "participant"
  {
    if name == "creator" then Some(Creator)
    else if name == "participant" then Some(Participant)
    else None
  }

  /** The role at the other end of a two-party session. */
  function Other(role: Role): (r: Role)
    ensures r != role
  {
    match role
    case Creator => Participant
    case Participant => Creator
  }

  /** `expireAfterSeconds: 86400` on `timestamp`, in milliseconds. */
  const MessageLifetimeMs: int := 86400 * 1000

  /** A stored message. `sessionId` refers to a session by value only: nothing
      checks that such a session exists. */
  datatype Message = Message(
    sessionId: string,      // required
    senderName: string,     // required
    senderType: Role,       // required, enum
    text: Option<string>,
    image: Option<string>,  // an opaque image reference
    timestamp: int)         // default Date.now

  /** What the send path guarantees of every stored message: a sender name
      and at least one of text and image. */
  predicate WellFormedMessage(m: Message)
  {
    m.senderName != "" && (Truthy(m.text) || Truthy(m.image))
  }

  /** `find({ sessionId })`: the messages of one session, in log order. */
  function MessagesOf(log: seq<Message>, sessionId: string): (r: seq<Message>)
    ensures forall m :: m in r <==> m in log && m.sessionId == sessionId
    ensures |r| <= |log|
  {
    if log == [] then []
    else if log[0].sessionId == sessionId then [log[0]] + MessagesOf(log[1..], sessionId)
    else MessagesOf(log[1..], sessionId)
  }

  /** `deleteMany({ sessionId })`: what is left of the log. */
  function Purge(log: seq<Message>, sessionId: string): (r: seq<Message>)
    ensures forall m :: m in r <==> m in log && m.sessionId != sessionId
    ensures |r| <= |log|
  {
    if log == [] then []
    else if log[0].sessionId == sessionId then Purge(log[1..], sessionId)
    else [log[0]] + Purge(log[1..], sessionId)
  }

  /** No message of the log belongs to `sessionId`. */
  predicate NoMessagesOf(log: seq<Message>, sessionId: string)
  {
    forall m :: m in log ==> m.sessionId != sessionId
  }

  /** Deleting the messages of a session that has none deletes nothing. */
  lemma {:induction false} PurgeWithoutMessages(log: seq<Message>, sessionId: string)
    requires NoMessagesOf(log, sessionId)
    ensures Purge(log, sessionId) == log
  {
    if log != [] {
      assert log[0] in log;
      PurgeWithoutMessages(log[1..], sessionId);
    }
  }

  /** Deleting one session's messages leaves every other session's messages,
      in the same order. */
  lemma {:induction false} PurgeKeepsOtherSessions(log: seq<Message>, sessionId: string, other: string)
    requires other != sessionId
    ensures MessagesOf(Purge(log, sessionId), other) == MessagesOf(log, other)
  {
    if log != [] {
      PurgeKeepsOtherSessions(log[1..], sessionId, other);
    }
  }

  /** The messages of a session, then the rest: deleting one session's
      messages removes exactly as many messages as it has. */
  lemma {:induction false} PurgeRemovesExactlyItsMessages(log: seq<Message>, sessionId: string)
    ensures |Purge(log, sessionId)| + |MessagesOf(log, sessionId)| == |log|
    ensures multiset(Purge(log, sessionId)) + multiset(MessagesOf(log, sessionId)) == multiset(log)
  {
    if log != [] {
      PurgeRemovesExactlyItsMessages(log[1..], sessionId);
      assert log == [log[0]] + log[1..];
    }
  }

  /** One pass of the TTL monitor on `timestamp`: a message goes once 24
      hours have passed since its own timestamp, whatever its session. */
  function ReapMessages(log: seq<Message>, now: int): (r: seq<Message>)
    ensures forall m :: m in r <==> m in log && now < m.timestamp + MessageLifetimeMs
    ensures forall m :: multiset(r)[m] == if now < m.timestamp + MessageLifetimeMs then multiset(log)[m] else 0
    ensures |r| <= |log|
  {
    if log == [] then []
    else
      assert log == [log[0]] + log[1..];
      if now < log[0].timestamp + MessageLifetimeMs then [log[0]] + ReapMessages(log[1..], now)
      else ReapMessages(log[1..], now)
  }

  predicate SortedByTimestamp(s: seq<Message>)
  {
    forall i, j :: 0 <= i < j < |s| ==> s[i].timestamp <= s[j].timestamp
  }

  /** Inserts `m` into an ascending sequence, after the messages with an
      equal timestamp. */
  function InsertByTimestamp(m: Message, s: seq<Message>): (r: seq<Message>)
    requires SortedByTimestamp(s)
    ensures SortedByTimestamp(r)
    ensures multiset(r) == multiset(s) + multiset{m}
  {
    if s == [] then [m]
    else if m.timestamp < s[0].timestamp then [m] + s
    else
      var rest := InsertByTimestamp(m, s[1..]);
      assert s == [s[0]] + s[1..];
      assert rest[0] in multiset(rest);
      [s[0]] + rest
  }

  /** `.sort({ timestamp: 1 })`: the same messages in ascending timestamp order. */
  function SortByTimestamp(s: seq<Message>): (r: seq<Message>)
    ensures SortedByTimestamp(r)
    ensures multiset(r) == multiset(s)
  {
    if s == [] then []
    else
      assert s == [s[0]] + s[1..];
      InsertByTimestamp(s[0], SortByTimestamp(s[1..]))
  }
}
