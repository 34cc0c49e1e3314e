/** The `TempChatSession` collection: one record per ephemeral two-party
    chat, its schema defaults, the liveness test every read applies, and the
    TTL index that deletes records whose `expiresAt` has passed. Times are
    milliseconds since the epoch, as `Date.now()` returns them. */
module TempChatSessionModel {
  import opened Wrappers

  /** 24 hours, the lifetime every session receives at creation. */
  const SessionLifetimeMs: int := 24 * 60 * 60 * 1000

  datatype Session = Session(
    sessionId: string,                  // unique, the only external reference
    creatorName: string,                // required
    creatorSocketId: Option<string>,    // cached live-connection id, default null
    participantName: Option<string>,    // default null until someone joins
    participantSocketId: Option<string>,
    isActive: bool,                     // default true
    createdAt: int,                     // default Date.now
    expiresAt: int)                     // default Date.now + 24h

  /** The record `new TempChatSession({ sessionId, creatorName })` saves at
      time `now`: every other field takes its schema default. The record is
      live for exactly the 24 hours that follow. */
  function NewSession(sessionId: string, creatorName: string, now: int): (s: Session)
    ensures s.sessionId == sessionId && s.creatorName == creatorName
    ensures s.isActive && s.participantName == None
    ensures s.creatorSocketId == None && s.participantSocketId == None
    ensures s.createdAt == now && s.expiresAt == now + 86_400_000
    ensures forall t :: now <= t < now + SessionLifetimeMs ==> IsLive(s, t)
    ensures !IsLive(s, now + SessionLifetimeMs)
  {
    Session(sessionId, creatorName, None, None, None, true, now, now + SessionLifetimeMs)
  }

  /** The filter `{ isActive: true, expiresAt: { $gt: now } }`. */
  predicate IsLive(s: Session, now: int)
  {
    s.isActive && now < s.expiresAt
  }

  /** `findOne({ sessionId, isActive: true, expiresAt: { $gt: now } })` finds a record. */
  predicate LiveIn(sessions: map<string, Session>, sessionId: string, now: int)
  {
    sessionId in sessions && IsLive(sessions[sessionId], now)
  }

  /** What the schema guarantees of every stored record: the required
      creator name is present, and the lifetime is the default 24 hours. */
  predicate WellFormed(s: Session)
  {
    s.creatorName != "" && s.expiresAt == s.createdAt + SessionLifetimeMs
  }

  /** `after` is a later version of the stored record `before`: identity,
      creator, creation time and expiry are never rewritten, and `isActive`
      only ever goes from true to false. */
  predicate Succeeds(before: Session, after: Session)
  {
    && after.sessionId == before.sessionId
    && after.creatorName == before.creatorName
    && after.createdAt == before.createdAt
    && after.expiresAt == before.expiresAt
    && (after.isActive ==> before.isActive)
  }

  /** Every record present in both tables evolved by `Succeeds`. */
  predicate TableEvolves(before: map<string, Session>, after: map<string, Session>)
  {
    forall id :: id in before && id in after ==> Succeeds(before[id], after[id])
  }

  /** One pass of the TTL monitor on `{ expiresAt: 1 }, { expireAfterSeconds: 0 }`:
      every record whose `expiresAt` is not after `now` disappears, active or
      not; every other record stays as it is. */
  function ReapSessions(sessions: map<string, Session>, now: int): (r: map<string, Session>)
    ensures forall id :: id in r <==> id in sessions && now < sessions[id].expiresAt
    ensures forall id :: id in r ==> r[id] == sessions[id]
    ensures forall id :: LiveIn(sessions, id, now) ==> LiveIn(r, id, now)
  {
    map id | id in sessions && now < sessions[id].expiresAt :: sessions[id]
  }

  /** A record that is not live, ended or expired, is not live in any later
      version of it at any later time: `Succeeds` never reactivates it and
      never moves its expiry. */
  lemma NotLiveStaysNotLive(before: Session, after: Session, now: int, later: int)
    requires Succeeds(before, after)
    requires !IsLive(before, now) && now <= later
    ensures !IsLive(after, later)
  {
  }

  /** `Succeeds` is a preorder, so versions of a record chain across a run. */
  lemma SucceedsTransitive(a: Session, b: Session, c: Session)
    requires Succeeds(a, b) && Succeeds(b, c)
    ensures Succeeds(a, c)
  {
  }
}
