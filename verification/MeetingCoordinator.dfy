/** The MeetingCoordinator durable object: one-time tickets, the publication log, session
  * revocation and the lease on a meeting's own API key. */
module MeetingCoordinator {
  import opened Basics

  const MEETING_API_KEY_LEASE_TTL_MS: int := 300_000

  // `rest` stands for the fields that are only stored and compared.
  datatype Claims = Claims(digest: Id, meetingId: Id, sessionId: Id, expiresAt: int, rest: Id)

  datatype Visibility = Shared | OwnerPrivate(owner: Id)

  datatype Publication = Publication(id: Id, sourcePosition: nat, visibility: Visibility, rest: Id)

  datatype Lease = Lease(participantId: Id, sessionId: Id, heartbeatAt: int, apiKey: Id)

  datatype State = State(
    meetingId: Option<Id>,
    tickets: map<Id, Claims>,
    revoked: set<Id>,
    publications: seq<Publication>,
    lease: Option<Lease>,
    expiryTimer: Option<int>)

  const EMPTY: State := State(None, map[], {}, [], None, None)

  // ----- Tickets -----

  predicate Binds(s: State, meetingId: Id) {
    s.meetingId.None? || s.meetingId.value == meetingId
  }

  function Bound(s: State, meetingId: Id): State {
    if s.meetingId.None? then s.(meetingId := Some(meetingId)) else s
  }

  datatype IssueReply = Issued | IssuedBefore | ScopeConflict | SessionRevoked | DigestConflict

  function IssueTicket(s: State, c: Claims): (IssueReply, State) {
    if !Binds(s, c.meetingId) then (ScopeConflict, s)
    else
      var b := Bound(s, c.meetingId);
      if c.sessionId in s.revoked then (SessionRevoked, b)
      else if c.digest in s.tickets then (if s.tickets[c.digest] == c then IssuedBefore else DigestConflict, b)
      else (Issued, b.(tickets := s.tickets[c.digest := c]))
  }

  /** A ticket is removed even when it turns out to be expired. */
  function ConsumeTicket(s: State, digest: Id, now: int): (Option<Claims>, State) {
    if digest !in s.tickets then (None, s)
    else
      var c := s.tickets[digest];
      (if c.expiresAt <= now || c.sessionId in s.revoked then None else Some(c), s.(tickets := s.tickets - {digest}))
  }

  // ----- Publications -----

  datatype PublishReply = Published(position: nat) | PublishedBefore(position: nat) | IdConflict | PositionConflict(actual: nat) | InvalidPublication

  function IndexOf(publications: seq<Publication>, id: Id): nat {
    if publications == [] || publications[0].id == id then 0 else 1 + IndexOf(publications[1..], id)
  }

  function LastPosition(publications: seq<Publication>): nat {
    if publications == [] then 0 else publications[|publications|-1].sourcePosition
  }

  function Publish(s: State, p: Publication): (PublishReply, State) {
    var at := IndexOf(s.publications, p.id);
    if p.sourcePosition == 0 then (InvalidPublication, s)
    else if at < |s.publications| then (if s.publications[at] == p then PublishedBefore(at + 1) else IdConflict, s)
    else if p.sourcePosition <= LastPosition(s.publications) then (PositionConflict(LastPosition(s.publications)), s)
    else (Published(|s.publications| + 1), s.(publications := s.publications + [p]))
  }

  // ----- Resuming -----

  predicate VisibleTo(p: Publication, audience: Option<Id>) {
    p.visibility.Shared? || audience == Some(p.visibility.owner)
  }

  function Visible(publications: seq<Publication>, audience: Option<Id>): seq<Publication> {
    if publications == [] then []
    else
      var before := Visible(publications[..|publications|-1], audience);
      var last := publications[|publications|-1];
      if VisibleTo(last, audience) then before + [last] else before
  }

  // A publication as a client receives it, without its visibility.
  datatype Delivery = Delivery(id: Id, sourcePosition: nat, rest: Id, visiblePosition: nat)

  datatype ResumeReply = ResumeReply(deliveries: seq<Delivery>, requiresSnapshot: bool, visiblePosition: nat)

  function Numbered(visible: seq<Publication>): seq<Delivery> {
    seq(|visible|, i requires 0 <= i < |visible| =>
      Delivery(visible[i].id, visible[i].sourcePosition, visible[i].rest, i + 1))
  }

  function Beyond(deliveries: seq<Delivery>, position: nat): seq<Delivery> {
    if deliveries == [] then []
    else if deliveries[0].visiblePosition > position then [deliveries[0]] + Beyond(deliveries[1..], position)
    else Beyond(deliveries[1..], position)
  }

  /** `audience` is None for a display. */
  function Resume(publications: seq<Publication>, after: nat, audience: Option<Id>): ResumeReply {
    var visible := Visible(publications, audience);
    ResumeReply(Beyond(Numbered(visible), after), after > |visible|, |visible|)
  }

  // ----- The lease -----

  function Deadline(lease: Lease): int {
    lease.heartbeatAt + MEETING_API_KEY_LEASE_TTL_MS
  }

  function WithoutLease(s: State): State {
    s.(lease := None, expiryTimer := None)
  }

  function WithLease(s: State, lease: Lease, now: int): State {
    s.(lease := Some(lease), expiryTimer := Some(if Deadline(lease) > now then Deadline(lease) else now))
  }

  /** An expired lease is dropped as soon as anybody looks. */
  function ActiveLease(s: State, now: int): State {
    if s.lease.Some? && now >= Deadline(s.lease.value) then WithoutLease(s) else s
  }

  predicate SameOwner(lease: Lease, participantId: Id, sessionId: Id) {
    lease.participantId == participantId && lease.sessionId == sessionId
  }

  datatype LeaseReply = Configured | Applied | Missing | OwnerMismatch | WrongMeeting

  function ConfigureByok(s: State, meetingId: Id, lease: Lease, now: int): (LeaseReply, State) {
    if !Binds(s, meetingId) then (WrongMeeting, s)
    else
      var current := ActiveLease(Bound(s, meetingId), now);
      if current.lease.Some? && !SameOwner(current.lease.value, lease.participantId, lease.sessionId)
      then (OwnerMismatch, current)
      else (Configured, WithLease(current, lease, now))
  }

  function FindByok(s: State, meetingId: Id, now: int): (Option<Lease>, State) {
    if !Binds(s, meetingId) then (None, s)
    else
      var current := ActiveLease(Bound(s, meetingId), now);
      (current.lease, current)
  }

  function HeartbeatByok(s: State, meetingId: Id, participantId: Id, sessionId: Id, heartbeatAt: int, now: int): (LeaseReply, State) {
    if !Binds(s, meetingId) then (WrongMeeting, s)
    else
      var current := ActiveLease(Bound(s, meetingId), now);
      if current.lease.None? then (Missing, current)
      else if !SameOwner(current.lease.value, participantId, sessionId) then (OwnerMismatch, current)
      else (Applied, WithLease(current, current.lease.value.(heartbeatAt := heartbeatAt), now))
  }

  function ClearByok(s: State, meetingId: Id, participantId: Id, sessionId: Id, now: int): (LeaseReply, State) {
    if !Binds(s, meetingId) then (WrongMeeting, s)
    else
      var current := ActiveLease(Bound(s, meetingId), now);
      if current.lease.None? then (Missing, current)
      else if !SameOwner(current.lease.value, participantId, sessionId) then (OwnerMismatch, current)
      else (Applied, WithoutLease(current))
  }

  function TimerFires(s: State): State {
    WithoutLease(s)
  }

  // ----- Revocation -----

  function OfSession(tickets: map<Id, Claims>, sessionId: Id): set<Id> {
    set digest | digest in tickets && tickets[digest].sessionId == sessionId
  }

  function RevokeSession(s: State, sessionId: Id): (nat, State) {
    var discarded := OfSession(s.tickets, sessionId);
    var kept := s.(revoked := s.revoked + {sessionId}, tickets := s.tickets - discarded);
    (|discarded|, if s.lease.Some? && s.lease.value.sessionId == sessionId then WithoutLease(kept) else kept)
  }

  // ----- What every request keeps -----

  predicate Ordered(publications: seq<Publication>) {
    && (forall i | 0 <= i < |publications| :: publications[i].sourcePosition > 0)
    && (forall i, j | 0 <= i < j < |publications| ::
          publications[i].sourcePosition < publications[j].sourcePosition && publications[i].id != publications[j].id)
  }

  lemma {:induction false} IndexOfMeans(publications: seq<Publication>, id: Id)
    ensures IndexOf(publications, id) <= |publications|
    ensures IndexOf(publications, id) < |publications| ==> publications[IndexOf(publications, id)].id == id
    ensures IndexOf(publications, id) == |publications| ==> forall p | p in publications :: p.id != id
    decreases |publications|
  {
    if publications != [] {
      IndexOfMeans(publications[1..], id);
      assert publications == [publications[0]] + publications[1..];
    }
  }

  predicate TimerSound(s: State) {
    s.expiryTimer.Some? ==> s.lease.Some? && s.expiryTimer.value >= Deadline(s.lease.value)
  }

  /** Stored tickets are filed under their digest, for this meeting and no revoked session. */
  predicate TicketsOpen(s: State) {
    forall digest | digest in s.tickets ::
      && s.tickets[digest].digest == digest && s.meetingId == Some(s.tickets[digest].meetingId)
      && s.tickets[digest].sessionId !in s.revoked
  }

  predicate Sound(s: State) {
    TicketsOpen(s) && Ordered(s.publications) && TimerSound(s)
  }

  // ----- The object -----

  class MeetingCoordinator {
    var meetingId: Option<Id>
    var tickets: map<Id, Claims>
    var revokedSessions: set<Id>
    var publications: seq<Publication>
    var byokLease: Option<Lease>
    var byokExpiryTimer: Option<int>

    ghost function Contents(): State
      reads this
    {
      State(meetingId, tickets, revokedSessions, publications, byokLease, byokExpiryTimer)
    }

    ghost predicate Valid()
      reads this
    {
      Sound(Contents())
    }

    constructor ()
      ensures Contents() == EMPTY && Valid()
    {
      meetingId, tickets, revokedSessions, publications := None, map[], {}, [];
      byokLease, byokExpiryTimer := None, None;
    }

    method BindMeeting(id: Id) returns (bound: bool)
      modifies this`meetingId
      ensures bound == Binds(old(Contents()), id)
      ensures Contents() == if bound then Bound(old(Contents()), id) else old(Contents())
    {
      if meetingId.None? {
        meetingId := Some(id);
      }
      bound := meetingId == Some(id);
    }

    method Issue(claims: Claims) returns (reply: IssueReply)
      requires Valid()
      modifies this
      ensures (reply, Contents()) == IssueTicket(old(Contents()), claims) && Valid()
    {
      var bound := BindMeeting(claims.meetingId);
      if !bound {
        return ScopeConflict;
      }
      if claims.sessionId in revokedSessions {
        return SessionRevoked;
      }
      if claims.digest in tickets {
        return if tickets[claims.digest] == claims then IssuedBefore else DigestConflict;
      }
      tickets := tickets[claims.digest := claims];
      return Issued;
    }

    method Consume(digest: Id, now: int) returns (consumed: Option<Claims>)
      requires Valid()
      modifies this`tickets
      ensures (consumed, Contents()) == ConsumeTicket(old(Contents()), digest, now) && Valid()
    {
      if digest !in tickets {
        return None;
      }
      var claims := tickets[digest];
      tickets := tickets - {digest};
      if claims.expiresAt <= now || claims.sessionId in revokedSessions {
        return None;
      }
      return Some(claims);
    }

    method FindPublication(id: Id) returns (at: nat)
      ensures at == IndexOf(publications, id) <= |publications|
    {
      at := 0;
      while at < |publications| && publications[at].id != id
        invariant at <= |publications|
        invariant at + IndexOf(publications[at..], id) == IndexOf(publications, id)
      {
        assert publications[at..][1..] == publications[at+1..];
        at := at + 1;
      }
    }

    method Append(publication: Publication) returns (reply: PublishReply)
      requires Valid()
      modifies this`publications
      ensures (reply, Contents()) == Publish(old(Contents()), publication) && Valid()
    {
      if publication.sourcePosition == 0 {
        return InvalidPublication;
      }
      var prior := FindPublication(publication.id);
      if prior < |publications| {
        return if publications[prior] == publication then PublishedBefore(prior + 1) else IdConflict;
      }
      IndexOfMeans(publications, publication.id);
      var priorSourcePosition := if publications == [] then 0 else publications[|publications|-1].sourcePosition;
      if publication.sourcePosition <= priorSourcePosition {
        return PositionConflict(priorSourcePosition);
      }
      publications := publications + [publication];
      return Published(|publications|);
    }

    method RemoveLease()
      modifies this`byokLease, this`byokExpiryTimer
      ensures Contents() == WithoutLease(old(Contents()))
    {
      byokExpiryTimer := None;
      byokLease := None;
    }

    method DropExpiredLease(now: int)
      modifies this`byokLease, this`byokExpiryTimer
      ensures Contents() == ActiveLease(old(Contents()), now)
    {
      if byokLease.Some? && now >= byokLease.value.heartbeatAt + MEETING_API_KEY_LEASE_TTL_MS {
        RemoveLease();
      }
    }

    method InstallLease(lease: Lease, now: int)
      modifies this`byokLease, this`byokExpiryTimer
      ensures Contents() == WithLease(old(Contents()), lease, now)
    {
      byokLease := Some(lease);
      var delay := lease.heartbeatAt + MEETING_API_KEY_LEASE_TTL_MS - now;
      byokExpiryTimer := Some(now + if delay > 0 then delay else 0);
    }

    method Configure(id: Id, lease: Lease, now: int) returns (reply: LeaseReply)
      requires Valid()
      modifies this
      ensures (reply, Contents()) == ConfigureByok(old(Contents()), id, lease, now) && Valid()
    {
      var bound := BindMeeting(id);
      if !bound {
        return WrongMeeting;
      }
      DropExpiredLease(now);
      if byokLease.Some? && !SameOwner(byokLease.value, lease.participantId, lease.sessionId) {
        return OwnerMismatch;
      }
      InstallLease(lease, now);
      return Configured;
    }

    method FindLease(id: Id, now: int) returns (found: Option<Lease>)
      requires Valid()
      modifies this
      ensures (found, Contents()) == FindByok(old(Contents()), id, now) && Valid()
    {
      var bound := BindMeeting(id);
      if !bound {
        return None;
      }
      DropExpiredLease(now);
      return byokLease;
    }

    method Heartbeat(id: Id, participantId: Id, sessionId: Id, heartbeatAt: int, now: int) returns (reply: LeaseReply)
      requires Valid()
      modifies this
      ensures (reply, Contents()) == HeartbeatByok(old(Contents()), id, participantId, sessionId, heartbeatAt, now) && Valid()
    {
      var bound := BindMeeting(id);
      if !bound {
        return WrongMeeting;
      }
      DropExpiredLease(now);
      if byokLease.None? {
        return Missing;
      }
      if !SameOwner(byokLease.value, participantId, sessionId) {
        return OwnerMismatch;
      }
      InstallLease(byokLease.value.(heartbeatAt := heartbeatAt), now);
      return Applied;
    }

    method ClearOwner(id: Id, participantId: Id, sessionId: Id, now: int) returns (reply: LeaseReply)
      requires Valid()
      modifies this
      ensures (reply, Contents()) == ClearByok(old(Contents()), id, participantId, sessionId, now) && Valid()
    {
      var bound := BindMeeting(id);
      if !bound {
        return WrongMeeting;
      }
      DropExpiredLease(now);
      if byokLease.None? {
        return Missing;
      }
      if !SameOwner(byokLease.value, participantId, sessionId) {
        return OwnerMismatch;
      }
      RemoveLease();
      return Applied;
    }

    /** The loop over the tickets deletes those of the session and counts them. */
    method DiscardTickets(sessionId: Id) returns (discarded: nat)
      modifies this`tickets
      ensures discarded == |OfSession(old(tickets), sessionId)|
      ensures tickets == old(tickets) - OfSession(old(tickets), sessionId)
    {
      discarded := 0;
      var before := tickets;
      var rest := tickets.Keys;
      ghost var gone: set<Id> := {};
      while rest != {}
        invariant rest <= before.Keys
        invariant gone == set digest | digest in before && digest !in rest && before[digest].sessionId == sessionId
        invariant discarded == |gone| && tickets == before - gone
        decreases |rest|
      {
        var digest :| digest in rest;
        rest := rest - {digest};
        if before[digest].sessionId == sessionId {
          tickets := tickets - {digest};
          discarded := discarded + 1;
          assert digest !in gone;
          gone := gone + {digest};
        }
      }
      assert gone == OfSession(before, sessionId);
    }

    method Revoke(sessionId: Id) returns (discarded: nat)
      requires Valid()
      modifies this
      ensures (discarded, Contents()) == RevokeSession(old(Contents()), sessionId) && Valid()
    {
      revokedSessions := revokedSessions + {sessionId};
      if byokLease.Some? && byokLease.value.sessionId == sessionId {
        RemoveLease();
      }
      discarded := DiscardTickets(sessionId);
    }
  }
}
