/** D1ManagedRealtimeCallOwnershipRepository: start claims and ownership rows of realtime
  * calls, over the usage reservations that back them. */
module ManagedRealtimeCalls {
  import opened Basics
  import opened UsageLedger
  import opened UsageLimiter

  const RESERVATION_TTL_SECONDS: nat := 60

  // `owner` stands for meeting, participant, session and user, compared as a whole.
  datatype StartClaim = StartClaim(
    startKey: Id, fingerprint: Id, managedCallId: Id, owner: Id, createdAt: nat, expiresAt: nat)

  datatype CallRow = CallRow(
    reservationId: Id, owner: Id, createdAt: nat, expiresAt: nat, terminatedAt: Option<nat>)

  datatype Ownership = Ownership(
    managedCallId: Id, reservationId: Id, owner: Id, holder: Id, createdAt: nat, expiresAt: nat)

  datatype Tables = Tables(claims: map<Id, StartClaim>, calls: map<Id, CallRow>, usage: Ledger)

  datatype ClaimResult = Claimed | Replayed | InConflict | ClaimRejected

  predicate CallIsActive(calls: map<Id, CallRow>, managedCallId: Id) {
    managedCallId in calls && calls[managedCallId].terminatedAt.None?
  }

  function ClaimStart(t: Tables, c: StartClaim): (ClaimResult, Tables) {
    if c.expiresAt < c.createdAt then (ClaimRejected, t)
    else if c.startKey !in t.claims || t.claims[c.startKey].expiresAt < c.createdAt then
      (Claimed, t.(claims := t.claims[c.startKey := c]))
    else
      var existing := t.claims[c.startKey];
      (if existing.owner == c.owner && existing.fingerprint == c.fingerprint then Replayed else InConflict, t)
  }

  function ReleaseStart(t: Tables, c: StartClaim): (bool, Tables) {
    if c.startKey in t.claims
       && t.claims[c.startKey].fingerprint == c.fingerprint
       && t.claims[c.startKey].managedCallId == c.managedCallId
       && t.claims[c.startKey].createdAt == c.createdAt
       && !CallIsActive(t.calls, c.managedCallId)
    then (true, t.(claims := t.claims - {c.startKey}))
    else (false, t)
  }

  predicate Backs(usage: Ledger, o: Ownership) {
    && o.reservationId in usage
    && usage[o.reservationId].subject.holder == o.holder
    && usage[o.reservationId].status.Held?
    && usage[o.reservationId].reservedAt <= o.createdAt
    && usage[o.reservationId].activeUntil >= o.expiresAt
  }

  predicate ReservationOwned(calls: map<Id, CallRow>, reservationId: Id) {
    exists id | id in calls :: calls[id].reservationId == reservationId
  }

  function Create(t: Tables, o: Ownership): (bool, Tables) {
    if Backs(t.usage, o) && o.managedCallId !in t.calls && !ReservationOwned(t.calls, o.reservationId)
    then (true, t.(calls := t.calls[o.managedCallId :=
                     CallRow(o.reservationId, o.owner, o.createdAt, o.expiresAt, None)]))
    else (false, t)
  }

  function FindActiveOwned(t: Tables, managedCallId: Id, owner: Id, now: nat): Option<CallRow> {
    if CallIsActive(t.calls, managedCallId) && t.calls[managedCallId].owner == owner
       && t.calls[managedCallId].expiresAt >= now
    then Some(t.calls[managedCallId]) else None
  }

  /** Repeating a termination is accepted; an epoch before the creation is not. */
  function TerminateOwned(t: Tables, managedCallId: Id, owner: Id, at: nat): (bool, Tables) {
    if managedCallId !in t.calls || t.calls[managedCallId].owner != owner then (false, t)
    else
      var row := t.calls[managedCallId];
      if row.terminatedAt.Some? then (true, t)
      else if row.createdAt <= at then (true, t.(calls := t.calls[managedCallId := row.(terminatedAt := Some(at))]))
      else (false, t)
  }

  class D1ManagedRealtimeCallOwnershipRepository {
    var claims: map<Id, StartClaim>
    var calls: map<Id, CallRow>
    const usage: D1UsageLimiter

    ghost function Contents(): Tables
      reads this, usage
    {
      Tables(claims, calls, usage.rows)
    }

    constructor (limiter: D1UsageLimiter)
      ensures claims == map[] && calls == map[] && usage == limiter
    {
      claims, calls, usage := map[], map[], limiter;
    }

    /** The upsert changes a row only if there is none or its claim has expired. */
    method TryClaim(c: StartClaim) returns (result: ClaimResult)
      modifies this
      ensures (result, Contents()) == ClaimStart(old(Contents()), c)
    {
      if c.expiresAt < c.createdAt {
        return ClaimRejected;
      }
      if c.startKey !in claims || claims[c.startKey].expiresAt < c.createdAt {
        claims := claims[c.startKey := c];
        return Claimed;
      }
      var existing := claims[c.startKey];
      return if existing.owner == c.owner && existing.fingerprint == c.fingerprint
                && existing.expiresAt >= c.createdAt then Replayed else InConflict;
    }

    method Release(c: StartClaim) returns (released: bool)
      modifies this
      ensures (released, Contents()) == ReleaseStart(old(Contents()), c)
    {
      released := c.startKey in claims
        && claims[c.startKey].fingerprint == c.fingerprint
        && claims[c.startKey].managedCallId == c.managedCallId
        && claims[c.startKey].createdAt == c.createdAt
        && !CallIsActive(calls, c.managedCallId);
      if released {
        claims := claims - {c.startKey};
      }
    }

    method Insert(o: Ownership) returns (created: bool)
      modifies this
      ensures (created, Contents()) == Create(old(Contents()), o)
    {
      created := Backs(usage.rows, o) && o.managedCallId !in calls && !ReservationOwned(calls, o.reservationId);
      if created {
        calls := calls[o.managedCallId := CallRow(o.reservationId, o.owner, o.createdAt, o.expiresAt, None)];
      }
    }

    method FindActive(managedCallId: Id, owner: Id, now: nat) returns (found: Option<CallRow>)
      ensures found == FindActiveOwned(Contents(), managedCallId, owner, now)
    {
      if managedCallId in calls && calls[managedCallId].owner == owner
         && calls[managedCallId].terminatedAt.None? && calls[managedCallId].expiresAt >= now {
        return Some(calls[managedCallId]);
      }
      return None;
    }

    method Terminate(managedCallId: Id, owner: Id, at: nat) returns (terminated: bool)
      modifies this
      ensures (terminated, Contents()) == TerminateOwned(old(Contents()), managedCallId, owner, at)
    {
      if managedCallId in calls && calls[managedCallId].owner == owner
         && calls[managedCallId].terminatedAt.None? && calls[managedCallId].createdAt <= at {
        calls := calls[managedCallId := calls[managedCallId].(terminatedAt := Some(at))];
        return true;
      }
      return managedCallId in calls && calls[managedCallId].owner == owner && calls[managedCallId].terminatedAt.Some?;
    }
  }

  // ----- What each call answers -----

  /** Exactly when a start is claimed, repeated, in conflict or rejected. */
  lemma ClaimDecides(t: Tables, c: StartClaim)
    ensures var (result, t') := ClaimStart(t, c);
            var held := c.startKey in t.claims && t.claims[c.startKey].expiresAt >= c.createdAt;
            && (result.ClaimRejected? <==> c.expiresAt < c.createdAt)
            && (result.Claimed? <==> c.expiresAt >= c.createdAt && !held)
            && (result.Replayed? <==>
                  c.expiresAt >= c.createdAt && held
                  && t.claims[c.startKey].owner == c.owner && t.claims[c.startKey].fingerprint == c.fingerprint)
            && t' == if result.Claimed? then t.(claims := t.claims[c.startKey := c]) else t
  {
  }

  /** A row is created for a held reservation of its holder that covers it, once for each call
    * and each reservation; it is then found by its owner until it expires or is terminated. */
  lemma CreatedIsFound(t: Tables, o: Ownership, now: nat)
    ensures var (created, t') := Create(t, o);
            && (created <==>
                  && o.reservationId in t.usage && t.usage[o.reservationId].status.Held?
                  && t.usage[o.reservationId].subject.holder == o.holder
                  && t.usage[o.reservationId].reservedAt <= o.createdAt && o.expiresAt <= t.usage[o.reservationId].activeUntil
                  && o.managedCallId !in t.calls
                  && forall id | id in t.calls :: t.calls[id].reservationId != o.reservationId)
            && (created ==>
                  (FindActiveOwned(t', o.managedCallId, o.owner, now).Some? <==> now <= o.expiresAt)
                  && forall owner | owner != o.owner :: FindActiveOwned(t', o.managedCallId, owner, now).None?)
  {
  }

  /** The owner terminates a row once, at or after its creation, and is told so ever after. */
  lemma TerminationDecides(t: Tables, managedCallId: Id, owner: Id, at: nat)
    ensures var (terminated, t') := TerminateOwned(t, managedCallId, owner, at);
            && (terminated <==>
                  && managedCallId in t.calls && t.calls[managedCallId].owner == owner
                  && (t.calls[managedCallId].terminatedAt.Some? || t.calls[managedCallId].createdAt <= at))
            && (terminated ==> !CallIsActive(t'.calls, managedCallId) && TerminateOwned(t', managedCallId, owner, 0).0)
            && (!terminated ==> t' == t)
  {
  }

  // ----- Every sequence of repository calls -----

  datatype Call =
    | ClaimCall(claim: StartClaim)
    | ReleaseCall(claim: StartClaim)
    | CreateCall(ownership: Ownership)
    | TerminateCall(managedCallId: Id, owner: Id, at: nat)
    | UsageCall(op: Op, now: nat)

  datatype Event = ClaimedEvent(claim: StartClaim) | ReleasedEvent(claim: StartClaim)

  ghost function After(t: Tables, call: Call): Tables {
    match call
    case ClaimCall(c) => ClaimStart(t, c).1
    case ReleaseCall(c) => ReleaseStart(t, c).1
    case CreateCall(o) => Create(t, o).1
    case TerminateCall(id, owner, at) => TerminateOwned(t, id, owner, at).1
    case UsageCall(op, now) => t.(usage := Apply(t.usage, op, now))
  }

  function Reported(t: Tables, call: Call): seq<Event> {
    match call
    case ClaimCall(c) => if ClaimStart(t, c).0.Claimed? then [ClaimedEvent(c)] else []
    case ReleaseCall(c) => if ReleaseStart(t, c).0 then [ReleasedEvent(c)] else []
    case _ => []
  }

  ghost function Replay(start: Tables, calls: seq<Call>): (Tables, seq<Event>) {
    if calls == [] then (start, [])
    else
      var (t, log) := Replay(start, calls[..|calls|-1]);
      (After(t, calls[|calls|-1]), log + Reported(t, calls[|calls|-1]))
  }

  predicate NotReleasedBetween(log: seq<Event>, i: nat, j: nat)
    requires i < j <= |log|
  {
    forall k | i < k < j :: log[k].ReleasedEvent? ==> log[k].claim.startKey != log[i].claim.startKey
  }

  /** The stored claim of a key expires no earlier than any claim not released since. */
  predicate ClaimsRemembered(t: Tables, log: seq<Event>) {
    forall i | 0 <= i < |log| && log[i].ClaimedEvent? && NotReleasedBetween(log, i, |log|) ::
      && log[i].claim.startKey in t.claims
      && log[i].claim.expiresAt <= t.claims[log[i].claim.startKey].expiresAt
  }

  predicate ClaimsApart(log: seq<Event>) {
    forall i, j | 0 <= i < j < |log| && log[i].ClaimedEvent? && log[j].ClaimedEvent?
                  && log[i].claim.startKey == log[j].claim.startKey && NotReleasedBetween(log, i, j) ::
      log[j].claim.createdAt > log[i].claim.expiresAt
  }

  lemma NotReleasedPrefix(log: seq<Event>, event: Event, i: nat, j: nat)
    requires i < j <= |log| && NotReleasedBetween(log + [event], i, j)
    ensures NotReleasedBetween(log, i, j)
  {
    assert forall k | i < k < j :: (log + [event])[k] == log[k];
  }

  lemma ClaimKeepsApart(t: Tables, log: seq<Event>, c: StartClaim)
    requires ClaimsRemembered(t, log) && ClaimsApart(log) && ClaimStart(t, c).0.Claimed?
    ensures ClaimsRemembered(ClaimStart(t, c).1, log + [ClaimedEvent(c)]) && ClaimsApart(log + [ClaimedEvent(c)])
  {
    var t', log' := ClaimStart(t, c).1, log + [ClaimedEvent(c)];
    forall i | 0 <= i < |log| && log'[i].ClaimedEvent? && NotReleasedBetween(log', i, |log'|)
      ensures log'[i].claim.startKey in t'.claims
      ensures log'[i].claim.expiresAt <= t'.claims[log'[i].claim.startKey].expiresAt
    {
      NotReleasedPrefix(log, ClaimedEvent(c), i, |log|);
    }
    forall i, j | 0 <= i < j < |log'| && log'[i].ClaimedEvent? && log'[j].ClaimedEvent?
                  && log'[i].claim.startKey == log'[j].claim.startKey && NotReleasedBetween(log', i, j)
      ensures log'[j].claim.createdAt > log'[i].claim.expiresAt
    {
      NotReleasedPrefix(log, ClaimedEvent(c), i, j);
    }
  }

  lemma ReleaseKeepsApart(t: Tables, log: seq<Event>, c: StartClaim)
    requires ClaimsRemembered(t, log) && ClaimsApart(log) && ReleaseStart(t, c).0
    ensures ClaimsRemembered(ReleaseStart(t, c).1, log + [ReleasedEvent(c)]) && ClaimsApart(log + [ReleasedEvent(c)])
  {
    var t', log' := ReleaseStart(t, c).1, log + [ReleasedEvent(c)];
    forall i | 0 <= i < |log'| && log'[i].ClaimedEvent? && NotReleasedBetween(log', i, |log'|)
      ensures log'[i].claim.startKey in t'.claims
      ensures log'[i].claim.expiresAt <= t'.claims[log'[i].claim.startKey].expiresAt
    {
      assert log'[|log|] == ReleasedEvent(c);
      NotReleasedPrefix(log, ReleasedEvent(c), i, |log|);
    }
    forall i, j | 0 <= i < j < |log'| && log'[i].ClaimedEvent? && log'[j].ClaimedEvent?
                  && log'[i].claim.startKey == log'[j].claim.startKey && NotReleasedBetween(log', i, j)
      ensures log'[j].claim.createdAt > log'[i].claim.expiresAt
    {
      NotReleasedPrefix(log, ReleasedEvent(c), i, j);
    }
  }

  /** Start-claim exclusivity: over every sequence of calls, two claims of one start key
    * without a release of that key in between lie strictly more than an expiry apart. */
  lemma {:induction false} StartClaimsAreExclusive(start: Tables, calls: seq<Call>)
    ensures var (t, log) := Replay(start, calls); ClaimsApart(log) && ClaimsRemembered(t, log)
    decreases |calls|
  {
    if calls != [] {
      var (t, log) := Replay(start, calls[..|calls|-1]);
      var call := calls[|calls|-1];
      StartClaimsAreExclusive(start, calls[..|calls|-1]);
      if call.ClaimCall? && ClaimStart(t, call.claim).0.Claimed? {
        ClaimKeepsApart(t, log, call.claim);
      } else if call.ReleaseCall? && ReleaseStart(t, call.claim).0 {
        ReleaseKeepsApart(t, log, call.claim);
      } else {
        assert log + [] == log;
      }
    }
  }

  /** No call but a release removes a claim, a release removes only the claim of its own
    * managed call, and never while that call is active. */
  lemma ClaimsAreRemovedByTheirOwnRelease(t: Tables, call: Call, key: Id)
    requires key in t.claims && key !in After(t, call).claims
    ensures call.ReleaseCall? && t.claims[key].managedCallId == call.claim.managedCallId
    ensures !CallIsActive(t.calls, t.claims[key].managedCallId)
  {
  }

  /** A terminated ownership row never becomes active again and is never replaced. */
  lemma TerminationIsFinal(t: Tables, call: Call, id: Id)
    requires id in t.calls
    ensures var row := After(t, call).calls;
            && id in row && row[id].(terminatedAt := t.calls[id].terminatedAt) == t.calls[id]
            && (t.calls[id].terminatedAt.Some? ==> row[id] == t.calls[id])
  {
  }
}
