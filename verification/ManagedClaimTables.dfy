/** The two managed-AI claim tables next to the usage ledger, and the meaning of every
  * conditional statement the repository sends to them. Each function is one atomic
  * statement (or one atomic batch). */
module ManagedClaimTables {
  import opened Basics
  import opened UsageLedger

  const CLAIM_LEASE_SECONDS: nat := 120
  const RETENTION_SECONDS: nat := 90_000  // 25 hours

  // judge_managed_ai_operation_claims; `terms` is operation, model and pricing version.
  datatype ClaimRow = ClaimRow(fingerprint: Id, terms: Id, createdAt: nat, expiresAt: nat)

  // judge_managed_ai_operation_lifecycle, one constructor for each legal row shape.
  datatype LifecycleRow =
    | LegacyBlocked
    | Reserved(reservationId: Id, leaseExpiresAt: nat)
    | ProviderStarted(reservationId: Id, leaseExpiresAt: nat, startedAt: nat)
    | Settled(reservationId: Id, settledAt: nat, reuseAfter: nat)

  datatype Tables = Tables(
    claims: map<Id, ClaimRow>,
    lifecycle: map<Id, LifecycleRow>,
    usage: Ledger)

  // What a caller remembers of a claim: enough to address its row later.
  datatype Claim = Claim(key: Id, fingerprint: Id, terms: Id, createdAt: nat, reservationId: Id)

  // A joined row as the repository returns it.
  datatype Found = Found(claim: ClaimRow, row: LifecycleRow)

  function FindLifecycle(t: Tables, key: Id): Option<Found> {
    if key in t.claims && key in t.lifecycle
    then Some(Found(t.claims[key], t.lifecycle[key]))
    else None
  }

  function ClaimOf(key: Id, found: Found): Claim
    requires !found.row.LegacyBlocked?
  {
    Claim(key, found.claim.fingerprint, found.claim.terms, found.claim.createdAt, found.row.reservationId)
  }

  predicate SameRequest(found: Found, fingerprint: Id, terms: Id) {
    found.claim.fingerprint == fingerprint && found.claim.terms == terms
  }

  /** The claims row still carries the identity the caller remembers. */
  predicate Bound(t: Tables, c: Claim) {
    c.key in t.claims && t.claims[c.key].fingerprint == c.fingerprint && t.claims[c.key].createdAt == c.createdAt
  }

  predicate HoldsReserved(t: Tables, c: Claim) {
    c.key in t.lifecycle && t.lifecycle[c.key].Reserved? && t.lifecycle[c.key].reservationId == c.reservationId
  }

  predicate Referenced(t: Tables, reservationId: Id) {
    exists key | key in t.lifecycle ::
      !t.lifecycle[key].LegacyBlocked? && t.lifecycle[key].reservationId == reservationId
  }

  // ----- Statements -----

  /** Both INSERTs of a fresh claim, or neither. */
  function InsertClaim(t: Tables, c: Claim, expiresAt: nat, lease: nat): (bool, Tables) {
    if c.key in t.claims || c.key in t.lifecycle || Referenced(t, c.reservationId) then (false, t)
    else
      (true, t.(claims := t.claims[c.key := ClaimRow(c.fingerprint, c.terms, c.createdAt, expiresAt)],
                lifecycle := t.lifecycle[c.key := Reserved(c.reservationId, lease)]))
  }

  predicate ReusableBefore(t: Tables, key: Id, epoch: nat) {
    key in t.lifecycle && t.lifecycle[key].Settled? && t.lifecycle[key].reuseAfter < epoch
  }

  /** The two-statement batch that reuses a settled claim: which statement changed a row. */
  function ReplaceSettled(t: Tables, seen: Claim, c: Claim, expiresAt: nat, lease: nat): (bool, bool, Tables) {
    var first := Bound(t, seen.(key := c.key)) && ReusableBefore(t, c.key, c.createdAt);
    var t1 := if first
              then t.(claims := t.claims[c.key := ClaimRow(c.fingerprint, c.terms, c.createdAt, expiresAt)])
              else t;
    var second := ReusableBefore(t1, c.key, c.createdAt) && t1.lifecycle[c.key].reservationId == seen.reservationId;
    var t2 := if second
              then t1.(lifecycle := t1.lifecycle[c.key := Reserved(c.reservationId, lease)])
              else t1;
    (first, second, t2)
  }

  function TakeOverReserved(t: Tables, c: Claim, now: nat, lease: nat): (bool, Tables) {
    if HoldsReserved(t, c) && t.lifecycle[c.key].leaseExpiresAt < now && Bound(t, c)
    then (true, t.(lifecycle := t.lifecycle[c.key := Reserved(c.reservationId, lease)]))
    else (false, t)
  }

  function MarkProviderStarted(t: Tables, c: Claim, at: nat): (bool, Tables) {
    if HoldsReserved(t, c) && at <= t.lifecycle[c.key].leaseExpiresAt && Bound(t, c)
    then (true, t.(lifecycle := t.lifecycle[
           c.key := ProviderStarted(c.reservationId, t.lifecycle[c.key].leaseExpiresAt, at)]))
    else (false, t)
  }

  predicate MaySettle(t: Tables, c: Claim, expectStarted: bool, at: nat) {
    && c.key in t.lifecycle
    && (if expectStarted
        then t.lifecycle[c.key].ProviderStarted? && t.lifecycle[c.key].startedAt <= at
        else t.lifecycle[c.key].Reserved?)
    && t.lifecycle[c.key].reservationId == c.reservationId
    && Bound(t, c)
  }

  function MarkSettled(t: Tables, c: Claim, expectStarted: bool, at: nat): (bool, Tables) {
    if MaySettle(t, c, expectStarted, at)
    then (true, t.(lifecycle := t.lifecycle[c.key := Settled(c.reservationId, at, at + RETENTION_SECONDS)]))
    else (false, t)
  }

  /** Deleting a claims row cascades to its lifecycle row. */
  function DeleteClaim(t: Tables, key: Id): Tables {
    t.(claims := t.claims - {key}, lifecycle := t.lifecycle - {key})
  }

  function AbandonReserved(t: Tables, c: Claim): (bool, Tables) {
    if Bound(t, c) && HoldsReserved(t, c) then (true, DeleteClaim(t, c.key)) else (false, t)
  }

  predicate ExpiredReserved(t: Tables, c: Claim, now: nat) {
    Bound(t, c) && HoldsReserved(t, c) && t.lifecycle[c.key].leaseExpiresAt < now
  }

  function AbandonExpiredReserved(t: Tables, c: Claim, now: nat): (bool, Tables) {
    if ExpiredReserved(t, c, now) then (true, DeleteClaim(t, c.key)) else (false, t)
  }

  predicate HeldIn(usage: Ledger, id: Id) {
    id in usage && usage[id].status.Held?
  }

  /** The release-and-abandon batch: which statement changed a row. */
  function ReleaseExpiredReserved(t: Tables, c: Claim, now: nat): (bool, bool, Tables) {
    var released := HeldIn(t.usage, c.reservationId) && ExpiredReserved(t, c, now);
    var t1 := if released then t.(usage := ReleaseAt(t.usage, c.reservationId, now)) else t;
    var (abandoned, t2) := AbandonExpiredReserved(t1, c, now);
    (released, abandoned, t2)
  }

  /** Only a reservation that no lifecycle row refers to is an orphan. */
  function ReleaseOrphaned(t: Tables, c: Claim, now: nat): (bool, Tables) {
    if HeldIn(t.usage, c.reservationId)
       && t.usage[c.reservationId].fingerprint == c.fingerprint
       && !Referenced(t, c.reservationId)
    then (true, t.(usage := ReleaseAt(t.usage, c.reservationId, now)))
    else (false, t)
  }

  /** A held reservation of the caller's that no claim row refers to is given back; any other
    * one stays as it is. */
  lemma OrphanIsReleased(t: Tables, c: Claim, now: nat)
    ensures var (released, t') := ReleaseOrphaned(t, c, now);
            var orphan := HeldIn(t.usage, c.reservationId) && t.usage[c.reservationId].fingerprint == c.fingerprint
                          && forall key | key in t.lifecycle && !t.lifecycle[key].LegacyBlocked? ::
                               t.lifecycle[key].reservationId != c.reservationId;
            && (released <==> orphan)
            && (!orphan ==> t' == t)
            && (orphan ==>
                  c.reservationId in t'.usage && t'.usage[c.reservationId].status.Released?
                  && t'.lifecycle == t.lifecycle && t'.claims == t.claims
                  && t'.usage - {c.reservationId} == t.usage - {c.reservationId})
  {
  }
}
