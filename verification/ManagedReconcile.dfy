/** The reconciliation pass: what it does to one stale row, to a list of them, and why it
  * brings every recoverable table to rest. */
module ManagedReconcile {
  import opened Basics
  import opened UsageLedger
  import opened ManagedClaimTables

  datatype StaleRow = StaleRow(claim: Claim, started: bool)
  datatype RowOutcome = RowFailed | RowReleased | RowSettled
  datatype Counts = Counts(attempted: nat, failed: nat, released: nat, settled: nat)

  predicate Matches(fingerprint: Id, terms: Id, r: Reservation) {
    r.fingerprint == fingerprint && r.terms == terms
  }

  predicate IsStale(row: LifecycleRow, now: nat) {
    (row.Reserved? || row.ProviderStarted?) && row.leaseExpiresAt < now
  }

  /** A row that no pass at this time has anything to do with. */
  predicate Quiescent(row: LifecycleRow, now: nat) {
    match row
    case LegacyBlocked => true
    case Settled(_, _, _) => true
    case Reserved(_, leaseExpiresAt) => leaseExpiresAt >= now
    case ProviderStarted(_, leaseExpiresAt, _) => leaseExpiresAt >= now
  }

  /** The joined row of a key, as the stale query returns it. */
  function RowOf(t: Tables, key: Id): StaleRow
    requires key in t.claims && key in t.lifecycle && !t.lifecycle[key].LegacyBlocked?
  {
    StaleRow(ClaimOf(key, Found(t.claims[key], t.lifecycle[key])), t.lifecycle[key].ProviderStarted?)
  }

  // ----- One row -----

  ghost function ReconcileReserved(t: Tables, c: Claim, now: nat): (RowOutcome, Tables) {
    if c.reservationId in t.usage && !Matches(c.fingerprint, c.terms, t.usage[c.reservationId]) then
      (RowFailed, t)
    else if c.reservationId in t.usage && t.usage[c.reservationId].status.Finalized? then
      var (settled, t1) := MarkSettled(t, c, false, now);
      (if settled then RowSettled else RowFailed, t1)
    else if HeldIn(t.usage, c.reservationId) then
      var (released, abandoned, t1) := ReleaseExpiredReserved(t, c, now);
      (if released && abandoned then RowReleased else RowFailed, t1)
    else
      var (abandoned, t1) := AbandonExpiredReserved(t, c, now);
      (if abandoned then RowReleased else RowFailed, t1)
  }

  ghost function ReconcileStarted(t: Tables, c: Claim, now: nat): (RowOutcome, Tables) {
    if c.reservationId !in t.usage
       || !Matches(c.fingerprint, c.terms, t.usage[c.reservationId])
       || t.usage[c.reservationId].status.Released? then
      (RowFailed, t)
    else
      var (finalized, usage') := if t.usage[c.reservationId].status.Held?
                                 then FinalizeFull(t.usage, c.reservationId, now)
                                 else (true, t.usage);
      if !finalized then (RowFailed, t)
      else
        var (settled, t1) := MarkSettled(t.(usage := usage'), c, true, now);
        (if settled then RowSettled else RowFailed, t1)
  }

  ghost function ReconcileRow(t: Tables, row: StaleRow, now: nat): (RowOutcome, Tables) {
    if row.started then ReconcileStarted(t, row.claim, now) else ReconcileReserved(t, row.claim, now)
  }

  function Count(counts: Counts, outcome: RowOutcome): Counts {
    match outcome
    case RowFailed => counts.(failed := counts.failed + 1)
    case RowReleased => counts.(released := counts.released + 1)
    case RowSettled => counts.(settled := counts.settled + 1)
  }

  ghost function ReconcileRows(t: Tables, rows: seq<StaleRow>, now: nat): (Counts, Tables) {
    if rows == [] then (Counts(0, 0, 0, 0), t)
    else
      var (counts, t1) := ReconcileRows(t, rows[..|rows|-1], now);
      var (outcome, t2) := ReconcileRow(t1, rows[|rows|-1], now);
      (Count(counts, outcome).(attempted := |rows|), t2)
  }

  // ----- Tables that reconciliation can finish -----

  ghost predicate RecoverableRow(t: Tables, key: Id)
    requires key in t.lifecycle && key in t.claims
  {
    match t.lifecycle[key]
    case LegacyBlocked => true
    case Reserved(id, _) =>
      id in t.usage ==> t.usage[id].status.Held? && Matches(t.claims[key].fingerprint, t.claims[key].terms, t.usage[id])
    case ProviderStarted(id, lease, startedAt) =>
      && id in t.usage && !t.usage[id].status.Released?
      && Matches(t.claims[key].fingerprint, t.claims[key].terms, t.usage[id])
      && startedAt <= lease
    case Settled(id, _, _) => id in t.usage && t.usage[id].status.Finalized?
  }

  ghost predicate Recoverable(t: Tables, now: nat) {
    && t.claims.Keys == t.lifecycle.Keys
    && Sound(t.usage, now)
    && (forall key | key in t.lifecycle :: RecoverableRow(t, key))
    && (forall k1, k2 | k1 in t.lifecycle && k2 in t.lifecycle
                        && !t.lifecycle[k1].LegacyBlocked? && !t.lifecycle[k2].LegacyBlocked?
                        && t.lifecycle[k1].reservationId == t.lifecycle[k2].reservationId :: k1 == k2)
  }

  /** `row` is the joined stale row of its key. */
  predicate Lists(t: Tables, row: StaleRow, now: nat) {
    var key := row.claim.key;
    key in t.claims && key in t.lifecycle && IsStale(t.lifecycle[key], now) && row == RowOf(t, key)
  }

  /** At rest: deleted with nothing reserved, or settled with its reservation charged. */
  predicate AtRest(t: Tables, row: StaleRow, now: nat) {
    var id := row.claim.reservationId;
    if row.started then
      && row.claim.key in t.lifecycle
      && t.lifecycle[row.claim.key] == Settled(id, now, now + RETENTION_SECONDS)
      && id in t.usage && t.usage[id].status.Finalized?
    else
      && row.claim.key !in t.claims && row.claim.key !in t.lifecycle
      && (id in t.usage ==> t.usage[id].status.Released?)
  }

  /** What a pass does to the money of a row: a started provider costs everything that is
    * still held and nothing more where it was charged before; what was held for a provider
    * that never started is given back. */
  predicate Accounted(before: Ledger, after: Ledger, row: StaleRow, now: nat) {
    var id := row.claim.reservationId;
    if id !in before then id !in after
    else
      && id in after
      && after[id] == before[id].(status :=
           if !before[id].status.Held? then before[id].status
           else if row.started then Finalized(before[id].estimated, now)
           else Released(if now < before[id].reservedAt then before[id].reservedAt else now))
  }

  function StartedIn(rows: seq<StaleRow>): (n: nat)
    ensures n <= |rows|
  {
    if rows == [] then 0 else StartedIn(rows[..|rows|-1]) + if rows[|rows|-1].started then 1 else 0
  }

  /** Nothing outside these keys and these reservations changed. */
  predicate OnlyTouches(t: Tables, t': Tables, keys: set<Id>, ids: set<Id>) {
    && SameOutside(t.claims, t'.claims, keys)
    && SameOutside(t.lifecycle, t'.lifecycle, keys)
    && SameOutside(t.usage, t'.usage, ids)
  }

  /** Over any table whatever: exactly when a listed row cannot be brought to rest. A row
    * that fails keeps its claim. */
  lemma RowFailsIff(t: Tables, row: StaleRow, now: nat)
    requires Lists(t, row, now)
    ensures var (outcome, t') := ReconcileRow(t, row, now);
            var id := row.claim.reservationId;
            var known := id in t.usage && t.usage[id].fingerprint == row.claim.fingerprint && t.usage[id].terms == row.claim.terms;
            && (outcome.RowFailed? <==>
                  if row.started then
                    || !known || t.usage[id].status.Released?
                    || (t.usage[id].status.Held? && !MayFinalize(t.usage, id, t.usage[id].estimated, now))
                    || t.lifecycle[row.claim.key].startedAt > now
                  else id in t.usage && !known)
            && (outcome.RowFailed? ==> t'.claims == t.claims && t'.lifecycle == t.lifecycle)
            && (outcome.RowSettled? <==>
                  !outcome.RowFailed? && (row.started || (id in t.usage && t.usage[id].status.Finalized?)))
  {
    var c := row.claim;
    assert Bound(t, c);
    if row.started { assert t.lifecycle[c.key].ProviderStarted?; } else { assert HoldsReserved(t, c); }
  }

  /** One stale row of a recoverable table always comes to rest. */
  lemma RowComesToRest(t: Tables, row: StaleRow, now: nat)
    requires Recoverable(t, now) && Lists(t, row, now)
    ensures var (outcome, t') := ReconcileRow(t, row, now);
            && outcome == (if row.started then RowSettled else RowReleased)
            && AtRest(t', row, now) && Accounted(t.usage, t'.usage, row, now)
            && OnlyTouches(t, t', {row.claim.key}, {row.claim.reservationId})
            && Sound(t'.usage, now)
            && t'.claims.Keys == t'.lifecycle.Keys
  {
    var c := row.claim;
    var id := c.reservationId;
    assert RecoverableRow(t, c.key);
    if row.started {
      if t.usage[id].status.Held? {
        FreshFinalizeIsNeverRefused(t.usage, id, t.usage[id].estimated, now);
        FinalizeKeepsBudget(t.usage, id, t.usage[id].estimated, now, now);
      }
    } else if HeldIn(t.usage, id) {
      ReleaseKeepsBudget(t.usage, id, Max(now, t.usage[id].reservedAt), now);
    }
  }

  lemma OthersStayRecoverable(t: Tables, t': Tables, row: StaleRow, now: nat)
    requires Recoverable(t, now) && Lists(t, row, now)
    requires AtRest(t', row, now) && OnlyTouches(t, t', {row.claim.key}, {row.claim.reservationId})
    requires Sound(t'.usage, now) && t'.claims.Keys == t'.lifecycle.Keys
    ensures Recoverable(t', now)
  {
    var c := row.claim;
    forall key | key in t'.lifecycle && key != c.key
      ensures key in t.lifecycle && t'.lifecycle[key] == t.lifecycle[key]
      ensures !t.lifecycle[key].LegacyBlocked? ==> t.lifecycle[key].reservationId != c.reservationId
      ensures RecoverableRow(t', key)
    {
      OutsideIsSame(t.claims, t'.claims, {c.key}, key);
      OutsideIsSame(t.lifecycle, t'.lifecycle, {c.key}, key);
      assert RecoverableRow(t, key);
      if !t.lifecycle[key].LegacyBlocked? {
        OutsideIsSame(t.usage, t'.usage, {c.reservationId}, t.lifecycle[key].reservationId);
      }
    }
  }

  // ----- A whole pass -----

  predicate DistinctKeys(rows: seq<StaleRow>) {
    forall i, j | 0 <= i < j < |rows| :: rows[i].claim.key != rows[j].claim.key
  }

  function Keys(rows: seq<StaleRow>): set<Id> {
    set row | row in rows :: row.claim.key
  }

  function Reservations(rows: seq<StaleRow>): set<Id> {
    set row | row in rows :: row.claim.reservationId
  }

  lemma UntouchedRow(t: Tables, t': Tables, keys: set<Id>, ids: set<Id>, row: StaleRow, now: nat)
    requires OnlyTouches(t, t', keys, ids) && row.claim.key !in keys
    ensures Lists(t, row, now) ==> Lists(t', row, now)
    ensures row.claim.reservationId !in ids && AtRest(t, row, now) ==> AtRest(t', row, now)
    ensures row.claim.reservationId !in ids ==>
              forall before :: Accounted(before, t.usage, row, now) ==> Accounted(before, t'.usage, row, now)
    ensures row.claim.reservationId !in ids ==>
              forall after :: Accounted(t'.usage, after, row, now) ==> Accounted(t.usage, after, row, now)
  {
    OutsideIsSame(t.claims, t'.claims, keys, row.claim.key);
    OutsideIsSame(t.lifecycle, t'.lifecycle, keys, row.claim.key);
    if row.claim.reservationId !in ids {
      OutsideIsSame(t.usage, t'.usage, ids, row.claim.reservationId);
    }
  }

  lemma TouchesCompose(t: Tables, t1: Tables, t2: Tables, front: seq<StaleRow>, last: StaleRow)
    requires OnlyTouches(t, t1, Keys(front), Reservations(front))
    requires OnlyTouches(t1, t2, {last.claim.key}, {last.claim.reservationId})
    ensures OnlyTouches(t, t2, Keys(front + [last]), Reservations(front + [last]))
  {
    assert Keys(front + [last]) == Keys(front) + {last.claim.key};
    assert Reservations(front + [last]) == Reservations(front) + {last.claim.reservationId};
    SameOutsideCompose(t.claims, t1.claims, t2.claims, Keys(front), {last.claim.key});
    SameOutsideCompose(t.lifecycle, t1.lifecycle, t2.lifecycle, Keys(front), {last.claim.key});
    SameOutsideCompose(t.usage, t1.usage, t2.usage, Reservations(front), {last.claim.reservationId});
  }

  /** Convergence of a pass over any list of stale rows: no row fails, every row comes to
    * rest, each started one with its whole reservation charged unless it was charged before,
    * the table stays recoverable, and nothing else is touched. */
  lemma {:induction false} RowsComeToRest(t: Tables, rows: seq<StaleRow>, now: nat)
    requires Recoverable(t, now) && DistinctKeys(rows)
    requires forall row | row in rows :: Lists(t, row, now)
    ensures var (counts, t') := ReconcileRows(t, rows, now);
            && counts == Counts(|rows|, 0, |rows| - StartedIn(rows), StartedIn(rows))
            && Recoverable(t', now)
            && (forall row | row in rows :: AtRest(t', row, now) && Accounted(t.usage, t'.usage, row, now))
            && OnlyTouches(t, t', Keys(rows), Reservations(rows))
    decreases |rows|
  {
    if rows != [] {
      var front, last := rows[..|rows|-1], rows[|rows|-1];
      assert rows == front + [last];
      RowsComeToRest(t, front, now);
      var t1 := ReconcileRows(t, front, now).1;
      UntouchedRow(t, t1, Keys(front), Reservations(front), last, now);
      RowComesToRest(t1, last, now);
      var t2 := ReconcileRow(t1, last, now).1;
      OthersStayRecoverable(t1, t2, last, now);
      forall row | row in front
        ensures row.claim.reservationId != last.claim.reservationId
        ensures AtRest(t2, row, now) && Accounted(t.usage, t2.usage, row, now)
      {
        assert Lists(t, row, now) && Lists(t, last, now);
        UntouchedRow(t1, t2, {last.claim.key}, {last.claim.reservationId}, row, now);
      }
      TouchesCompose(t, t1, t2, front, last);
    }
  }
}
