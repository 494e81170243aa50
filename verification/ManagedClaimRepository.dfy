/** D1ManagedAiOperationClaimRepository over its tables, and the reconciler that drives it. */
module ManagedClaimRepository {
  import opened Basics
  import opened UsageLedger
  import opened UsageLimiter
  import opened ManagedClaimTables
  import opened ManagedReconcile

  // Replayed is an existing row of the same request; the last two are thrown errors.
  datatype ReserveClaimResult =
    | FreshClaim(claim: Claim)
    | Replayed(found: Found)
    | Conflict
    | UnexpectedRowCount
    | NotPersisted

  ghost function ReserveClaim(t: Tables, c: Claim, expiresAt: nat, lease: nat): (ReserveClaimResult, Tables) {
    match FindLifecycle(t, c.key)
    case None =>
      var (inserted, t') := InsertClaim(t, c, expiresAt, lease);
      (if inserted then FreshClaim(c) else NotPersisted, t')
    case Some(found) =>
      if !SameRequest(found, c.fingerprint, c.terms) then (Conflict, t)
      else if found.row.Settled? && found.row.reuseAfter < c.createdAt then
        var (first, second, t') := ReplaceSettled(t, ClaimOf(c.key, found), c, expiresAt, lease);
        (if first && second then FreshClaim(c) else if first || second then UnexpectedRowCount else Replayed(found), t')
      else (Replayed(found), t)
  }

  // ----- The stale query -----

  function StaleKeys(t: Tables, now: nat): set<Id> {
    set key | key in t.lifecycle && key in t.claims && IsStale(t.lifecycle[key], now)
  }

  function LeaseAt(rows: map<Id, LifecycleRow>, key: Id): nat {
    if key in rows && (rows[key].Reserved? || rows[key].ProviderStarted?) then rows[key].leaseExpiresAt else 0
  }

  /** ORDER BY lease, then key. */
  predicate Before(rows: map<Id, LifecycleRow>, a: Id, b: Id) {
    LeaseAt(rows, a) < LeaseAt(rows, b) || (LeaseAt(rows, a) == LeaseAt(rows, b) && a < b)
  }

  /** The first `limit` stale keys, all of them if there are no more. */
  ghost predicate IsSelection(t: Tables, keys: seq<Id>, limit: nat, now: nat) {
    var all := StaleKeys(t, now);
    && |keys| == (if |all| <= limit then |all| else limit)
    && (forall key | key in keys :: key in all)
    && (forall i, j | 0 <= i < j < |keys| :: Before(t.lifecycle, keys[i], keys[j]))
    && (forall i, key | 0 <= i < |keys| && key in all && key !in keys :: Before(t.lifecycle, keys[i], key))
  }

  /** `rows` are the joined rows of that selection. */
  ghost predicate IsStaleSelection(t: Tables, rows: seq<StaleRow>, limit: nat, now: nat) {
    exists keys: seq<Id> | IsSelection(t, keys, limit, now) ::
      |rows| == |keys| && forall i | 0 <= i < |rows| :: rows[i].claim.key == keys[i] && Lists(t, rows[i], now)
  }

  /** The stale claims that a pass takes are the oldest ones: whatever it leaves has a lease that
    * ended no earlier than any it takes, and it takes them in the order of their leases. */
  lemma OldestAreSelected(t: Tables, keys: seq<Id>, limit: nat, now: nat, i: nat, key: Id)
    requires IsSelection(t, keys, limit, now) && i < |keys| && key in t.claims && key in t.lifecycle
    requires var row := t.lifecycle[key];
             (row.Reserved? || row.ProviderStarted?) && row.leaseExpiresAt < now
    ensures keys[i] in t.lifecycle && (t.lifecycle[keys[i]].Reserved? || t.lifecycle[keys[i]].ProviderStarted?)
    ensures t.lifecycle[keys[i]].leaseExpiresAt < now
    ensures key !in keys ==> t.lifecycle[keys[i]].leaseExpiresAt <= t.lifecycle[key].leaseExpiresAt
    ensures forall j | i < j < |keys| && keys[j] == key :: t.lifecycle[keys[i]].leaseExpiresAt <= t.lifecycle[key].leaseExpiresAt
  {
    assert keys[i] in keys && key in StaleKeys(t, now);
  }

  class D1ManagedAiOperationClaimRepository {
    var claims: map<Id, ClaimRow>
    var lifecycle: map<Id, LifecycleRow>
    const usage: D1UsageLimiter

    ghost function Contents(): Tables
      reads this, usage
    {
      Tables(claims, lifecycle, usage.rows)
    }

    constructor (limiter: D1UsageLimiter)
      ensures claims == map[] && lifecycle == map[] && usage == limiter
    {
      claims, lifecycle, usage := map[], map[], limiter;
    }

    predicate StillBound(c: Claim)
      reads this
    {
      c.key in claims && claims[c.key].fingerprint == c.fingerprint && claims[c.key].createdAt == c.createdAt
    }

    predicate StillReserved(c: Claim)
      reads this
    {
      c.key in lifecycle && lifecycle[c.key].Reserved? && lifecycle[c.key].reservationId == c.reservationId
    }

    predicate IsReferenced(reservationId: Id)
      reads this
    {
      exists key | key in lifecycle ::
        !lifecycle[key].LegacyBlocked? && lifecycle[key].reservationId == reservationId
    }

    method Find(key: Id) returns (found: Option<Found>)
      ensures found == FindLifecycle(Contents(), key)
    {
      if key in claims && key in lifecycle {
        return Some(Found(claims[key], lifecycle[key]));
      }
      return None;
    }

    method ReserveOrReplay(c: Claim, expiresAt: nat, lease: nat) returns (result: ReserveClaimResult)
      modifies this
      ensures (result, Contents()) == ReserveClaim(old(Contents()), c, expiresAt, lease)
    {
      var existing := Find(c.key);
      if existing.Some? {
        var found := existing.value;
        if !SameRequest(found, c.fingerprint, c.terms) {
          return Conflict;
        }
        if !(found.row.Settled? && found.row.reuseAfter < c.createdAt) {
          return Replayed(found);
        }
        // The batch: each UPDATE repeats the conditions it was planned under.
        var seen := ClaimOf(c.key, found);
        var first := StillBound(seen) && lifecycle[c.key].Settled? && lifecycle[c.key].reuseAfter < c.createdAt;
        if first {
          claims := claims[c.key := ClaimRow(c.fingerprint, c.terms, c.createdAt, expiresAt)];
        }
        var second := lifecycle[c.key].Settled? && lifecycle[c.key].reuseAfter < c.createdAt
                      && lifecycle[c.key].reservationId == seen.reservationId;
        if second {
          lifecycle := lifecycle[c.key := Reserved(c.reservationId, lease)];
        }
        return if first && second then FreshClaim(c)
               else if first || second then UnexpectedRowCount else Replayed(found);
      }
      if c.key in claims || c.key in lifecycle || IsReferenced(c.reservationId) {
        return NotPersisted;
      }
      claims := claims[c.key := ClaimRow(c.fingerprint, c.terms, c.createdAt, expiresAt)];
      lifecycle := lifecycle[c.key := Reserved(c.reservationId, lease)];
      return FreshClaim(c);
    }

    method TakeOver(c: Claim, now: nat, lease: nat) returns (ok: bool)
      modifies this
      ensures (ok, Contents()) == TakeOverReserved(old(Contents()), c, now, lease)
    {
      ok := StillReserved(c) && lifecycle[c.key].leaseExpiresAt < now && StillBound(c);
      if ok {
        lifecycle := lifecycle[c.key := Reserved(c.reservationId, lease)];
      }
    }

    method StartProvider(c: Claim, at: nat) returns (ok: bool)
      modifies this
      ensures (ok, Contents()) == MarkProviderStarted(old(Contents()), c, at)
    {
      ok := StillReserved(c) && at <= lifecycle[c.key].leaseExpiresAt && StillBound(c);
      if ok {
        lifecycle := lifecycle[c.key := ProviderStarted(c.reservationId, lifecycle[c.key].leaseExpiresAt, at)];
      }
    }

    method Settle(c: Claim, expectStarted: bool, at: nat) returns (ok: bool)
      modifies this
      ensures (ok, Contents()) == MarkSettled(old(Contents()), c, expectStarted, at)
    {
      if c.key !in lifecycle || !StillBound(c) {
        return false;
      }
      var row := lifecycle[c.key];
      ok := (if expectStarted then row.ProviderStarted? && row.startedAt <= at else row.Reserved?)
        && row.reservationId == c.reservationId;
      if ok {
        lifecycle := lifecycle[c.key := Settled(c.reservationId, at, at + RETENTION_SECONDS)];
      }
    }

    method Abandon(c: Claim) returns (ok: bool)
      modifies this
      ensures (ok, Contents()) == AbandonReserved(old(Contents()), c)
    {
      ok := StillBound(c) && StillReserved(c);
      if ok {
        claims, lifecycle := claims - {c.key}, lifecycle - {c.key};
      }
    }

    method AbandonExpired(c: Claim, now: nat) returns (ok: bool)
      modifies this
      ensures (ok, Contents()) == AbandonExpiredReserved(old(Contents()), c, now)
    {
      ok := StillBound(c) && StillReserved(c) && lifecycle[c.key].leaseExpiresAt < now;
      if ok {
        claims, lifecycle := claims - {c.key}, lifecycle - {c.key};
      }
    }

    method ReleaseExpired(c: Claim, now: nat) returns (released: bool, abandoned: bool)
      modifies this, usage
      ensures (released, abandoned, Contents()) == ReleaseExpiredReserved(old(Contents()), c, now)
    {
      released := c.reservationId in usage.rows && usage.rows[c.reservationId].status.Held?
        && StillBound(c) && StillReserved(c) && lifecycle[c.key].leaseExpiresAt < now;
      if released {
        usage.rows := ReleaseAt(usage.rows, c.reservationId, now);
      }
      abandoned := AbandonExpired(c, now);
    }

    method ReleaseOrphan(c: Claim, now: nat) returns (ok: bool)
      modifies usage
      ensures (ok, Contents()) == ReleaseOrphaned(old(Contents()), c, now)
    {
      ok := c.reservationId in usage.rows && usage.rows[c.reservationId].status.Held?
        && usage.rows[c.reservationId].fingerprint == c.fingerprint && !IsReferenced(c.reservationId);
      if ok {
        usage.rows := ReleaseAt(usage.rows, c.reservationId, now);
      }
    }

    method Least(pending: set<Id>) returns (least: Id)
      requires pending != {} && pending <= lifecycle.Keys
      ensures least in pending
      ensures forall key | key in pending && key != least :: Before(lifecycle, least, key)
    {
      least :| least in pending;
      var rest := pending - {least};
      while rest != {}
        invariant least in pending && rest <= pending && least !in rest
        invariant forall key | key in pending && key !in rest && key != least :: Before(lifecycle, least, key)
      {
        var key :| key in rest;
        rest := rest - {key};
        if Before(lifecycle, key, least) {
          least := key;
        }
      }
    }

    method SelectKeys(limit: nat, now: nat) returns (keys: seq<Id>)
      ensures IsSelection(Contents(), keys, limit, now)
    {
      keys := [];
      var pending := set key | key in lifecycle && key in claims && IsStale(lifecycle[key], now);
      ghost var all := pending;
      while pending != {} && |keys| < limit
        invariant all == StaleKeys(Contents(), now)
        invariant |keys| <= limit && |keys| + |pending| == |all|
        invariant forall key :: key in all <==> key in keys || key in pending
        invariant forall i, j | 0 <= i < j < |keys| :: Before(lifecycle, keys[i], keys[j])
        invariant forall i, key | 0 <= i < |keys| && key in pending :: Before(lifecycle, keys[i], key)
        decreases |pending|
      {
        var key := Least(pending);
        keys, pending := keys + [key], pending - {key};
      }
    }

    method ListStale(limit: nat, now: nat) returns (rows: seq<StaleRow>)
      ensures IsStaleSelection(Contents(), rows, limit, now)
    {
      var keys := SelectKeys(limit, now);
      rows := [];
      for i := 0 to |keys|
        invariant |rows| == i
        invariant forall j | 0 <= j < i :: rows[j].claim.key == keys[j] && Lists(Contents(), rows[j], now)
      {
        var key := keys[i];
        assert key in keys && key in StaleKeys(Contents(), now);
        rows := rows + [RowOf(Tables(claims, lifecycle, usage.rows), key)];
      }
    }
  }

  // ----- reconcileJudgeManagedStructuredAiOperations -----

  /** A pass with other arguments throws and changes nothing. Otherwise it changes the tables
    * exactly as ReconcileRows says for the selected rows. On a recoverable table no row fails
    * and each one comes to rest, a started one charged with its whole reservation unless it
    * was charged before. When at most `limit` rows are stale, none is left. */
  method Reconcile(repository: D1ManagedAiOperationClaimRepository, limit: int, retentionSeconds: int, now: nat)
    returns (result: Option<Counts>, ghost rows: seq<StaleRow>)
    modifies repository, repository.usage
    ensures result.Some? <==> 1 <= limit <= 20 && retentionSeconds == 90_000
    ensures result.None? ==> repository.Contents() == old(repository.Contents())
    ensures result.Some? ==>
              && IsStaleSelection(old(repository.Contents()), rows, limit, now)
              && (result.value, repository.Contents()) == ReconcileRows(old(repository.Contents()), rows, now)
              && result.value.attempted == |rows| == result.value.failed + result.value.released + result.value.settled
    ensures result.Some? && Recoverable(old(repository.Contents()), now) ==>
              && result.value == Counts(|rows|, 0, |rows| - StartedIn(rows), StartedIn(rows))
              && Recoverable(repository.Contents(), now)
              && (forall row | row in rows :: AtRest(repository.Contents(), row, now)
                    && Accounted(old(repository.Contents()).usage, repository.Contents().usage, row, now))
    ensures result.Some? && Recoverable(old(repository.Contents()), now)
            && |StaleKeys(old(repository.Contents()), now)| <= limit ==>
              && Keys(rows) == StaleKeys(old(repository.Contents()), now)
              && forall key | key in repository.lifecycle :: Quiescent(repository.lifecycle[key], now)
  {
    rows := [];
    if limit < 1 || limit > 20 || retentionSeconds != RETENTION_SECONDS {
      return None, rows;
    }
    ghost var t := repository.Contents();
    var listed := repository.ListStale(limit, now);
    rows := listed;
    var counts := ReconcileListed(repository, listed, now);
    result := Some(counts);
    if Recoverable(t, now) {
      PassLeavesNothingStale(t, listed, limit, now);
    }
  }

  /** The loop over the listed rows. */
  method ReconcileListed(repository: D1ManagedAiOperationClaimRepository, rows: seq<StaleRow>, now: nat)
    returns (counts: Counts)
    modifies repository, repository.usage
    ensures (counts, repository.Contents()) == ReconcileRows(old(repository.Contents()), rows, now)
    ensures counts.attempted == |rows| == counts.failed + counts.released + counts.settled
  {
    counts := Counts(|rows|, 0, 0, 0);
    for i := 0 to |rows|
      invariant (counts.(attempted := i), repository.Contents()) == ReconcileRows(old(repository.Contents()), rows[..i], now)
      invariant counts.attempted == |rows| && i == counts.failed + counts.released + counts.settled
    {
      var outcome := ReconcileOne(repository, rows[i], now);
      match outcome {
        case RowFailed => counts := counts.(failed := counts.failed + 1);
        case RowReleased => counts := counts.(released := counts.released + 1);
        case RowSettled => counts := counts.(settled := counts.settled + 1);
      }
      assert rows[..i+1][..i] == rows[..i];
    }
    assert rows[..|rows|] == rows;
  }

  /** The body of the loop: one row, with every failure caught. */
  method ReconcileOne(repository: D1ManagedAiOperationClaimRepository, row: StaleRow, now: nat)
    returns (outcome: RowOutcome)
    modifies repository, repository.usage
    ensures (outcome, repository.Contents()) == ReconcileRow(old(repository.Contents()), row, now)
  {
    var c := row.claim;
    var found := repository.usage.FindReservation(c.reservationId);
    if !row.started {
      if found.Some? && !Matches(c.fingerprint, c.terms, found.value) {
        return RowFailed;
      }
      if found.Some? && found.value.status.Finalized? {
        var settled := repository.Settle(c, false, now);
        return if settled then RowSettled else RowFailed;
      }
      if found.Some? && found.value.status.Held? {
        var released, abandoned := repository.ReleaseExpired(c, now);
        return if released && abandoned then RowReleased else RowFailed;
      }
      var abandoned := repository.AbandonExpired(c, now);
      return if abandoned then RowReleased else RowFailed;
    }
    if found.None? || !Matches(c.fingerprint, c.terms, found.value) || found.value.status.Released? {
      return RowFailed;
    }
    if found.value.status.Held? {
      var finalized := repository.usage.FinalizeFullReservation(c.reservationId, now);
      if !finalized {
        return RowFailed;
      }
    }
    var settled := repository.Settle(c, true, now);
    return if settled then RowSettled else RowFailed;
  }

  /** The rows of a selection are distinct listed rows, and few stale rows are all selected. */
  lemma SelectionLists(t: Tables, rows: seq<StaleRow>, limit: nat, now: nat)
    requires IsStaleSelection(t, rows, limit, now)
    ensures |rows| <= limit && DistinctKeys(rows)
    ensures forall row | row in rows :: Lists(t, row, now)
    ensures |StaleKeys(t, now)| <= limit ==> Keys(rows) == StaleKeys(t, now)
  {
    var keys: seq<Id> :| IsSelection(t, keys, limit, now) && |rows| == |keys|
      && forall i | 0 <= i < |rows| :: rows[i].claim.key == keys[i] && Lists(t, rows[i], now);
    assert forall row | row in rows :: Lists(t, row, now) && row.claim.key in StaleKeys(t, now);
    if |StaleKeys(t, now)| <= limit {
      DistinctKeysCount(rows);
      SubsetOfSameSize(Keys(rows), StaleKeys(t, now));
    }
  }

  /** When all stale rows have come to rest, every row is quiescent. */
  lemma RestIsQuiescent(t: Tables, t': Tables, rows: seq<StaleRow>, now: nat)
    requires t.claims.Keys == t.lifecycle.Keys && Keys(rows) == StaleKeys(t, now)
    requires OnlyTouches(t, t', Keys(rows), Reservations(rows))
    requires forall row | row in rows :: AtRest(t', row, now)
    ensures forall key | key in t'.lifecycle :: Quiescent(t'.lifecycle[key], now)
  {
    forall key | key in t'.lifecycle
      ensures Quiescent(t'.lifecycle[key], now)
    {
      if key in Keys(rows) {
        var row :| row in rows && row.claim.key == key;
        assert AtRest(t', row, now);
      } else {
        OutsideIsSame(t.lifecycle, t'.lifecycle, Keys(rows), key);
      }
    }
  }

  lemma PassLeavesNothingStale(t: Tables, rows: seq<StaleRow>, limit: nat, now: nat)
    requires Recoverable(t, now) && IsStaleSelection(t, rows, limit, now)
    ensures var (counts, t') := ReconcileRows(t, rows, now);
            && counts == Counts(|rows|, 0, |rows| - StartedIn(rows), StartedIn(rows)) && Recoverable(t', now)
            && (forall row | row in rows :: AtRest(t', row, now) && Accounted(t.usage, t'.usage, row, now))
            && (|StaleKeys(t, now)| <= limit ==>
                  && Keys(rows) == StaleKeys(t, now)
                  && forall key | key in t'.lifecycle :: Quiescent(t'.lifecycle[key], now))
  {
    SelectionLists(t, rows, limit, now);
    RowsComeToRest(t, rows, now);
    if |StaleKeys(t, now)| <= limit { RestIsQuiescent(t, ReconcileRows(t, rows, now).1, rows, now); }
  }

  lemma {:induction false} DistinctKeysCount(rows: seq<StaleRow>)
    requires DistinctKeys(rows)
    ensures |Keys(rows)| == |rows|
    decreases |rows|
  {
    if rows != [] {
      var front, last := rows[..|rows|-1], rows[|rows|-1];
      DistinctKeysCount(front);
      assert rows == front + [last];
      assert Keys(rows) == Keys(front) + {last.claim.key};
    }
  }

  lemma {:induction false} SubsetOfSameSize(a: set<Id>, b: set<Id>)
    requires a <= b && |a| == |b|
    ensures a == b
    decreases |a|
  {
    if a == {} {
      assert b == {};
    } else {
      var x :| x in a;
      SubsetOfSameSize(a - {x}, b - {x});
      assert b == (b - {x}) + {x};
    }
  }
}
