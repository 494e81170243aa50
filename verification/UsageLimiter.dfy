/** D1UsageLimiter as the object the rest of the system calls. */
module UsageLimiter {
  import opened Basics
  import opened UsageLedger

  /** The SUM of the rolling query, row by row. */
  method SumCharges(rows: Ledger, at: int) returns (total: nat)
    ensures total == RollingCost(rows, at)
  {
    total := 0;
    var rest := rows;
    while rest != map[]
      invariant total + RollingCost(rest, at) == RollingCost(rows, at)
      decreases |rest|
    {
      var id :| id in rest;
      RollingCostSplit(rest, id, at);
      total := total + Charge(rest[id], at);
      rest := rest - {id};
    }
  }

  class D1UsageLimiter {
    var rows: Ledger

    constructor ()
      ensures rows == map[]
    {
      rows := map[];
    }

    method FindReservation(id: Id) returns (found: Option<Reservation>)
      ensures found == if id in rows then Some(rows[id]) else None
    {
      if id in rows {
        return Some(rows[id]);
      }
      return None;
    }

    method ReserveNamed(id: Id, fingerprint: Id, subject: Subject, terms: Id, usage: Usage,
                        now: nat, ttlSeconds: nat, otherLimits: bool) returns (outcome: ReserveOutcome)
      modifies this
      ensures (outcome, rows) == ReserveWithId(old(rows), id, fingerprint, subject, terms, usage, now, ttlSeconds, otherLimits)
    {
      if id in rows {
        if SameReservation(rows[id], fingerprint, subject, terms, usage) && !rows[id].status.Released? {
          return Allowed(rows[id].activeUntil);
        }
        return Failed;
      }
      var spent := SumCharges(rows, now);
      if !otherLimits || spent + usage.costMicroUsd > CEILING_MICRO_USD {
        return Denied;
      }
      if !InAppendOrder(rows, now) || FingerprintHeld(rows, fingerprint) {
        return Failed;
      }
      rows := rows[id := Reservation(fingerprint, subject, terms, usage, now, now + ttlSeconds, Held)];
      return Allowed(now + ttlSeconds);
    }

    /** The guarded UPDATE shared by both finalizing statements. */
    method TryFinalize(id: Id, actual: Usage, now: nat) returns (changed: bool)
      modifies this
      ensures changed == MayFinalize(old(rows), id, actual, now)
      ensures rows == if changed then old(rows)[id := AsFinalized(old(rows)[id], actual, now)] else old(rows)
    {
      if id !in rows || !rows[id].status.Held? || !actual.Within(rows[id].estimated) || now < rows[id].reservedAt {
        return false;
      }
      var others := SumCharges(rows - {id}, now);
      if others + actual.costMicroUsd > CEILING_MICRO_USD {
        return false;
      }
      rows := rows[id := AsFinalized(rows[id], actual, now)];
      return true;
    }

    method FinalizeActual(id: Id, actual: Usage, now: nat) returns (ok: bool)
      modifies this
      ensures (ok, rows) == Finalize(old(rows), id, actual, now)
    {
      ok := TryFinalize(id, actual, now);
      if !ok {
        ok := id in rows && rows[id].status.Finalized? && rows[id].status.actual == actual;
      }
    }

    method FinalizeFullReservation(id: Id, now: nat) returns (ok: bool)
      modifies this
      ensures (ok, rows) == FinalizeFull(old(rows), id, now)
    {
      if id !in rows {
        return false;
      }
      ok := TryFinalize(id, rows[id].estimated, now);
    }

    method ReleaseReservation(id: Id, now: nat) returns (ok: bool)
      modifies this
      ensures (ok, rows) == Release(old(rows), id, now)
    {
      if id in rows && rows[id].status.Held? && rows[id].reservedAt <= now {
        rows := rows[id := rows[id].(status := Released(now))];
        return true;
      }
      ok := id in rows && rows[id].status.Released?;
    }
  }
}
