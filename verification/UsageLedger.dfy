/** The judge_usage_reservations table with its constraints and triggers, and the
  * D1UsageLimiter that writes to it. The table protects one number: the judge may
  * spend at most USD 25 in any rolling 24 hours. */
module UsageLedger {
  import opened Basics

  const CEILING_MICRO_USD: nat := 25_000_000
  const ROLLING_WINDOW_SECONDS: nat := 86_400

  datatype Usage = Usage(
    costMicroUsd: nat,
    inputTokens: nat,
    outputTokens: nat,
    generationCount: nat,
    realtimeSeconds: nat)
  {
    predicate Within(bound: Usage) {
      && costMicroUsd <= bound.costMicroUsd
      && inputTokens <= bound.inputTokens
      && outputTokens <= bound.outputTokens
      && generationCount <= bound.generationCount
      && realtimeSeconds <= bound.realtimeSeconds
    }
  }

  datatype Status =
    | Held
    | Finalized(actual: Usage, finalizedAt: nat)
    | Released(releasedAt: nat)

  // Who uses: `holder` stands for account and meeting, `ip` for the hashed address.
  datatype Subject = Subject(holder: Id, ip: Id)

  // `terms` stands for operation, model and pricing version, compared as a whole.
  datatype Reservation = Reservation(
    fingerprint: Id,
    subject: Subject,
    terms: Id,
    estimated: Usage,
    reservedAt: nat,
    activeUntil: nat,
    status: Status)

  type Ledger = map<Id, Reservation>

  // ----- The rolling sum -----

  /** What one row contributes to the 24 hours ending at `at`. */
  function Charge(r: Reservation, at: int): nat {
    match r.status
    case Held => r.estimated.costMicroUsd
    case Finalized(actual, finalizedAt) =>
      if finalizedAt > at - ROLLING_WINDOW_SECONDS then actual.costMicroUsd else 0
    case Released(_) => 0
  }

  ghost function RollingCost(rows: Ledger, at: int): nat
    decreases |rows|
  {
    if rows == map[] then 0
    else
      var id :| id in rows;
      Charge(rows[id], at) + RollingCost(rows - {id}, at)
  }

  /** The sum does not depend on the order in which rows are visited. */
  lemma {:induction false} RollingCostSplit(rows: Ledger, id: Id, at: int)
    requires id in rows
    ensures RollingCost(rows, at) == Charge(rows[id], at) + RollingCost(rows - {id}, at)
    decreases |rows|
  {
    var first :| first in rows
      && RollingCost(rows, at) == Charge(rows[first], at) + RollingCost(rows - {first}, at);
    if first != id {
      RollingCostSplit(rows - {first}, id, at);
      RollingCostSplit(rows - {id}, first, at);
      assert rows - {first} - {id} == rows - {id} - {first};
    }
  }

  lemma RollingCostUpdate(rows: Ledger, id: Id, r: Reservation, at: int)
    ensures RollingCost(rows[id := r], at) == Charge(r, at) + RollingCost(rows - {id}, at)
  {
    RollingCostSplit(rows[id := r], id, at);
    assert rows[id := r] - {id} == rows - {id};
  }

  /** As the window moves forward, finalized rows only drop out of it. */
  lemma {:induction false} RollingCostAntitone(rows: Ledger, at: int, later: int)
    requires at <= later
    ensures RollingCost(rows, later) <= RollingCost(rows, at)
    decreases |rows|
  {
    if rows != map[] {
      var id :| id in rows;
      RollingCostSplit(rows, id, at);
      RollingCostSplit(rows, id, later);
      RollingCostAntitone(rows - {id}, at, later);
    }
  }

  // ----- Statements on the table -----

  predicate SameReservation(r: Reservation, fingerprint: Id, subject: Subject, terms: Id, usage: Usage) {
    r.fingerprint == fingerprint && r.subject == subject && r.terms == terms && r.estimated == usage
  }

  /** The append-order trigger: no row may be older than a row that still counts. */
  predicate InAppendOrder(rows: Ledger, now: nat) {
    forall id | id in rows && !rows[id].status.Released? :: rows[id].reservedAt <= now
  }

  /** The partial unique index: one held row for each request fingerprint. */
  predicate FingerprintHeld(rows: Ledger, fingerprint: Id) {
    exists id | id in rows :: rows[id].status.Held? && rows[id].fingerprint == fingerprint
  }

  datatype ReserveOutcome = Allowed(activeUntil: nat) | Denied | Failed

  // `otherLimits` says whether the request, seconds, token, generation and concurrency
  // limits of the deployment admit the request.
  ghost function ReserveWithId(rows: Ledger, id: Id, fingerprint: Id, subject: Subject, terms: Id, usage: Usage,
                               now: nat, ttlSeconds: nat, otherLimits: bool): (ReserveOutcome, Ledger)
  {
    if id in rows then
      if SameReservation(rows[id], fingerprint, subject, terms, usage) && !rows[id].status.Released?
      then (Allowed(rows[id].activeUntil), rows)
      else (Failed, rows)
    else if !otherLimits || RollingCost(rows, now) + usage.costMicroUsd > CEILING_MICRO_USD then
      (Denied, rows)
    else if !InAppendOrder(rows, now) || FingerprintHeld(rows, fingerprint) then
      (Failed, rows)
    else
      (Allowed(now + ttlSeconds),
       rows[id := Reservation(fingerprint, subject, terms, usage, now, now + ttlSeconds, Held)])
  }

  /** The UPDATE to 'finalized' passes its guard, the row CHECK and the cost trigger. */
  ghost predicate MayFinalize(rows: Ledger, id: Id, actual: Usage, now: nat) {
    && id in rows
    && rows[id].status.Held?
    && actual.Within(rows[id].estimated)
    && rows[id].reservedAt <= now
    && RollingCost(rows - {id}, now) + actual.costMicroUsd <= CEILING_MICRO_USD
  }

  function AsFinalized(r: Reservation, actual: Usage, now: nat): Reservation {
    r.(status := Finalized(actual, now))
  }

  /** D1UsageLimiter.finalize: repeating the same actual usage is accepted. */
  ghost function Finalize(rows: Ledger, id: Id, actual: Usage, now: nat): (bool, Ledger) {
    if MayFinalize(rows, id, actual, now) then
      (true, rows[id := AsFinalized(rows[id], actual, now)])
    else
      (id in rows && rows[id].status.Finalized? && rows[id].status.actual == actual, rows)
  }

  /** The reconciler's statement: charge the whole reservation. */
  ghost function FinalizeFull(rows: Ledger, id: Id, now: nat): (bool, Ledger) {
    if id in rows && MayFinalize(rows, id, rows[id].estimated, now) then
      (true, rows[id := AsFinalized(rows[id], rows[id].estimated, now)])
    else
      (false, rows)
  }

  /** The reconciler's release statements clamp the epoch to the reservation's own. */
  function ReleaseAt(rows: Ledger, id: Id, now: nat): Ledger
    requires id in rows && rows[id].status.Held?
  {
    rows[id := rows[id].(status := Released(Max(now, rows[id].reservedAt)))]
  }

  /** D1UsageLimiter.release: the row CHECK refuses an epoch before the reservation. */
  function Release(rows: Ledger, id: Id, now: nat): (bool, Ledger) {
    if id in rows && rows[id].status.Held? && rows[id].reservedAt <= now then
      (true, rows[id := rows[id].(status := Released(now))])
    else
      (id in rows && rows[id].status.Released?, rows)
  }

  // ----- What every run keeps -----

  /** The budget holds for the window ending at `clock` (and then for every later one),
    * and no row is charged more than it reserved. */
  ghost predicate Sound(rows: Ledger, clock: nat) {
    && RollingCost(rows, clock) <= CEILING_MICRO_USD
    && (forall id | id in rows :: rows[id].reservedAt <= clock)
    && (forall id | id in rows && rows[id].status.Finalized? ::
          rows[id].status.actual.Within(rows[id].estimated)
          && rows[id].reservedAt <= rows[id].status.finalizedAt)
  }

  /** Rows are never deleted, their terms never change, and 'finalized' and 'released'
    * are final. */
  predicate Frozen(before: Ledger, after: Ledger) {
    forall id | id in before ::
      && id in after
      && after[id] == before[id].(status := after[id].status)
      && (!before[id].status.Held? ==> after[id] == before[id])
  }

  lemma SoundLater(rows: Ledger, clock: nat, later: nat)
    requires Sound(rows, clock) && clock <= later
    ensures Sound(rows, later)
  {
    RollingCostAntitone(rows, clock, later);
  }

  /** Admission uses the limiter's own, possibly stale, epoch and still keeps the budget. */
  lemma ReserveKeepsBudget(rows: Ledger, id: Id, fingerprint: Id, subject: Subject, terms: Id,
                           usage: Usage, now: nat, ttlSeconds: nat, otherLimits: bool, clock: nat)
    requires Sound(rows, clock) && now <= clock
    ensures var (outcome, rows') := ReserveWithId(rows, id, fingerprint, subject, terms, usage, now, ttlSeconds, otherLimits);
            Sound(rows', clock) && Frozen(rows, rows')
  {
    var (outcome, rows') := ReserveWithId(rows, id, fingerprint, subject, terms, usage, now, ttlSeconds, otherLimits);
    if rows' != rows {
      RollingCostAntitone(rows, now, clock);
      RollingCostUpdate(rows, id, rows'[id], clock);
      assert rows - {id} == rows;
    }
  }

  lemma FinalizeKeepsBudget(rows: Ledger, id: Id, actual: Usage, now: nat, clock: nat)
    requires Sound(rows, clock) && MayFinalize(rows, id, actual, now)
    ensures Sound(rows[id := AsFinalized(rows[id], actual, now)], clock)
    ensures Frozen(rows, rows[id := AsFinalized(rows[id], actual, now)])
  {
    RollingCostSplit(rows, id, clock);
    RollingCostUpdate(rows, id, AsFinalized(rows[id], actual, now), clock);
  }

  lemma ReleaseKeepsBudget(rows: Ledger, id: Id, at: nat, clock: nat)
    requires Sound(rows, clock) && id in rows && rows[id].status.Held?
    ensures Sound(rows[id := rows[id].(status := Released(at))], clock)
    ensures Frozen(rows, rows[id := rows[id].(status := Released(at))])
  {
    RollingCostSplit(rows, id, clock);
    RollingCostUpdate(rows, id, rows[id].(status := Released(at)), clock);
  }

  /** With an up-to-date epoch the cost trigger can never refuse to finalize: a held row
    * already counts with its full estimate. */
  lemma FreshFinalizeIsNeverRefused(rows: Ledger, id: Id, actual: Usage, now: nat)
    requires Sound(rows, now)
    requires id in rows && rows[id].status.Held?
    ensures MayFinalize(rows, id, actual, now) <==> actual.Within(rows[id].estimated)
  {
    RollingCostSplit(rows, id, now);
  }

  // ----- Every run of the ledger -----

  datatype Op =
    | ReserveOp(id: Id, fingerprint: Id, subject: Subject, terms: Id, usage: Usage, ttlSeconds: nat, otherLimits: bool)
    | FinalizeOp(id: Id, actual: Usage)
    | FinalizeFullOp(id: Id)
    | ReleaseOp(id: Id)
    | ReconcilerReleaseOp(id: Id)

  ghost function Apply(rows: Ledger, op: Op, now: nat): Ledger {
    match op
    case ReserveOp(id, fingerprint, subject, terms, usage, ttl, otherLimits) =>
      ReserveWithId(rows, id, fingerprint, subject, terms, usage, now, ttl, otherLimits).1
    case FinalizeOp(id, actual) => Finalize(rows, id, actual, now).1
    case FinalizeFullOp(id) => FinalizeFull(rows, id, now).1
    case ReleaseOp(id) => Release(rows, id, now).1
    case ReconcilerReleaseOp(id) =>
      if id in rows && rows[id].status.Held? then ReleaseAt(rows, id, now) else rows
  }

  // A timed operation: the time it happens and the epoch its caller read earlier.
  datatype Timed = Timed(op: Op, readAt: nat, at: nat)

  predicate Chronological(run: seq<Timed>, from: nat) {
    && (forall i | 0 <= i < |run| :: from <= run[i].at && run[i].readAt <= run[i].at)
    && (forall i, j | 0 <= i < j < |run| :: run[i].at <= run[j].at)
  }

  ghost function Replay(rows: Ledger, run: seq<Timed>): Ledger {
    if run == [] then rows else Apply(Replay(rows, run[..|run|-1]), run[|run|-1].op, run[|run|-1].readAt)
  }

  lemma ApplyKeepsBudget(rows: Ledger, op: Op, now: nat, clock: nat)
    requires Sound(rows, clock) && now <= clock
    ensures Sound(Apply(rows, op, now), clock) && Frozen(rows, Apply(rows, op, now))
  {
    match op
    case ReserveOp(id, fingerprint, subject, terms, usage, ttl, otherLimits) =>
      ReserveKeepsBudget(rows, id, fingerprint, subject, terms, usage, now, ttl, otherLimits, clock);
    case FinalizeOp(id, actual) =>
      if MayFinalize(rows, id, actual, now) { FinalizeKeepsBudget(rows, id, actual, now, clock); }
    case FinalizeFullOp(id) =>
      if id in rows && MayFinalize(rows, id, rows[id].estimated, now) {
        FinalizeKeepsBudget(rows, id, rows[id].estimated, now, clock);
      }
    case ReleaseOp(id) =>
      if id in rows && rows[id].status.Held? { ReleaseKeepsBudget(rows, id, now, clock); }
    case ReconcilerReleaseOp(id) =>
      if id in rows && rows[id].status.Held? {
        ReleaseKeepsBudget(rows, id, Max(now, rows[id].reservedAt), clock);
      }
  }

  /** In every run, however stale the epochs callers use, the rolling 24-hour cost at
    * the time of the last operation is at most USD 25. */
  lemma {:induction false} BudgetHoldsInEveryRun(run: seq<Timed>, clock: nat)
    requires Chronological(run, 0)
    requires forall i | 0 <= i < |run| :: run[i].at <= clock
    ensures Sound(Replay(map[], run), clock)
    ensures RollingCost(Replay(map[], run), clock) <= CEILING_MICRO_USD
    decreases |run|
  {
    if run != [] {
      var last := run[|run|-1];
      BudgetHoldsInEveryRun(run[..|run|-1], last.at);
      ApplyKeepsBudget(Replay(map[], run[..|run|-1]), last.op, last.readAt, last.at);
      SoundLater(Replay(map[], run), last.at, clock);
    }
  }

  // ----- A stale epoch can be refused -----

  const SOMEBODY: Subject := Subject(0, 0)
  const BIG := Usage(20_000_000, 0, 0, 0, 0)
  const SMALL := Usage(5_000_000, 0, 0, 0, 0)
  const SPENT := Reservation(0, SOMEBODY, 0, BIG, 0, 60, Finalized(BIG, 0))
  const WAITING := Reservation(1, SOMEBODY, 0, SMALL, 10, 70, Held)
  const NEWER := Reservation(2, SOMEBODY, 0, BIG, 86_401, 86_461, Held)

  // 20 USD are reserved and finalized at second 0, 5 USD reserved at second 10, and
  // another 20 USD admitted once the first have left the window.
  const CROWDING: seq<Timed> := [
    Timed(ReserveOp(0, 0, SOMEBODY, 0, BIG, 60, true), 0, 0),
    Timed(FinalizeOp(0, BIG), 0, 0),
    Timed(ReserveOp(1, 1, SOMEBODY, 0, SMALL, 60, true), 10, 10),
    Timed(ReserveOp(2, 2, SOMEBODY, 0, BIG, 60, true), 86_401, 86_401)]

  lemma RollingCostOfTwo(a: Id, ra: Reservation, b: Id, rb: Reservation, at: int)
    requires a != b
    ensures RollingCost(map[a := ra], at) == Charge(ra, at)
    ensures RollingCost(map[a := ra, b := rb], at) == Charge(ra, at) + Charge(rb, at)
  {
    RollingCostSplit(map[a := ra], a, at);
    assert map[a := ra] - {a} == map[];
    RollingCostSplit(map[a := ra, b := rb], b, at);
    assert map[a := ra, b := rb] - {b} == map[a := ra];
  }

  lemma FirstHalfOfCrowding()
    ensures Replay(map[], CROWDING[..2]) == map[0 := SPENT]
  {
    var r0: Ledger := map[];
    var r1: Ledger := map[0 := SPENT.(status := Held)];
    assert CROWDING[..2][..1] == CROWDING[..1] && CROWDING[..1][..0] == [];
    assert Replay(r0, CROWDING[..1]) == Apply(r0, CROWDING[0].op, 0) == r1;
    assert r1 - {0} == r0;
    assert Replay(r0, CROWDING[..2]) == Apply(r1, CROWDING[1].op, 0);
  }

  lemma CrowdedLedger()
    ensures Replay(map[], CROWDING) == map[0 := SPENT, 1 := WAITING, 2 := NEWER]
  {
    var r0: Ledger := map[];
    var r2: Ledger := map[0 := SPENT];
    var r3: Ledger := map[0 := SPENT, 1 := WAITING];
    FirstHalfOfCrowding();
    assert CROWDING[..3][..2] == CROWDING[..2] && CROWDING[..4] == CROWDING;
    RollingCostOfTwo(0, SPENT, 1, WAITING, 10);
    assert Replay(r0, CROWDING[..3]) == Apply(r2, CROWDING[2].op, 10) == r3;
    RollingCostOfTwo(0, SPENT, 1, WAITING, 86_401);
    assert Replay(r0, CROWDING) == Apply(r3, CROWDING[3].op, 86_401);
  }

  /** After that run, a finalization that carries epoch 20 counts the first 20 USD again
    * and is refused, although it asks for no more than its reservation. */
  lemma StaleFinalizeCanBeRefused()
    ensures Chronological(CROWDING, 0)
    ensures var rows := Replay(map[], CROWDING);
            1 in rows && rows[1].status.Held? && rows[1].reservedAt <= 20
            && !MayFinalize(rows, 1, rows[1].estimated, 20)
            && MayFinalize(rows, 1, rows[1].estimated, 86_401)
  {
    CrowdedLedger();
    var rows: Ledger := map[0 := SPENT, 1 := WAITING, 2 := NEWER];
    assert rows - {1} == map[0 := SPENT, 2 := NEWER];
    RollingCostOfTwo(0, SPENT, 2, NEWER, 20);
    RollingCostOfTwo(0, SPENT, 2, NEWER, 86_401);
  }
}
