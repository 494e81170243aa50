/** runJudgeManagedStructuredAiOperation and the row loop of the reconciler as interleaved
  * actors. Every repository or limiter call is one atomic step, so an actor can be
  * overtaken, delayed for any time, or stopped for ever between any two of them. */
module ManagedRuns {
  import opened Basics
  import opened UsageLedger
  import opened ManagedClaimTables
  import opened ManagedReconcile

  // What one request brings: its claim key, fingerprint, terms, subject and the usage its
  // descriptor reserves.
  datatype Request = Request(key: Id, fingerprint: Id, terms: Id, subject: Subject, reserved: Usage)

  datatype AfterVerify = ThenTakeOver | ThenFinalize | ThenSettle(expectStarted: bool)

  // Where an actor stands: the call it makes next, with the values it carries.
  // `again` is the second reserveClaim, after abandoning a claim without reservation.
  datatype Pc =
    | Looking(again: bool)
    | Inserting(again: bool)
    | Reusing(seen: Claim, again: bool)
    | Rereading(replay: bool, again: bool)
    | FindingReserved(claim: Claim)
    | AbandoningMissing(claim: Claim)
    | FindingStarted(claim: Claim)
    | Verifying(claim: Claim, next: AfterVerify)
    | TakingOver(claim: Claim)
    | ReservingUsage(claim: Claim)
    | AbandoningDenied(claim: Claim)
    | ReadingStart(claim: Claim)
    | StartingProvider(claim: Claim, at: nat)
    | ReleasingOrphan(claim: Claim, at: nat)
    | CallingProvider(claim: Claim)
    | Finalizing(claim: Claim, actual: Usage)
    | ReadingSettlement(claim: Claim)
    | Settling(claim: Claim, expectStarted: bool, at: nat)
    | RowFinding(row: StaleRow)
    | RowReleasing(claim: Claim)
    | RowAbandoning(claim: Claim)
    | RowFinalizing(claim: Claim)
    | UnexpectedRowCount
    | Stopped

  datatype Actor =
    | Runner(request: Request, now: nat, pc: Pc)
    | Reconciler(now: nat, pc: Pc)

  // What the environment decides in a step: the fresh reservation id, the epoch the
  // limiter reads, what the provider reports, whether a reply is lost, and whether the
  // limiter's other limits admit the request.
  datatype Choice = Choice(newId: Id, epoch: nat, actual: Option<Usage>, lost: bool, otherLimits: bool)

  // History: how a claim was born (over a settled row or where there was none, at which
  // time), who started its provider, what happened in which order.
  datatype Birth = Birth(key: Id, fingerprint: Id, terms: Id, createdAt: nat, at: nat, reused: bool)
  datatype Event =
    | StartEvent(key: Id, id: Id, at: nat)
    | CallEvent(id: Id)
    | SettleEvent(key: Id, id: Id, at: nat)

  // `terms` remembers which terms a claim key stands for: the key hashes the operation,
  // and one deployment has one model and pricing version for each operation.
  datatype Shared = Shared(
    db: Tables,
    clock: nat,
    terms: map<Id, Id>,
    born: map<Id, Birth>,
    starter: map<Id, nat>,
    called: set<Id>,
    log: seq<Event>)

  // ----- Steps -----

  /** recoverReplayedClaim up to its first repository call. */
  function OnReplay(a: Actor, found: Found): Pc
    requires a.Runner?
  {
    match found.row
    case LegacyBlocked => Stopped
    case Settled(_, _, _) => Stopped
    case ProviderStarted(_, lease, _) =>
      if lease >= a.now then Stopped else FindingStarted(ClaimOf(a.request.key, found))
    case Reserved(_, lease) =>
      if lease >= a.now then Stopped else FindingReserved(ClaimOf(a.request.key, found))
  }

  function NewClaim(a: Actor, id: Id): Claim
    requires a.Runner?
  {
    Claim(a.request.key, a.request.fingerprint, a.request.terms, a.now, id)
  }

  function WithBirth(s: Shared, db: Tables, c: Claim, reused: bool): Shared {
    s.(db := db, born := s.born[c.reservationId := Birth(c.key, c.fingerprint, c.terms, c.createdAt, s.clock, reused)])
  }

  function WithUsage(s: Shared, usage: Ledger): Shared {
    s.(db := s.db.(usage := usage))
  }

  /** assertReservationMatches: identity, terms, subject and estimate. */
  predicate OwnReservation(a: Actor, c: Claim, r: Reservation)
    requires a.Runner?
  {
    SameReservation(r, c.fingerprint, a.request.subject, a.request.terms, a.request.reserved)
  }

  ghost function ReserveFor(s: Shared, a: Actor, c: Claim, choice: Choice): (ReserveOutcome, Ledger)
    requires a.Runner?
  {
    ReserveWithId(s.db.usage, c.reservationId, c.fingerprint, a.request.subject, a.request.terms,
                  a.request.reserved, choice.epoch, CLAIM_LEASE_SECONDS, choice.otherLimits)
  }

  predicate Fresh(s: Shared, id: Id) {
    id !in s.born && id !in s.db.usage
  }

  ghost function LookStep(s: Shared, a: Actor, again: bool): Pc
    requires a.Runner?
  {
    match FindLifecycle(s.db, a.request.key)
    case None => Inserting(again)
    case Some(found) =>
      if !SameRequest(found, a.request.fingerprint, a.request.terms) then Stopped
      else if found.row.Settled? && found.row.reuseAfter < a.now then Reusing(ClaimOf(a.request.key, found), again)
      else if again then Stopped
      else OnReplay(a, found)
  }

  /** The row found after the batch; a `reserved` result is not compared with the request. */
  ghost function RereadStep(s: Shared, a: Actor, replay: bool, again: bool): Pc
    requires a.Runner?
  {
    match FindLifecycle(s.db, a.request.key)
    case None => if replay then Stopped else Rereading(true, again)
    case Some(found) =>
      if !replay then
        if found.row.Reserved? then ReservingUsage(ClaimOf(a.request.key, found)) else Stopped
      else if again || !SameRequest(found, a.request.fingerprint, a.request.terms) then Stopped
      else OnReplay(a, found)
  }

  ghost function FindReservedStep(s: Shared, a: Actor, c: Claim): Pc
    requires a.Runner?
  {
    if c.reservationId !in s.db.usage then AbandoningMissing(c)
    else
      var r := s.db.usage[c.reservationId];
      if !OwnReservation(a, c, r) then Stopped
      else match r.status
        case Finalized(_, _) => Verifying(c, ThenSettle(false))
        case Released(_) => Stopped
        case Held => if r.activeUntil <= a.now then Stopped else Verifying(c, ThenTakeOver)
  }

  ghost function FindStartedStep(s: Shared, a: Actor, c: Claim): Pc
    requires a.Runner?
  {
    if c.reservationId !in s.db.usage || !OwnReservation(a, c, s.db.usage[c.reservationId]) then Stopped
    else match s.db.usage[c.reservationId].status
      case Held => Verifying(c, ThenFinalize)
      case Finalized(_, _) => Verifying(c, ThenSettle(true))
      case Released(_) => Stopped
  }

  ghost function RowFindStep(s: Shared, row: StaleRow, now: nat): Pc {
    var c := row.claim;
    if c.reservationId !in s.db.usage then
      if row.started then Stopped else RowAbandoning(c)
    else
      var r := s.db.usage[c.reservationId];
      if !Matches(c.fingerprint, c.terms, r) then Stopped
      else match r.status
        case Held => if row.started then RowFinalizing(c) else RowReleasing(c)
        case Finalized(_, _) => Settling(c, row.started, now)
        case Released(_) => if row.started then Stopped else RowAbandoning(c)
  }

  ghost function InsertStep(s: Shared, a: Actor, again: bool, choice: Choice): (Shared, Pc)
    requires a.Runner? && Fresh(s, choice.newId)
  {
    var c := NewClaim(a, choice.newId);
    var lease := a.now + CLAIM_LEASE_SECONDS;
    var (inserted, db) := InsertClaim(s.db, c, lease, lease);
    (if inserted then WithBirth(s, db, c, false) else s, Rereading(!inserted || choice.lost, again))
  }

  ghost function ReuseStep(s: Shared, a: Actor, seen: Claim, again: bool, choice: Choice): (Shared, Pc)
    requires a.Runner? && Fresh(s, choice.newId)
  {
    var c := NewClaim(a, choice.newId);
    var lease := a.now + CLAIM_LEASE_SECONDS;
    var (first, second, db) := ReplaceSettled(s.db, seen, c, lease, lease);
    if first && second then (WithBirth(s, db, c, true), if choice.lost then Stopped else Rereading(false, again))
    else if !first && !second then (s, Rereading(true, again))
    else (s.(db := db), UnexpectedRowCount)
  }

  ghost function AbandonStep(s: Shared, c: Claim, onSuccess: Pc): (Shared, Pc) {
    var (ok, db) := AbandonReserved(s.db, c);
    (s.(db := db), if ok then onSuccess else Stopped)
  }

  ghost function VerifyStep(s: Shared, a: Actor, c: Claim, next: AfterVerify, choice: Choice): (Shared, Pc)
    requires a.Runner?
  {
    var (outcome, usage) := ReserveFor(s, a, c, choice);
    (WithUsage(s, usage),
     if !outcome.Allowed? then Stopped
     else match next
       case ThenTakeOver => TakingOver(c)
       case ThenFinalize => Finalizing(c, a.request.reserved)
       case ThenSettle(expectStarted) => if expectStarted then ReadingSettlement(c) else Settling(c, false, a.now))
  }

  ghost function TakeOverStep(s: Shared, a: Actor, c: Claim): (Shared, Pc) {
    var (ok, db) := TakeOverReserved(s.db, c, a.now, a.now + CLAIM_LEASE_SECONDS);
    (s.(db := db), if ok then ReadingStart(c) else Stopped)
  }

  ghost function ReserveUsageStep(s: Shared, a: Actor, c: Claim, choice: Choice): (Shared, Pc)
    requires a.Runner?
  {
    var (outcome, usage) := ReserveFor(s, a, c, choice);
    (WithUsage(s, usage),
     match outcome
     case Allowed(_) => ReadingStart(c)
     case Denied => AbandoningDenied(c)
     case Failed => Stopped)
  }

  ghost function StartStep(s: Shared, i: nat, c: Claim, at: nat): (Shared, Pc) {
    var (ok, db) := MarkProviderStarted(s.db, c, at);
    if ok then
      (s.(db := db, starter := s.starter[c.reservationId := i],
          log := s.log + [StartEvent(c.key, c.reservationId, at)]),
       CallingProvider(c))
    else (s, ReleasingOrphan(c, at))
  }

  /** A failed provider, and a result whose billing cannot be trusted, cost the whole reservation. */
  ghost function CallStep(s: Shared, a: Actor, c: Claim, actual: Option<Usage>): (Shared, Pc)
    requires a.Runner?
  {
    (s.(called := s.called + {c.reservationId}, log := s.log + [CallEvent(c.reservationId)]),
     Finalizing(c, if actual.Some? then actual.value else a.request.reserved))
  }

  ghost function FinalizeStep(s: Shared, c: Claim, actual: Usage, epoch: nat): (Shared, Pc) {
    var (ok, usage) := Finalize(s.db.usage, c.reservationId, actual, epoch);
    (WithUsage(s, usage), if ok then ReadingSettlement(c) else Stopped)
  }

  ghost function SettleStep(s: Shared, c: Claim, expectStarted: bool, at: nat): (Shared, Pc) {
    var (ok, db) := MarkSettled(s.db, c, expectStarted, at);
    (if ok then s.(db := db, log := s.log + [SettleEvent(c.key, c.reservationId, at)]) else s, Stopped)
  }

  ghost function RowReleaseStep(s: Shared, c: Claim, now: nat): (Shared, Pc) {
    var (released, abandoned, db) := ReleaseExpiredReserved(s.db, c, now);
    (s.(db := db), if released == abandoned then Stopped else UnexpectedRowCount)
  }

  ghost function RowFinalizeStep(s: Shared, c: Claim, now: nat): (Shared, Pc) {
    var (ok, usage) := FinalizeFull(s.db.usage, c.reservationId, now);
    (WithUsage(s, usage), if ok then Settling(c, true, now) else Stopped)
  }

  /** One atomic step of actor `i`. A choice the environment cannot make changes nothing. */
  ghost function Act(s: Shared, i: nat, a: Actor, choice: Choice): (Shared, Pc) {
    if a.Runner? then
      match a.pc
      case Looking(again) => (s, LookStep(s, a, again))
      case Inserting(again) => if Fresh(s, choice.newId) then InsertStep(s, a, again, choice) else (s, a.pc)
      case Reusing(seen, again) => if Fresh(s, choice.newId) then ReuseStep(s, a, seen, again, choice) else (s, a.pc)
      case Rereading(replay, again) => (s, RereadStep(s, a, replay, again))
      case FindingReserved(c) => (s, FindReservedStep(s, a, c))
      case AbandoningMissing(c) => AbandonStep(s, c, Looking(true))
      case FindingStarted(c) => (s, FindStartedStep(s, a, c))
      case Verifying(c, next) => if choice.epoch <= s.clock then VerifyStep(s, a, c, next, choice) else (s, a.pc)
      case TakingOver(c) => TakeOverStep(s, a, c)
      case ReservingUsage(c) => if choice.epoch <= s.clock then ReserveUsageStep(s, a, c, choice) else (s, a.pc)
      case AbandoningDenied(c) => AbandonStep(s, c, Stopped)
      case ReadingStart(c) => (s, StartingProvider(c, s.clock))
      case StartingProvider(c, at) => if at < c.createdAt then (s, Stopped) else StartStep(s, i, c, at)
      case ReleasingOrphan(c, at) => (s.(db := ReleaseOrphaned(s.db, c, at).1), Stopped)
      case CallingProvider(c) => CallStep(s, a, c, choice.actual)
      case Finalizing(c, actual) => if choice.epoch <= s.clock then FinalizeStep(s, c, actual, choice.epoch) else (s, a.pc)
      case ReadingSettlement(c) => (s, Settling(c, true, s.clock))
      case Settling(c, expectStarted, at) => SettleStep(s, c, expectStarted, at)
      case _ => (s, a.pc)
    else
      match a.pc
      case RowFinding(row) => (s, RowFindStep(s, row, a.now))
      case RowReleasing(c) => RowReleaseStep(s, c, a.now)
      case RowAbandoning(c) => (s.(db := AbandonExpiredReserved(s.db, c, a.now).1), Stopped)
      case RowFinalizing(c) => RowFinalizeStep(s, c, a.now)
      case Settling(c, expectStarted, at) => SettleStep(s, c, expectStarted, at)
      case _ => (s, a.pc)
  }

  // ----- What every step keeps -----

  predicate BornAs(s: Shared, key: Id, id: Id) {
    && id in s.born && key in s.db.claims
    && s.born[id] == Birth(key, s.db.claims[key].fingerprint, s.db.claims[key].terms,
                           s.db.claims[key].createdAt, s.born[id].at, s.born[id].reused)
  }

  predicate Charged(s: Shared, id: Id) {
    id in s.db.usage && s.db.usage[id].status.Finalized?
  }

  /** A reserved claim has at most a held reservation, a started one has a reservation that
    * is not released, a settled one has a finalized reservation. */
  predicate RowSound(s: Shared, key: Id)
    requires key in s.db.lifecycle
  {
    match s.db.lifecycle[key]
    case LegacyBlocked => true
    case Reserved(id, _) =>
      && BornAs(s, key, id) && id !in s.starter
      && (id in s.db.usage ==> s.db.usage[id].status.Held?)
    case ProviderStarted(id, lease, at) =>
      && BornAs(s, key, id) && id in s.starter
      && s.born[id].at <= at <= lease
      && id in s.db.usage && !s.db.usage[id].status.Released?
    case Settled(id, at, reuse) =>
      && BornAs(s, key, id) && id in s.starter
      && s.born[id].at <= at && reuse == at + RETENTION_SECONDS
      && Charged(s, id)
  }

  predicate IsStartedRow(s: Shared, id: Id)
    requires id in s.born
  {
    var key := s.born[id].key;
    key in s.db.lifecycle && s.db.lifecycle[key].ProviderStarted? && s.db.lifecycle[key].reservationId == id
  }

  predicate BirthSound(s: Shared, id: Id)
    requires id in s.born
  {
    var b := s.born[id];
    && b.at <= s.clock
    && b.key in s.terms && s.terms[b.key] == b.terms
    && (id in s.db.usage ==> Matches(b.fingerprint, b.terms, s.db.usage[id]))
  }

  ghost predicate SharedSound(s: Shared) {
    && s.db.claims.Keys == s.db.lifecycle.Keys
    && Sound(s.db.usage, s.clock)
    && (forall key | key in s.db.lifecycle :: RowSound(s, key))
    && (forall id | id in s.born :: BirthSound(s, id))
    && (forall id | id in s.starter :: id in s.born && (IsStartedRow(s, id) || Charged(s, id)))
    && s.called <= s.starter.Keys
  }

  predicate Known(s: Shared, c: Claim) {
    c.reservationId in s.born
    && s.born[c.reservationId] == Birth(c.key, c.fingerprint, c.terms, c.createdAt,
                                        s.born[c.reservationId].at, s.born[c.reservationId].reused)
  }

  /** Once the row an actor saw is gone, the key only carries claims born after it looked. */
  predicate SeenOrNewer(s: Shared, seen: Claim, now: nat) {
    seen.key in s.db.lifecycle && !s.db.lifecycle[seen.key].LegacyBlocked? ==>
      var id := s.db.lifecycle[seen.key].reservationId;
      id == seen.reservationId || (id in s.born && now <= s.born[id].at)
  }

  predicate PcSound(s: Shared, i: nat, a: Actor) {
    match a.pc
    case Looking(_) => true
    case Inserting(_) => true
    case Rereading(_, _) => true
    case Reusing(seen, _) =>
      && a.Runner? && Known(s, seen) && seen.key == a.request.key
      && seen.fingerprint == a.request.fingerprint && SeenOrNewer(s, seen, a.now)
    case FindingReserved(c) => Known(s, c)
    case AbandoningMissing(c) => Known(s, c)
    case FindingStarted(c) => Known(s, c) && c.reservationId in s.starter
    case Verifying(c, next) =>
      && Known(s, c) && c.reservationId in s.db.usage
      && (next.ThenSettle? ==> Charged(s, c.reservationId))
      && (next.ThenFinalize? || next == ThenSettle(true) ==> c.reservationId in s.starter)
    case TakingOver(c) => Known(s, c) && c.reservationId in s.db.usage
    case ReservingUsage(c) => Known(s, c)
    case AbandoningDenied(c) => Known(s, c)
    case ReadingStart(c) => Known(s, c) && c.reservationId in s.db.usage
    case StartingProvider(c, at) =>
      Known(s, c) && c.reservationId in s.db.usage && s.born[c.reservationId].at <= at <= s.clock
    case ReleasingOrphan(c, _) => Known(s, c)
    case CallingProvider(c) =>
      && Known(s, c) && c.reservationId in s.starter && s.starter[c.reservationId] == i
      && c.reservationId !in s.called
    case Finalizing(c, _) => Known(s, c) && c.reservationId in s.starter
    case ReadingSettlement(c) => Known(s, c) && Charged(s, c.reservationId)
    case Settling(c, _, _) => Known(s, c) && Charged(s, c.reservationId)
    case RowFinding(row) => Known(s, row.claim) && (row.started ==> row.claim.reservationId in s.starter)
    case RowReleasing(c) => Known(s, c) && c.reservationId in s.db.usage
    case RowAbandoning(c) => Known(s, c)
    case RowFinalizing(c) => Known(s, c) && c.reservationId in s.starter
    case UnexpectedRowCount => false
    case Stopped => true
  }

  function ClaimAt(pc: Pc): Option<Claim> {
    match pc
    case FindingReserved(c) => Some(c)
    case AbandoningMissing(c) => Some(c)
    case FindingStarted(c) => Some(c)
    case Verifying(c, _) => Some(c)
    case TakingOver(c) => Some(c)
    case ReservingUsage(c) => Some(c)
    case _ => None
  }

  predicate ActorSound(s: Shared, i: nat, a: Actor) {
    && a.now <= s.clock
    && PcSound(s, i, a)
    && (a.Runner? ==> a.request.key in s.terms && s.terms[a.request.key] == a.request.terms)
    && (a.Runner? && ClaimAt(a.pc).Some? ==> ClaimAt(a.pc).value.key == a.request.key)
  }

  predicate SameOrNewborn(s: Shared, s': Shared, key: Id)
    requires key in s'.db.lifecycle
  {
    var row' := s'.db.lifecycle[key];
    row'.LegacyBlocked?
    || (row'.reservationId in s'.born && row'.reservationId !in s.born)
    || (key in s.db.lifecycle && !s.db.lifecycle[key].LegacyBlocked? && s.db.lifecycle[key].reservationId == row'.reservationId)
  }

  /** How the shared state may move forward in one step of anyone. */
  ghost predicate Advances(s: Shared, s': Shared) {
    && s.clock <= s'.clock
    && (forall k | k in s.terms :: k in s'.terms && s'.terms[k] == s.terms[k])
    && (forall id | id in s.born :: id in s'.born && s'.born[id] == s.born[id])
    && (forall id | id in s'.born && id !in s.born :: s'.born[id].at == s.clock)
    && (forall id | id in s.starter :: id in s'.starter && s'.starter[id] == s.starter[id])
    && Frozen(s.db.usage, s'.db.usage)
    && (forall key | key in s'.db.lifecycle :: SameOrNewborn(s, s', key))
  }

  /** Only actor `i` can have called a provider in this step, under a start of its own. */
  predicate OnlyCalls(s: Shared, s': Shared, i: nat) {
    forall id | id in s'.called && id !in s.called :: id in s'.starter && s'.starter[id] == i
  }

  /** An actor that does not move stays sound whatever the others do. */
  lemma ActorUnmoved(s: Shared, s': Shared, i: nat, a: Actor, mover: nat)
    requires SharedSound(s) && ActorSound(s, i, a)
    requires Advances(s, s') && OnlyCalls(s, s', mover) && mover != i
    ensures ActorSound(s', i, a)
  {
  }

  // ----- Two general steps -----

  /** The claims and lifecycle rows of one key change; the ledger does not. */
  ghost predicate ChangesOnlyRow(s: Shared, s': Shared, key: Id) {
    && s'.db.usage == s.db.usage && s'.clock == s.clock && s'.terms == s.terms && s'.called == s.called
    && SameOutside(s.db.claims, s'.db.claims, {key})
    && SameOutside(s.db.lifecycle, s'.db.lifecycle, {key})
    && (key in s'.db.claims <==> key in s'.db.lifecycle)
  }

  ghost predicate GrowsHistory(s: Shared, s': Shared, key: Id) {
    && (forall id | id in s.born :: id in s'.born && s'.born[id] == s.born[id])
    && (forall id | id in s'.born && id !in s.born :: BirthSound(s', id) && s'.born[id].at == s.clock)
    && (forall id | id in s.starter :: id in s'.starter && s'.starter[id] == s.starter[id])
    && (forall id | id in s'.starter && id !in s.starter ::
          id in s'.born && s'.born[id].key == key && IsStartedRow(s', id))
  }

  lemma OtherRowsUnchanged(s: Shared, s': Shared, key: Id, k: Id)
    requires ChangesOnlyRow(s, s', key) && k != key
    ensures k in s'.db.lifecycle <==> k in s.db.lifecycle
    ensures k in s'.db.claims <==> k in s.db.claims
    ensures k in s.db.claims ==> s'.db.claims[k] == s.db.claims[k]
    ensures k in s.db.lifecycle ==> s'.db.lifecycle[k] == s.db.lifecycle[k]
  {
    OutsideIsSame(s.db.claims, s'.db.claims, {key}, k);
    OutsideIsSame(s.db.lifecycle, s'.db.lifecycle, {key}, k);
  }

  lemma OtherRowStaysSound(s: Shared, s': Shared, key: Id, k: Id)
    requires SharedSound(s) && ChangesOnlyRow(s, s', key) && GrowsHistory(s, s', key)
    requires k != key && k in s'.db.lifecycle
    ensures RowSound(s', k) && SameOrNewborn(s, s', k)
  {
    OtherRowsUnchanged(s, s', key, k);
    assert RowSound(s, k);
  }

  lemma RowChangeKeeps(s: Shared, s': Shared, key: Id)
    requires SharedSound(s) && ChangesOnlyRow(s, s', key) && GrowsHistory(s, s', key)
    requires forall id | id in s.starter && s.born[id].key == key :: IsStartedRow(s', id) || Charged(s', id)
    requires key in s'.db.lifecycle ==> RowSound(s', key) && SameOrNewborn(s, s', key)
    ensures SharedSound(s') && Advances(s, s')
  {
    forall k | k in s'.db.lifecycle
      ensures RowSound(s', k) && SameOrNewborn(s, s', k)
    {
      if k != key { OtherRowStaysSound(s, s', key, k); }
    }
    forall k {:trigger k in s'.db.lifecycle} {:trigger k in s'.db.claims}
      ensures k in s'.db.claims <==> k in s'.db.lifecycle
    {
      if k != key { OtherRowsUnchanged(s, s', key, k); }
    }
    forall id | id in s.starter
      ensures IsStartedRow(s', id) || Charged(s', id)
    {
      if s.born[id].key != key { OtherRowsUnchanged(s, s', key, s.born[id].key); }
    }
    forall id | id in s'.born
      ensures BirthSound(s', id)
    {
      if id in s.born { assert BirthSound(s, id); }
    }
  }

  /** One reservation is added, charged or released; the claim tables do not change. */
  ghost predicate ChangesOnlyReservation(s: Shared, usage: Ledger, id: Id) {
    && Sound(usage, s.clock) && Frozen(s.db.usage, usage) && SameOutside(s.db.usage, usage, {id})
    && (id in s.born && id in usage ==> Matches(s.born[id].fingerprint, s.born[id].terms, usage[id]))
    && (id !in s.db.usage && id in usage ==> usage[id].status.Held?)
    && (id in s.born && HeldIn(s.db.usage, id) && usage[id].status.Finalized? ==> id in s.starter)
    && (id in s.born && HeldIn(s.db.usage, id) && usage[id].status.Released? ==> !Referenced(s.db, id))
  }

  lemma RowSurvivesUsageChange(s: Shared, usage: Ledger, id: Id, key: Id)
    requires SharedSound(s) && ChangesOnlyReservation(s, usage, id) && key in s.db.lifecycle
    ensures RowSound(WithUsage(s, usage), key)
  {
    assert RowSound(s, key);
    var row := s.db.lifecycle[key];
    if !row.LegacyBlocked? && row.reservationId != id {
      OutsideIsSame(s.db.usage, usage, {id}, row.reservationId);
    }
  }

  lemma StarterSurvivesUsageChange(s: Shared, usage: Ledger, id: Id, other: Id)
    requires SharedSound(s) && ChangesOnlyReservation(s, usage, id) && other in s.starter
    ensures IsStartedRow(WithUsage(s, usage), other) || Charged(WithUsage(s, usage), other)
  {
    if Charged(s, other) { assert usage[other] == s.db.usage[other]; }
  }

  lemma UsageChangeKeeps(s: Shared, usage: Ledger, id: Id)
    requires SharedSound(s) && ChangesOnlyReservation(s, usage, id)
    ensures SharedSound(WithUsage(s, usage)) && Advances(s, WithUsage(s, usage))
  {
    var s' := WithUsage(s, usage);
    forall key | key in s'.db.lifecycle
      ensures RowSound(s', key)
    {
      RowSurvivesUsageChange(s, usage, id, key);
    }
    forall other | other in s.starter
      ensures IsStartedRow(s', other) || Charged(s', other)
    {
      StarterSurvivesUsageChange(s, usage, id, other);
    }
    forall other | other in s.born
      ensures BirthSound(s', other)
    {
      assert BirthSound(s, other);
      if other != id { OutsideIsSame(s.db.usage, usage, {id}, other); }
    }
  }

  // ----- Every step -----

  /** The state after actor `i` moved is sound for everyone. */
  ghost predicate Keeps(s: Shared, i: nat, a: Actor, s': Shared, pc: Pc) {
    SharedSound(s') && ActorSound(s', i, a.(pc := pc)) && Advances(s, s') && OnlyCalls(s, s', i)
  }

  lemma LookingKeeps(s: Shared, i: nat, a: Actor)
    requires SharedSound(s) && ActorSound(s, i, a) && a.Runner?
    requires a.pc.Looking? || a.pc.Rereading?
    ensures Keeps(s, i, a, s, if a.pc.Looking? then LookStep(s, a, a.pc.again) else RereadStep(s, a, a.pc.replay, a.pc.again))
  {
    if a.request.key in s.db.lifecycle {
      assert RowSound(s, a.request.key);
    }
  }

  lemma FindingKeeps(s: Shared, i: nat, a: Actor)
    requires SharedSound(s) && ActorSound(s, i, a) && a.Runner?
    ensures a.pc.FindingReserved? ==> Keeps(s, i, a, s, FindReservedStep(s, a, a.pc.claim))
    ensures a.pc.FindingStarted? ==> Keeps(s, i, a, s, FindStartedStep(s, a, a.pc.claim))
  {
  }

  lemma RowFindingKeeps(s: Shared, i: nat, a: Actor)
    requires SharedSound(s) && ActorSound(s, i, a) && a.Reconciler? && a.pc.RowFinding?
    ensures Keeps(s, i, a, s, RowFindStep(s, a.pc.row, a.now))
  {
  }

  lemma InsertKeeps(s: Shared, i: nat, a: Actor, choice: Choice)
    requires SharedSound(s) && ActorSound(s, i, a) && a.Runner? && a.pc.Inserting? && Fresh(s, choice.newId)
    ensures var (s', pc) := InsertStep(s, a, a.pc.again, choice); Keeps(s, i, a, s', pc)
  {
    var (s', pc) := InsertStep(s, a, a.pc.again, choice);
    if s' != s { RowChangeKeeps(s, s', a.request.key); }
  }

  /** The replacement batch changes both rows or neither. */
  lemma ReuseIsAllOrNothing(s: Shared, i: nat, a: Actor, newId: Id)
    requires SharedSound(s) && ActorSound(s, i, a) && a.pc.Reusing?
    ensures var (first, second, _) :=
              ReplaceSettled(s.db, a.pc.seen, NewClaim(a, newId), a.now + CLAIM_LEASE_SECONDS, a.now + CLAIM_LEASE_SECONDS);
            first == second
  {
    if a.request.key in s.db.lifecycle {
      assert RowSound(s, a.request.key);
    }
  }

  lemma ReuseKeepsShared(s: Shared, i: nat, a: Actor, choice: Choice)
    requires SharedSound(s) && ActorSound(s, i, a) && a.pc.Reusing? && Fresh(s, choice.newId)
    ensures var s' := ReuseStep(s, a, a.pc.seen, a.pc.again, choice).0; SharedSound(s') && Advances(s, s')
  {
    ReuseIsAllOrNothing(s, i, a, choice.newId);
    var s' := ReuseStep(s, a, a.pc.seen, a.pc.again, choice).0;
    if s' != s {
      assert RowSound(s, a.request.key);
      RowChangeKeeps(s, s', a.request.key);
    }
  }

  lemma ReuseKeeps(s: Shared, i: nat, a: Actor, choice: Choice)
    requires SharedSound(s) && ActorSound(s, i, a) && a.pc.Reusing? && Fresh(s, choice.newId)
    ensures var (s', pc) := ReuseStep(s, a, a.pc.seen, a.pc.again, choice); Keeps(s, i, a, s', pc)
  {
    ReuseKeepsShared(s, i, a, choice);
    ReuseIsAllOrNothing(s, i, a, choice.newId);
  }

  /** Deleting a reserved claim: nothing was started under it. */
  lemma DeletionKeeps(s: Shared, c: Claim)
    requires SharedSound(s) && HoldsReserved(s.db, c)
    ensures var s' := s.(db := DeleteClaim(s.db, c.key)); SharedSound(s') && Advances(s, s')
    ensures !Referenced(DeleteClaim(s.db, c.key), c.reservationId)
  {
    assert RowSound(s, c.key);
    forall key | key in s.db.lifecycle && key != c.key && !s.db.lifecycle[key].LegacyBlocked?
      ensures s.db.lifecycle[key].reservationId != c.reservationId
    {
      assert RowSound(s, key);
    }
    RowChangeKeeps(s, s.(db := DeleteClaim(s.db, c.key)), c.key);
  }

  lemma AbandonKeeps(s: Shared, i: nat, a: Actor, c: Claim, onSuccess: Pc)
    requires SharedSound(s) && ActorSound(s, i, a)
    requires onSuccess.Stopped? || onSuccess.Looking?
    ensures var (s', pc) := AbandonStep(s, c, onSuccess); Keeps(s, i, a, s', pc)
  {
    if HoldsReserved(s.db, c) { DeletionKeeps(s, c); }
  }

  lemma RowAbandonKeeps(s: Shared, i: nat, a: Actor, c: Claim)
    requires SharedSound(s) && ActorSound(s, i, a)
    ensures Keeps(s, i, a, s.(db := AbandonExpiredReserved(s.db, c, a.now).1), Stopped)
  {
    if HoldsReserved(s.db, c) { DeletionKeeps(s, c); }
  }

  lemma ReleaseKeeps(s: Shared, id: Id, at: nat)
    requires SharedSound(s) && HeldIn(s.db.usage, id) && !Referenced(s.db, id)
    ensures var s' := WithUsage(s, ReleaseAt(s.db.usage, id, at)); SharedSound(s') && Advances(s, s')
  {
    ReleaseKeepsBudget(s.db.usage, id, Max(at, s.db.usage[id].reservedAt), s.clock);
    if id in s.born { assert BirthSound(s, id); }
    UsageChangeKeeps(s, ReleaseAt(s.db.usage, id, at), id);
  }

  lemma OrphanKeeps(s: Shared, i: nat, a: Actor, c: Claim, at: nat)
    requires SharedSound(s) && ActorSound(s, i, a)
    ensures Keeps(s, i, a, s.(db := ReleaseOrphaned(s.db, c, at).1), Stopped)
  {
    if ReleaseOrphaned(s.db, c, at).0 { ReleaseKeeps(s, c.reservationId, at); }
  }

  /** The reconciler's batch releases and deletes together, or does nothing. */
  lemma RowReleaseIsAllOrNothing(s: Shared, c: Claim, now: nat)
    requires SharedSound(s) && c.reservationId in s.db.usage
    ensures var (released, abandoned, _) := ReleaseExpiredReserved(s.db, c, now); released == abandoned
  {
    if ExpiredReserved(s.db, c, now) { assert RowSound(s, c.key); }
  }

  lemma RowReleaseKeepsShared(s: Shared, c: Claim, now: nat)
    requires SharedSound(s) && c.reservationId in s.db.usage
    ensures var s' := RowReleaseStep(s, c, now).0; SharedSound(s') && Advances(s, s')
  {
    RowReleaseIsAllOrNothing(s, c, now);
    if ExpiredReserved(s.db, c, now) {
      var s1 := s.(db := DeleteClaim(s.db, c.key));
      DeletionKeeps(s, c);
      ReleaseKeeps(s1, c.reservationId, now);
      assert RowReleaseStep(s, c, now).0 == WithUsage(s1, ReleaseAt(s1.db.usage, c.reservationId, now));
    }
  }

  lemma RowReleaseKeeps(s: Shared, i: nat, a: Actor, c: Claim)
    requires SharedSound(s) && ActorSound(s, i, a) && c.reservationId in s.db.usage
    ensures var (s', pc) := RowReleaseStep(s, c, a.now); Keeps(s, i, a, s', pc)
  {
    RowReleaseIsAllOrNothing(s, c, a.now);
    RowReleaseKeepsShared(s, c, a.now);
  }

  lemma TakeOverKeepsShared(s: Shared, i: nat, a: Actor)
    requires SharedSound(s) && ActorSound(s, i, a) && a.pc.TakingOver?
    ensures var s' := TakeOverStep(s, a, a.pc.claim).0; SharedSound(s') && Advances(s, s')
  {
    var c := a.pc.claim;
    if HoldsReserved(s.db, c) {
      assert RowSound(s, c.key);
      RowChangeKeeps(s, TakeOverStep(s, a, c).0, c.key);
    }
  }

  lemma TakeOverKeeps(s: Shared, i: nat, a: Actor)
    requires SharedSound(s) && ActorSound(s, i, a) && a.pc.TakingOver?
    ensures var (s', pc) := TakeOverStep(s, a, a.pc.claim); Keeps(s, i, a, s', pc)
  {
    TakeOverKeepsShared(s, i, a);
  }

  lemma StartKeepsShared(s: Shared, i: nat, a: Actor)
    requires SharedSound(s) && ActorSound(s, i, a) && a.pc.StartingProvider?
    ensures var s' := StartStep(s, i, a.pc.claim, a.pc.at).0; SharedSound(s') && Advances(s, s')
  {
    var c := a.pc.claim;
    var s' := StartStep(s, i, c, a.pc.at).0;
    if s' != s {
      assert RowSound(s, c.key);
      assert GrowsHistory(s, s', c.key);
      RowChangeKeeps(s, s', c.key);
    }
  }

  lemma StartKeeps(s: Shared, i: nat, a: Actor)
    requires SharedSound(s) && ActorSound(s, i, a) && a.pc.StartingProvider?
    ensures var (s', pc) := StartStep(s, i, a.pc.claim, a.pc.at); Keeps(s, i, a, s', pc)
  {
    StartKeepsShared(s, i, a);
    if HoldsReserved(s.db, a.pc.claim) {
      assert RowSound(s, a.pc.claim.key);
    } else {
      assert StartStep(s, i, a.pc.claim, a.pc.at).0 == s;
    }
  }

  /** Reading the clock: the epoch lies between the step before and the step after. */
  lemma ReadingKeeps(s: Shared, i: nat, a: Actor)
    requires SharedSound(s) && ActorSound(s, i, a)
    ensures a.pc.ReadingStart? ==> Keeps(s, i, a, s, StartingProvider(a.pc.claim, s.clock))
    ensures a.pc.ReadingSettlement? ==> Keeps(s, i, a, s, Settling(a.pc.claim, true, s.clock))
  {
    if a.pc.ReadingStart? { assert BirthSound(s, a.pc.claim.reservationId); }
  }

  lemma SettleKeeps(s: Shared, i: nat, a: Actor)
    requires SharedSound(s) && ActorSound(s, i, a) && a.pc.Settling?
    ensures var (s', pc) := SettleStep(s, a.pc.claim, a.pc.expectStarted, a.pc.at); Keeps(s, i, a, s', pc)
  {
    var c := a.pc.claim;
    var s' := SettleStep(s, c, a.pc.expectStarted, a.pc.at).0;
    if s' != s {
      assert RowSound(s, c.key);
      RowChangeKeeps(s, s', c.key);
    }
  }

  lemma CallKeeps(s: Shared, i: nat, a: Actor, actual: Option<Usage>)
    requires SharedSound(s) && ActorSound(s, i, a) && a.Runner? && a.pc.CallingProvider?
    ensures var (s', pc) := CallStep(s, a, a.pc.claim, actual); Keeps(s, i, a, s', pc)
  {
    var s' := CallStep(s, a, a.pc.claim, actual).0;
    forall key | key in s'.db.lifecycle
      ensures RowSound(s', key)
    {
      assert RowSound(s, key);
    }
  }

  lemma ReserveForKeeps(s: Shared, i: nat, a: Actor, c: Claim, choice: Choice)
    requires SharedSound(s) && ActorSound(s, i, a) && a.Runner?
    requires Known(s, c) && c.key == a.request.key && choice.epoch <= s.clock
    ensures var s' := WithUsage(s, ReserveFor(s, a, c, choice).1); SharedSound(s') && Advances(s, s')
    ensures ReserveFor(s, a, c, choice).0.Allowed? ==> c.reservationId in ReserveFor(s, a, c, choice).1
  {
    ReserveKeepsBudget(s.db.usage, c.reservationId, c.fingerprint, a.request.subject, a.request.terms,
                       a.request.reserved, choice.epoch, CLAIM_LEASE_SECONDS, choice.otherLimits, s.clock);
    assert BirthSound(s, c.reservationId);
    UsageChangeKeeps(s, ReserveFor(s, a, c, choice).1, c.reservationId);
  }

  lemma VerifyKeeps(s: Shared, i: nat, a: Actor, choice: Choice)
    requires SharedSound(s) && ActorSound(s, i, a) && a.Runner? && a.pc.Verifying? && choice.epoch <= s.clock
    ensures var (s', pc) := VerifyStep(s, a, a.pc.claim, a.pc.next, choice); Keeps(s, i, a, s', pc)
  {
    ReserveForKeeps(s, i, a, a.pc.claim, choice);
  }

  lemma ReserveUsageKeeps(s: Shared, i: nat, a: Actor, choice: Choice)
    requires SharedSound(s) && ActorSound(s, i, a) && a.Runner? && a.pc.ReservingUsage? && choice.epoch <= s.clock
    ensures var (s', pc) := ReserveUsageStep(s, a, a.pc.claim, choice); Keeps(s, i, a, s', pc)
  {
    ReserveForKeeps(s, i, a, a.pc.claim, choice);
  }

  /** Charging a reservation whose provider was started. */
  lemma ChargeKeeps(s: Shared, id: Id, actual: Usage, at: nat)
    requires SharedSound(s) && id in s.starter && MayFinalize(s.db.usage, id, actual, at)
    ensures var s' := WithUsage(s, s.db.usage[id := AsFinalized(s.db.usage[id], actual, at)]);
            SharedSound(s') && Advances(s, s')
  {
    FinalizeKeepsBudget(s.db.usage, id, actual, at, s.clock);
    assert BirthSound(s, id);
    UsageChangeKeeps(s, s.db.usage[id := AsFinalized(s.db.usage[id], actual, at)], id);
  }

  lemma FinalizeKeeps(s: Shared, i: nat, a: Actor, epoch: nat)
    requires SharedSound(s) && ActorSound(s, i, a) && a.pc.Finalizing?
    ensures var (s', pc) := FinalizeStep(s, a.pc.claim, a.pc.actual, epoch); Keeps(s, i, a, s', pc)
  {
    var id := a.pc.claim.reservationId;
    if MayFinalize(s.db.usage, id, a.pc.actual, epoch) { ChargeKeeps(s, id, a.pc.actual, epoch); }
  }

  lemma RowChargeKeeps(s: Shared, i: nat, a: Actor)
    requires SharedSound(s) && ActorSound(s, i, a) && a.pc.RowFinalizing?
    requires FinalizeFull(s.db.usage, a.pc.claim.reservationId, a.now).0
    ensures var usage := FinalizeFull(s.db.usage, a.pc.claim.reservationId, a.now).1;
            Keeps(s, i, a, WithUsage(s, usage), Settling(a.pc.claim, true, a.now))
  {
    var id := a.pc.claim.reservationId;
    ChargeKeeps(s, id, s.db.usage[id].estimated, a.now);
  }

  lemma RowFinalizeKeeps(s: Shared, i: nat, a: Actor)
    requires SharedSound(s) && ActorSound(s, i, a) && a.pc.RowFinalizing?
    ensures var (s', pc) := RowFinalizeStep(s, a.pc.claim, a.now); Keeps(s, i, a, s', pc)
  {
    if FinalizeFull(s.db.usage, a.pc.claim.reservationId, a.now).0 {
      RowChargeKeeps(s, i, a);
    } else {
      assert RowFinalizeStep(s, a.pc.claim, a.now) == (s, Stopped);
    }
  }

  /** Steps up to the reservation of usage. */
  predicate BeforeUsage(pc: Pc) {
    pc.Looking? || pc.Inserting? || pc.Reusing? || pc.Rereading? || pc.FindingReserved?
    || pc.AbandoningMissing? || pc.FindingStarted? || pc.Verifying? || pc.TakingOver?
  }

  lemma RunnerKeepsEarly(s: Shared, i: nat, a: Actor, choice: Choice)
    requires SharedSound(s) && ActorSound(s, i, a) && a.Runner? && BeforeUsage(a.pc)
    ensures var (s', pc) := Act(s, i, a, choice); Keeps(s, i, a, s', pc)
  {
    match a.pc
    case Looking(_) => LookingKeeps(s, i, a);
    case Inserting(_) => if Fresh(s, choice.newId) { InsertKeeps(s, i, a, choice); }
    case Reusing(_, _) => if Fresh(s, choice.newId) { ReuseKeeps(s, i, a, choice); }
    case Rereading(_, _) => LookingKeeps(s, i, a);
    case FindingReserved(_) => FindingKeeps(s, i, a);
    case AbandoningMissing(c) => AbandonKeeps(s, i, a, c, Looking(true));
    case FindingStarted(_) => FindingKeeps(s, i, a);
    case Verifying(_, _) => if choice.epoch <= s.clock { VerifyKeeps(s, i, a, choice); }
    case TakingOver(_) => TakeOverKeeps(s, i, a);
  }

  lemma RunnerKeepsCharging(s: Shared, i: nat, a: Actor, choice: Choice)
    requires SharedSound(s) && ActorSound(s, i, a) && a.Runner? && (a.pc.CallingProvider? || a.pc.Finalizing?)
    ensures var (s', pc) := Act(s, i, a, choice); Keeps(s, i, a, s', pc)
  {
    match a.pc
    case CallingProvider(_) => CallKeeps(s, i, a, choice.actual);
    case Finalizing(_, _) => FinalizeKeeps(s, i, a, choice.epoch);
  }

  lemma RunnerKeepsSettling(s: Shared, i: nat, a: Actor, choice: Choice)
    requires SharedSound(s) && ActorSound(s, i, a) && a.Runner? && (a.pc.ReadingSettlement? || a.pc.Settling?)
    ensures var (s', pc) := Act(s, i, a, choice); Keeps(s, i, a, s', pc)
  {
    match a.pc
    case ReadingSettlement(_) => ReadingKeeps(s, i, a);
    case Settling(_, _, _) => SettleKeeps(s, i, a);
  }

  lemma RunnerKeepsLate(s: Shared, i: nat, a: Actor, choice: Choice)
    requires SharedSound(s) && ActorSound(s, i, a) && a.Runner? && !BeforeUsage(a.pc)
    ensures var (s', pc) := Act(s, i, a, choice); Keeps(s, i, a, s', pc)
  {
    match a.pc
    case ReservingUsage(_) => if choice.epoch <= s.clock { ReserveUsageKeeps(s, i, a, choice); }
    case AbandoningDenied(c) => AbandonKeeps(s, i, a, c, Stopped);
    case ReadingStart(_) => ReadingKeeps(s, i, a);
    case StartingProvider(_, _) => StartKeeps(s, i, a);
    case ReleasingOrphan(c, at) => OrphanKeeps(s, i, a, c, at);
    case CallingProvider(_) => RunnerKeepsCharging(s, i, a, choice);
    case Finalizing(_, _) => RunnerKeepsCharging(s, i, a, choice);
    case ReadingSettlement(_) => RunnerKeepsSettling(s, i, a, choice);
    case Settling(_, _, _) => RunnerKeepsSettling(s, i, a, choice);
    case _ =>
  }

  lemma RowEndKeeps(s: Shared, i: nat, a: Actor, choice: Choice)
    requires SharedSound(s) && ActorSound(s, i, a) && a.Reconciler? && !a.pc.RowFinding? && !a.pc.RowReleasing?
    ensures var (s', pc) := Act(s, i, a, choice); Keeps(s, i, a, s', pc)
  {
    match a.pc
    case RowAbandoning(c) => RowAbandonKeeps(s, i, a, c);
    case RowFinalizing(_) => RowFinalizeKeeps(s, i, a);
    case Settling(_, _, _) => SettleKeeps(s, i, a);
    case _ =>
  }

  lemma ReconcilerKeeps(s: Shared, i: nat, a: Actor, choice: Choice)
    requires SharedSound(s) && ActorSound(s, i, a) && a.Reconciler?
    ensures var (s', pc) := Act(s, i, a, choice); Keeps(s, i, a, s', pc)
  {
    match a.pc
    case RowFinding(_) => RowFindingKeeps(s, i, a);
    case RowReleasing(c) => RowReleaseKeeps(s, i, a, c);
    case _ => RowEndKeeps(s, i, a, choice);
  }

  lemma ActKeeps(s: Shared, i: nat, a: Actor, choice: Choice)
    requires SharedSound(s) && ActorSound(s, i, a)
    ensures var (s', pc) := Act(s, i, a, choice); Keeps(s, i, a, s', pc)
  {
    if a.Reconciler? {
      ReconcilerKeeps(s, i, a, choice);
    } else if BeforeUsage(a.pc) {
      RunnerKeepsEarly(s, i, a, choice);
    } else {
      RunnerKeepsLate(s, i, a, choice);
    }
  }
}
