/** What a reservation is charged, over every interleaving: what the provider billed for it,
  * or the whole of it. */
module ManagedCharges {
  import opened Basics
  import opened UsageLedger
  import opened ManagedClaimTables
  import opened ManagedReconcile
  import opened ManagedClaimRepository
  import opened ManagedRuns
  import opened ManagedTheorems

  // What the provider billed for each reservation; None where it failed, or where the
  // billing of its result cannot be trusted.
  type Bills = map<Id, Option<Usage>>

  /** Every provider call of a step leaves its bill. */
  function AfterStep(bills: Bills, a: Actor, choice: Choice): Bills {
    if a.Runner? && a.pc.CallingProvider? then bills[a.pc.claim.reservationId := choice.actual] else bills
  }

  ghost function BillsOf(start: World, schedule: seq<Action>): Bills {
    if schedule == [] then map[]
    else
      var w, bills := Run(start, schedule[..|schedule|-1]), BillsOf(start, schedule[..|schedule|-1]);
      var last := schedule[|schedule|-1];
      if last.Move? && last.i in w.actors then AfterStep(bills, w.actors[last.i], last.choice) else bills
  }

  /** A price that may be charged to reservation `id`. */
  predicate Justified(rows: Ledger, bills: Bills, id: Id, actual: Usage)
    requires id in rows
  {
    actual == rows[id].estimated || (id in bills && bills[id] == Some(actual))
  }

  /** Every reservation made for a claim and charged is charged such a price. */
  predicate ChargesJustified(s: Shared, bills: Bills) {
    forall id | id in s.born && id in s.db.usage && s.db.usage[id].status.Finalized? ::
      Justified(s.db.usage, bills, id, s.db.usage[id].status.actual)
  }

  /** The runner's reservation is the one its request asks for. */
  predicate Covers(rows: Ledger, a: Actor, c: Claim)
    requires a.Runner?
  {
    c.reservationId in rows && rows[c.reservationId].estimated == a.request.reserved
  }

  predicate PriceSound(rows: Ledger, bills: Bills, a: Actor) {
    a.Runner? ==>
      match a.pc
      case TakingOver(c) => Covers(rows, a, c)
      case ReadingStart(c) => Covers(rows, a, c)
      case StartingProvider(c, _) => Covers(rows, a, c)
      case CallingProvider(c) => Covers(rows, a, c)
      case Finalizing(c, actual) => Covers(rows, a, c) && Justified(rows, bills, c.reservationId, actual)
      case _ => true
  }

  predicate Remembers(bills: Bills, bills': Bills) {
    forall id | id in bills :: id in bills' && bills'[id] == bills[id]
  }

  lemma PriceUnmoved(rows: Ledger, rows': Ledger, bills: Bills, bills': Bills, a: Actor)
    requires PriceSound(rows, bills, a) && Frozen(rows, rows') && Remembers(bills, bills')
    ensures PriceSound(rows', bills', a)
  {
  }

  lemma VerifyCovers(s: Shared, a: Actor, c: Claim, choice: Choice)
    requires a.Runner? && ManagedRuns.ReserveFor(s, a, c, choice).0.Allowed?
    ensures Covers(ManagedRuns.ReserveFor(s, a, c, choice).1, a, c)
  {
  }

  predicate Priced(pc: Pc) {
    pc.TakingOver? || pc.ReadingStart? || pc.StartingProvider? || pc.CallingProvider? || pc.Finalizing?
  }

  predicate Reserves(pc: Pc) {
    pc.Verifying? || pc.ReservingUsage?
  }

  lemma UnpricedStaysUnpriced(s: Shared, i: nat, a: Actor, choice: Choice)
    requires a.Runner? && !Priced(a.pc) && !Reserves(a.pc)
    ensures !Priced(Act(s, i, a, choice).1)
  {
  }

  lemma ReservingPrices(s: Shared, bills: Bills, i: nat, a: Actor, choice: Choice)
    requires a.Runner? && Reserves(a.pc)
    ensures var (s', pc) := Act(s, i, a, choice); PriceSound(s'.db.usage, bills, a.(pc := pc))
  {
    var c := a.pc.claim;
    if ManagedRuns.ReserveFor(s, a, c, choice).0.Allowed? { VerifyCovers(s, a, c, choice); }
  }

  lemma PricedStaysPriced(s: Shared, bills: Bills, i: nat, a: Actor, choice: Choice)
    requires a.Runner? && Priced(a.pc) && PriceSound(s.db.usage, bills, a)
    ensures var (s', pc) := Act(s, i, a, choice);
            PriceSound(s'.db.usage, AfterStep(bills, a, choice), a.(pc := pc))
  {
  }

  /** A runner knows what it may charge. */
  lemma PriceKept(s: Shared, bills: Bills, i: nat, a: Actor, choice: Choice)
    requires PriceSound(s.db.usage, bills, a)
    ensures var (s', pc) := Act(s, i, a, choice); PriceSound(s'.db.usage, AfterStep(bills, a, choice), a.(pc := pc))
  {
    if a.Runner? {
      if Priced(a.pc) {
        PricedStaysPriced(s, bills, i, a, choice);
      } else if Reserves(a.pc) {
        ReservingPrices(s, bills, i, a, choice);
      } else {
        UnpricedStaysUnpriced(s, i, a, choice);
      }
    }
  }

  predicate Charges(a: Actor) {
    if a.Runner? then a.pc.Finalizing? else a.pc.RowFinalizing?
  }

  predicate WritesUsage(a: Actor) {
    if a.Runner? then Reserves(a.pc) || a.pc.ReleasingOrphan? || a.pc.Finalizing?
    else a.pc.RowReleasing? || a.pc.RowFinalizing?
  }

  lemma ClaimingLeavesUsage(s: Shared, i: nat, a: Actor, choice: Choice)
    requires a.Runner? && BeforeUsage(a.pc) && !Reserves(a.pc)
    ensures Act(s, i, a, choice).0.db.usage == s.db.usage
  {
  }

  lemma OthersLeaveUsage(s: Shared, i: nat, a: Actor, choice: Choice)
    requires !WritesUsage(a) && !(a.Runner? && BeforeUsage(a.pc))
    ensures Act(s, i, a, choice).0.db.usage == s.db.usage
  {
  }

  /** Reserving and releasing change no reservation that is charged already, and charge none. */
  lemma ReservingChargesNothing(s: Shared, i: nat, a: Actor, choice: Choice, id: Id)
    requires a.Runner? && Reserves(a.pc)
    requires var s' := Act(s, i, a, choice).0; id in s'.db.usage && s'.db.usage[id].status.Finalized?
    ensures id in s.db.usage && s.db.usage[id] == Act(s, i, a, choice).0.db.usage[id]
  {
  }

  lemma ReleasingChargesNothing(s: Shared, i: nat, a: Actor, choice: Choice, id: Id)
    requires if a.Runner? then a.pc.ReleasingOrphan? else a.pc.RowReleasing?
    requires var s' := Act(s, i, a, choice).0; id in s'.db.usage && s'.db.usage[id].status.Finalized?
    ensures id in s.db.usage && s.db.usage[id] == Act(s, i, a, choice).0.db.usage[id]
  {
  }

  /** Only the two finalizing steps charge anything. */
  lemma OthersChargeNothing(s: Shared, i: nat, a: Actor, choice: Choice, id: Id)
    requires !Charges(a)
    requires var s' := Act(s, i, a, choice).0; id in s'.db.usage && s'.db.usage[id].status.Finalized?
    ensures id in s.db.usage && s.db.usage[id] == Act(s, i, a, choice).0.db.usage[id]
  {
    if a.Runner? && Reserves(a.pc) {
      ReservingChargesNothing(s, i, a, choice, id);
    } else if WritesUsage(a) {
      ReleasingChargesNothing(s, i, a, choice, id);
    } else if a.Runner? && BeforeUsage(a.pc) {
      ClaimingLeavesUsage(s, i, a, choice);
    } else {
      OthersLeaveUsage(s, i, a, choice);
    }
  }

  lemma ChargeIsJustified(s: Shared, bills: Bills, i: nat, a: Actor, choice: Choice, id: Id)
    requires Charges(a) && PriceSound(s.db.usage, bills, a)
    requires var s' := Act(s, i, a, choice).0; id in s'.db.usage && s'.db.usage[id].status.Finalized?
    requires id in s.db.usage && s.db.usage[id].status.Finalized? ==> Justified(s.db.usage, bills, id, s.db.usage[id].status.actual)
    ensures var s' := Act(s, i, a, choice).0; Justified(s'.db.usage, bills, id, s'.db.usage[id].status.actual)
  {
  }

  lemma NewbornIsUnused(s: Shared, i: nat, a: Actor, choice: Choice, id: Id)
    requires id !in s.born && id in Act(s, i, a, choice).0.born
    ensures !Charges(a) && id !in s.db.usage
  {
  }

  lemma StepIsJustified(s: Shared, bills: Bills, i: nat, a: Actor, choice: Choice)
    requires ChargesJustified(s, bills) && PriceSound(s.db.usage, bills, a)
    requires Remembers(bills, AfterStep(bills, a, choice))
    ensures ChargesJustified(Act(s, i, a, choice).0, AfterStep(bills, a, choice))
  {
    var s' := Act(s, i, a, choice).0;
    forall id | id in s'.born && id in s'.db.usage && s'.db.usage[id].status.Finalized?
      ensures Justified(s'.db.usage, AfterStep(bills, a, choice), id, s'.db.usage[id].status.actual)
    {
      if id !in s.born { NewbornIsUnused(s, i, a, choice, id); }
      if Charges(a) {
        ChargeIsJustified(s, bills, i, a, choice, id);
      } else {
        OthersChargeNothing(s, i, a, choice, id);
      }
    }
  }

  ghost predicate BillsSound(w: World, bills: Bills) {
    && bills.Keys <= w.shared.called && ChargesJustified(w.shared, bills)
    && forall i | i in w.actors :: PriceSound(w.shared.db.usage, bills, w.actors[i])
  }

  /** A provider is billed once. */
  lemma StepRemembers(s: Shared, bills: Bills, i: nat, a: Actor, choice: Choice)
    requires ActorSound(s, i, a) && bills.Keys <= s.called
    ensures Remembers(bills, AfterStep(bills, a, choice))
    ensures AfterStep(bills, a, choice).Keys <= Act(s, i, a, choice).0.called
  {
  }

  lemma MoveIsJustified(w: World, bills: Bills, i: nat, choice: Choice)
    requires WorldSound(w) && BillsSound(w, bills) && i in w.actors
    ensures BillsSound(Next(w, Move(i, choice)), AfterStep(bills, w.actors[i], choice))
  {
    var s, a := w.shared, w.actors[i];
    var s' := Act(s, i, a, choice).0;
    ActKeeps(s, i, a, choice);
    StepRemembers(s, bills, i, a, choice);
    StepIsJustified(s, bills, i, a, choice);
    PriceKept(s, bills, i, a, choice);
    forall j | j in w.actors && j != i
      ensures PriceSound(s'.db.usage, AfterStep(bills, a, choice), w.actors[j])
    {
      PriceUnmoved(s.db.usage, s'.db.usage, bills, AfterStep(bills, a, choice), w.actors[j]);
    }
  }

  lemma ForeignIsJustified(w: World, bills: Bills, op: Op, epoch: nat)
    requires WorldSound(w) && BillsSound(w, bills)
    ensures BillsSound(Next(w, Foreign(op, epoch)), bills)
  {
    var s := w.shared;
    if op.id !in s.born && epoch <= s.clock {
      ApplyKeepsBudget(s.db.usage, op, epoch, s.clock);
      var usage := Apply(s.db.usage, op, epoch);
      forall i | i in w.actors ensures PriceSound(usage, bills, w.actors[i]) {
        PriceUnmoved(s.db.usage, usage, bills, bills, w.actors[i]);
      }
      assert SameOutside(s.db.usage, usage, {op.id});
      forall id | id in s.born && id in usage
        ensures id in s.db.usage && usage[id] == s.db.usage[id]
      {
        OutsideIsSame(s.db.usage, usage, {op.id}, id);
      }
    }
  }

  /** Over every run, whoever finalizes it, a claim's reservation is charged exactly what its
    * provider billed, or the whole of it. */
  lemma {:induction false} ChargesAreBilledOrWhole(start: World, schedule: seq<Action>)
    requires Initial(start)
    ensures BillsSound(Run(start, schedule), BillsOf(start, schedule))
    decreases |schedule|
  {
    if schedule != [] {
      var front, last := schedule[..|schedule|-1], schedule[|schedule|-1];
      var w, bills := Run(start, front), BillsOf(start, front);
      EveryRunIsSound(start, front);
      ChargesAreBilledOrWhole(start, front);
      if last.Move? && last.i in w.actors {
        MoveIsJustified(w, bills, last.i, last.choice);
      } else if last.Foreign? {
        ForeignIsJustified(w, bills, last.op, last.epoch);
      }
    }
  }
}
