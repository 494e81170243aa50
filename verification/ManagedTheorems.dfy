/** Whole runs of the managed-AI protocol: any number of requests and reconcilers, any
  * interleaving, any of them stopped for ever at any point, and any other user of the
  * usage ledger. */
module ManagedTheorems {
  import opened Basics
  import opened UsageLedger
  import opened ManagedClaimTables
  import opened ManagedReconcile
  import opened ManagedClaimRepository
  import opened ManagedRuns
  import opened ManagedHistory

  datatype World = World(shared: Shared, actors: map<nat, Actor>)

  datatype Action =
    | Spawn(i: nat, request: Request)
    | SpawnRow(i: nat, key: Id, now: nat)
    | Move(i: nat, choice: Choice)
    | Tick(to: nat)
    | Foreign(op: Op, epoch: nat)

  /** The deployment before its first managed request: only rows that predate the protocol. */
  ghost predicate Initial(w: World) {
    var s := w.shared;
    && w.actors == map[]
    && s.terms == map[] && s.born == map[] && s.starter == map[] && s.called == {} && s.log == []
    && s.db.claims.Keys == s.db.lifecycle.Keys
    && (forall key | key in s.db.lifecycle :: s.db.lifecycle[key].LegacyBlocked?)
    && Sound(s.db.usage, s.clock)
  }

  ghost function Next(w: World, action: Action): World {
    var s := w.shared;
    match action
    case Spawn(i, request) =>
      if i in w.actors || (request.key in s.terms && s.terms[request.key] != request.terms) then w
      else World(s.(terms := s.terms[request.key := request.terms]),
                 w.actors[i := Runner(request, s.clock, Looking(false))])
    case SpawnRow(i, key, now) =>
      if i in w.actors || now > s.clock || key !in StaleKeys(s.db, now) then w
      else World(s, w.actors[i := Reconciler(now, RowFinding(RowOf(s.db, key)))])
    case Move(i, choice) =>
      if i !in w.actors then w
      else
        var (s', pc) := Act(s, i, w.actors[i], choice);
        World(s', w.actors[i := w.actors[i].(pc := pc)])
    case Tick(to) => if to < s.clock then w else w.(shared := s.(clock := to))
    case Foreign(op, epoch) =>
      if op.id in s.born || epoch > s.clock then w
      else w.(shared := WithUsage(s, Apply(s.db.usage, op, epoch)))
  }

  ghost function Run(w: World, schedule: seq<Action>): World {
    if schedule == [] then w else Next(Run(w, schedule[..|schedule|-1]), schedule[|schedule|-1])
  }

  ghost predicate WorldSound(w: World) {
    SharedSound(w.shared) && LogSound(w.shared) && forall i | i in w.actors :: ActorSound(w.shared, i, w.actors[i])
  }

  // ----- Every action keeps the world sound -----

  /** An action that changes no claim row and no history. */
  lemma OutsideActionKeeps(w: World, s': Shared)
    requires WorldSound(w) && SharedSound(s') && Advances(w.shared, s')
    requires s'.db.lifecycle == w.shared.db.lifecycle
    requires s'.log == w.shared.log && s'.starter == w.shared.starter && s'.called == w.shared.called
    requires s'.born == w.shared.born
    ensures LogSound(s') && forall i | i in w.actors :: ActorSound(s', i, w.actors[i])
  {
    QuietMoves(w.shared, s');
    LogKeeps(w.shared, s');
    forall i | i in w.actors
      ensures ActorSound(s', i, w.actors[i])
    {
      ActorUnmoved(w.shared, s', i, w.actors[i], i + 1);
    }
  }

  lemma SpawnKeeps(w: World, i: nat, request: Request)
    requires WorldSound(w)
    ensures WorldSound(Next(w, Spawn(i, request)))
  {
    var s := w.shared;
    var w' := Next(w, Spawn(i, request));
    if w' != w {
      forall key | key in w'.shared.db.lifecycle ensures RowSound(w'.shared, key) { assert RowSound(s, key); }
      forall id | id in w'.shared.born ensures BirthSound(w'.shared, id) { assert BirthSound(s, id); }
      OutsideActionKeeps(w, w'.shared);
    }
  }

  lemma SpawnRowKeeps(w: World, i: nat, key: Id, now: nat)
    requires WorldSound(w)
    ensures WorldSound(Next(w, SpawnRow(i, key, now)))
  {
    if key in StaleKeys(w.shared.db, now) { assert RowSound(w.shared, key); }
  }

  lemma TickKeeps(w: World, to: nat)
    requires WorldSound(w)
    ensures WorldSound(Next(w, Tick(to)))
  {
    var s := w.shared;
    if s.clock <= to {
      var s' := s.(clock := to);
      SoundLater(s.db.usage, s.clock, to);
      forall key | key in s'.db.lifecycle ensures RowSound(s', key) { assert RowSound(s, key); }
      forall id | id in s'.born ensures BirthSound(s', id) { assert BirthSound(s, id); }
      OutsideActionKeeps(w, s');
    }
  }

  lemma ForeignKeeps(w: World, op: Op, epoch: nat)
    requires WorldSound(w)
    ensures WorldSound(Next(w, Foreign(op, epoch)))
  {
    var s := w.shared;
    if op.id !in s.born && epoch <= s.clock {
      var usage := Apply(s.db.usage, op, epoch);
      ApplyKeepsBudget(s.db.usage, op, epoch, s.clock);
      assert SameOutside(s.db.usage, usage, {op.id});
      UsageChangeKeeps(s, usage, op.id);
      OutsideActionKeeps(w, WithUsage(s, usage));
    }
  }

  lemma MoveKeeps(w: World, i: nat, choice: Choice)
    requires WorldSound(w)
    ensures WorldSound(Next(w, Move(i, choice)))
  {
    if i in w.actors {
      var s, a := w.shared, w.actors[i];
      var (s', pc) := Act(s, i, a, choice);
      ActKeeps(s, i, a, choice);
      ActMoves(s, i, a, choice);
      LogKeeps(s, s');
      forall j | j in w.actors && j != i
        ensures ActorSound(s', j, w.actors[j])
      {
        ActorUnmoved(s, s', j, w.actors[j], i);
      }
    }
  }

  lemma NextKeeps(w: World, action: Action)
    requires WorldSound(w)
    ensures WorldSound(Next(w, action))
  {
    match action
    case Spawn(i, request) => SpawnKeeps(w, i, request);
    case SpawnRow(i, key, now) => SpawnRowKeeps(w, i, key, now);
    case Move(i, choice) => MoveKeeps(w, i, choice);
    case Tick(to) => TickKeeps(w, to);
    case Foreign(op, epoch) => ForeignKeeps(w, op, epoch);
  }

  lemma {:induction false} EveryRunIsSound(w: World, schedule: seq<Action>)
    requires Initial(w)
    ensures WorldSound(Run(w, schedule))
    decreases |schedule|
  {
    if schedule != [] {
      EveryRunIsSound(w, schedule[..|schedule|-1]);
      NextKeeps(Run(w, schedule[..|schedule|-1]), schedule[|schedule|-1]);
    }
  }

  // ----- The theorems -----

  /** The states of all runs. */
  ghost predicate Reachable(w: World) {
    exists start, schedule :: Initial(start) && Run(start, schedule) == w
  }

  lemma ReachableIsSound(w: World)
    requires Reachable(w)
    ensures WorldSound(w)
  {
    var start, schedule :| Initial(start) && Run(start, schedule) == w;
    EveryRunIsSound(start, schedule);
  }

  /** Accounting: a reservation under which a provider was started is never released, a
    * settled claim's reservation is finalized with no more than was reserved, and a claim
    * that is still reserved has never been charged. */
  lemma AccountingIsSafe(w: World)
    requires Reachable(w)
    ensures var s := w.shared;
            && s.called <= s.starter.Keys
            && (forall id | id in s.starter :: id in s.db.usage && !s.db.usage[id].status.Released?)
            && (forall key | key in s.db.lifecycle && s.db.lifecycle[key].Settled? ::
                  var id := s.db.lifecycle[key].reservationId;
                  id in s.starter && Charged(s, id) && s.db.usage[id].status.actual.Within(s.db.usage[id].estimated))
            && (forall key | key in s.db.lifecycle && s.db.lifecycle[key].Reserved? ::
                  var id := s.db.lifecycle[key].reservationId;
                  id !in s.starter && (id in s.db.usage ==> s.db.usage[id].status.Held?))
            && RollingCost(s.db.usage, s.clock) <= CEILING_MICRO_USD
  {
    ReachableIsSound(w);
    var s := w.shared;
    forall key | key in s.db.lifecycle ensures RowSound(s, key) {}
    forall id | id in s.starter
      ensures id in s.db.usage && !s.db.usage[id].status.Released?
    {
      assert IsStartedRow(s, id) ==> RowSound(s, s.born[id].key);
    }
  }

  /** At most one provider call for each reservation, always after its durable start; and
    * two starts under one claim key are separated by a settlement of the first that lies
    * more than the retention before the second. */
  lemma ProviderIsCalledAtMostOnce(w: World)
    requires Reachable(w)
    ensures CallsOrdered(w.shared.log) && StartsSeparated(w.shared.log)
  {
    ReachableIsSound(w);
  }

  lemma NoUnexpectedRowCount(s: Shared, i: nat, a: Actor)
    requires ActorSound(s, i, a)
    ensures !a.pc.UnexpectedRowCount?
  {
  }

  /** No interleaving makes a two-statement batch change one row only. */
  lemma BatchesAreAllOrNothing(w: World)
    requires Reachable(w)
    ensures forall i | i in w.actors :: !w.actors[i].pc.UnexpectedRowCount?
  {
    ReachableIsSound(w);
    forall i | i in w.actors { NoUnexpectedRowCount(w.shared, i, w.actors[i]); }
  }

  /** While a claim row exists, its fingerprint and terms never change. */
  lemma BindingNeverChanges(w: World, action: Action, key: Id)
    requires Reachable(w) && key in w.shared.db.lifecycle && key in Next(w, action).shared.db.lifecycle
    ensures key in w.shared.db.claims && key in Next(w, action).shared.db.claims
    ensures KeepsBinding(w.shared.db, Next(w, action).shared.db, key)
  {
    ReachableIsSound(w);
    NextKeeps(w, action);
    if action.Move? && action.i in w.actors {
      KeptBinding(w.shared, action.i, w.actors[action.i], action.choice, key);
    }
  }

  /** No claim row of `db` is rewritten with another fingerprint or other terms. */
  predicate KeepsBinding(db: Tables, db': Tables, key: Id) {
    key in db.claims && key in db'.claims ==>
      && db'.claims[key].fingerprint == db.claims[key].fingerprint
      && db'.claims[key].terms == db.claims[key].terms
  }

  lemma EarlyKeepsBinding(s: Shared, i: nat, a: Actor, choice: Choice, key: Id)
    requires SharedSound(s) && ActorSound(s, i, a) && a.Runner? && BeforeUsage(a.pc)
    ensures KeepsBinding(s.db, Act(s, i, a, choice).0.db, key)
  {
    if a.pc.Reusing? && Fresh(s, choice.newId) {
      ReuseIsAllOrNothing(s, i, a, choice.newId);
      if a.request.key in s.db.lifecycle && s.db.lifecycle[a.request.key].Settled? {
        assert RowSound(s, a.request.key) && BirthSound(s, s.db.lifecycle[a.request.key].reservationId);
      }
    }
  }

  lemma LateKeepsBinding(s: Shared, i: nat, a: Actor, choice: Choice, key: Id)
    requires a.Reconciler? || !BeforeUsage(a.pc)
    ensures KeepsBinding(s.db, Act(s, i, a, choice).0.db, key)
  {
  }

  lemma KeptBinding(s: Shared, i: nat, a: Actor, choice: Choice, key: Id)
    requires SharedSound(s) && ActorSound(s, i, a)
    ensures KeepsBinding(s.db, Act(s, i, a, choice).0.db, key)
  {
    if a.Runner? && BeforeUsage(a.pc) {
      EarlyKeepsBinding(s, i, a, choice, key);
    } else {
      LateKeepsBinding(s, i, a, choice, key);
    }
  }

  /** From every reachable state, whatever was interrupted, a reconciliation pass can
    * finish: the tables are recoverable at the current or any later time. */
  lemma EveryStateIsRecoverable(w: World, now: nat)
    requires Reachable(w) && now >= w.shared.clock
    ensures Recoverable(w.shared.db, now)
  {
    ReachableIsSound(w);
    var s := w.shared;
    SoundLater(s.db.usage, s.clock, now);
    forall key | key in s.db.lifecycle
      ensures RecoverableRow(s.db, key)
    {
      assert RowSound(s, key);
      if !s.db.lifecycle[key].LegacyBlocked? { assert BirthSound(s, s.db.lifecycle[key].reservationId); }
    }
    forall k1, k2 | k1 in s.db.lifecycle && k2 in s.db.lifecycle
                    && !s.db.lifecycle[k1].LegacyBlocked? && !s.db.lifecycle[k2].LegacyBlocked?
                    && s.db.lifecycle[k1].reservationId == s.db.lifecycle[k2].reservationId
      ensures k1 == k2
    {
      assert RowSound(s, k1) && RowSound(s, k2);
    }
  }

  /** Crash convergence: stop every actor of any run anywhere, wait, and let one pass see
    * all stale rows. No row fails, and nothing stale remains: each claim whose provider was
    * started is settled with its whole reservation charged, unless it was charged before, and
    * each other one is deleted with its reservation given back. */
  lemma CrashesConverge(w: World, rows: seq<StaleRow>, limit: nat, now: nat)
    requires Reachable(w) && now >= w.shared.clock
    requires IsStaleSelection(w.shared.db, rows, limit, now) && |StaleKeys(w.shared.db, now)| <= limit
    ensures var (counts, db') := ReconcileRows(w.shared.db, rows, now);
            && counts == Counts(|rows|, 0, |rows| - StartedIn(rows), StartedIn(rows))
            && Keys(rows) == StaleKeys(w.shared.db, now)
            && (forall key | key in db'.lifecycle :: Quiescent(db'.lifecycle[key], now))
            && (forall row | row in rows :: AtRest(db', row, now) && Accounted(w.shared.db.usage, db'.usage, row, now))
            && Recoverable(db', now)
  {
    EveryStateIsRecoverable(w, now);
    PassLeavesNothingStale(w.shared.db, rows, limit, now);
    SelectionLists(w.shared.db, rows, limit, now);
    RowsComeToRest(w.shared.db, rows, now);
  }
}
