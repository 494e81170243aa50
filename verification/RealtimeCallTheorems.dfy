/** What every interleaving of one realtime call guarantees. */
module RealtimeCallTheorems {
  import opened Basics
  import opened UsageLedger
  import opened RealtimeUsage
  import opened RealtimeCall

  // ----- What every step keeps -----

  predicate Unopened(c: Call) {
    c.activated == None && c.frozen == None && !c.doubted
  }

  /** The active call was hung up with the provider, and `sideband` is what it had used. */
  predicate HungUpWith(c: Call, sideband: UsageState) {
    && c.activated.Some? && c.activated.value in c.answered && c.frozen == Some(sideband)
    && Accurate(sideband) && (c.doubted ==> !sideband.trustworthy)
  }

  /** The usage call of this kind of ending has succeeded. */
  predicate Paid(c: Call) {
    && c.reservation.Some? && c.reservation.value in c.rows
    && var status := c.rows[c.reservation.value].status;
    if c.activated == None then Unopened(c) && status.Released?
    else
      && c.frozen.Some? && HungUpWith(c, c.frozen.value)
      && status.Finalized? && ChargeFor(c.frozen.value) == Some(status.actual)
  }

  predicate StoredSound(c: Call) {
    match c.stored
    case Empty => c.reservation == None && Unopened(c)
    case Connecting(reservationId, _) => c.reservation == Some(reservationId) && Unopened(c)
    case Active(callId, reservationId, sideband) =>
      && c.reservation == Some(reservationId) && c.activated == Some(callId) && c.frozen == None
      && callId in c.accepted && Accurate(sideband) && (c.doubted ==> !sideband.trustworthy)
    case HangupConfirmed(accepted, reservationId, sideband) =>
      c.reservation == Some(reservationId) && if accepted then HungUpWith(c, sideband) else Unopened(c)
    case SettledCall => Paid(c)
  }

  /** No accepted call is forgotten: it is hung up, active, or still held by the start. */
  predicate Owned(c: Call) {
    !c.dropped ==> forall id | id in c.accepted :: id in c.hungUp || c.activated == Some(id) || Pending(c) == Some(id)
  }

  predicate StartSound(c: Call, s: Start) {
    var mine := Some(s.reservationId);
    match s.pc
    case Reading => true
    case Checking => c.stored.Empty?
    case Unreserving => c.stored.Empty?
    case Opening => c.stored.Empty?
    case Arming => c.reservation == mine && c.activated == None
    case Dialling => c.reservation == mine && c.activated == None
    case Claiming(callId) =>
      c.reservation == mine && c.activated == None && callId in c.accepted && callId !in c.hungUp
    case HangingUpLate(callId) => c.reservation == mine && callId in c.accepted
    case Overwriting(callId) => c.reservation == mine && callId in c.accepted
    case Attaching(callId) => c.reservation == mine && c.activated == Some(callId)
    case Rechecking(callId) => c.reservation == mine && c.activated == Some(callId)
    case Answering(callId) => c.reservation == mine && c.activated == Some(callId)
    case FinalCheck(callId) => c.reservation == mine && c.activated == Some(callId)
    case Catching(heard) => c.stored.Empty? ==> heard == None
    case Rescuing(heard) => c.stored.Empty? ==> heard == None
    case Ending => true
  }

  predicate TaskSound(c: Call, task: Task) {
    match task
    case Cancelling(reservationId, _) => c.reservation == Some(reservationId)
    case HangingUp(callId) => c.activated == Some(callId)
    case Confirming(callId) => c.activated == Some(callId) && callId in c.answered
    case Settling(from) =>
      && from.HangupConfirmed? && (c.stored == from || c.stored.SettledCall?)
      && c.reservation == Some(from.reservationId)
      && if from.accepted then HungUpWith(c, from.sideband) else Unopened(c)
    case Closing => (c.stored.HangupConfirmed? || c.stored.SettledCall?) && Paid(c)
    case Recording(_, expected, result) =>
      && (result.Recorded? || result.Invalid? || result.LimitExceeded?)
      && Accurate(result.state) && (result.state.trustworthy ==> expected.trustworthy)
    case _ => true
  }

  ghost predicate Core(c: Call) {
    && Sound(c.rows, c.clock) && StoredSound(c) && Owned(c) && c.answered <= c.hungUp <= c.accepted
    && (c.start.Some? ==> StartSound(c, c.start.value))
  }

  ghost predicate CallSound(c: Call) {
    Core(c) && forall i | i in c.tasks :: TaskSound(c, c.tasks[i])
  }

  predicate SameHistory(c: Call, c': Call) {
    c'.reservation == c.reservation && c'.activated == c.activated && c'.frozen == c.frozen && c'.doubted == c.doubted
  }

  /** What any step preserves for every process that is not taking it. */
  predicate Advances(c: Call, c': Call) {
    && (c.reservation.Some? ==> c'.reservation == c.reservation)
    && (c.activated.Some? ==> c'.activated == c.activated)
    && c.hungUp <= c'.hungUp && c.answered <= c'.answered && c.accepted <= c'.accepted && Frozen(c.rows, c'.rows)
    && (c.stored.HangupConfirmed? ==> (c'.stored == c.stored || c'.stored.SettledCall?) && SameHistory(c, c'))
    && (c.stored.SettledCall? ==> c'.stored.SettledCall? && SameHistory(c, c'))
  }

  /** Tasks moreover leave an empty store empty and make no call active. */
  predicate TaskAdvances(c: Call, c': Call) {
    && Advances(c, c')
    && (c'.stored.Empty? <==> c.stored.Empty?)
    && c'.activated == c.activated && c'.accepted == c.accepted
    && c'.hungUp <= c.hungUp + (if c.activated.Some? then {c.activated.value} else {})
    && c'.blind == c.blind && c'.dropped == c.dropped
    && (c'.start == c.start || c'.start == BeginTerminate(c).start)
  }

  lemma TaskUnmoved(c: Call, c': Call, task: Task)
    requires TaskSound(c, task) && Advances(c, c')
    ensures TaskSound(c', task)
  {
  }

  lemma StartUnmoved(c: Call, c': Call)
    requires Core(c) && TaskAdvances(c, c')
    ensures c'.start.Some? ==> StartSound(c', c'.start.value)
    ensures Owned(c')
  {
  }

  // ----- Steps of a task -----

  ghost predicate TaskKeeps(c: Call, c': Call, task: Task) {
    Core(c') && TaskSound(c', task) && TaskAdvances(c, c')
  }

  lemma CancelKeeps(c: Call, reservationId: Id, sideband: UsageState, reply: Reply)
    requires Core(c) && TaskSound(c, Cancelling(reservationId, sideband))
    ensures var (c', task) := CancelStep(c, reservationId, sideband, reply); TaskKeeps(c, c', task)
  {
    StartUnmoved(c, CancelStep(c, reservationId, sideband, reply).0);
  }

  lemma HangUpKeeps(c: Call, callId: Id, reply: Reply)
    requires Core(c) && TaskSound(c, HangingUp(callId))
    ensures var (c', task) := HangUpStep(c, callId, reply); TaskKeeps(c, c', task)
  {
    StartUnmoved(c, HangUpStep(c, callId, reply).0);
  }

  lemma ConfirmKeeps(c: Call, callId: Id, reply: Reply)
    requires Core(c) && TaskSound(c, Confirming(callId))
    ensures var (c', task) := ConfirmStep(c, callId, reply); TaskKeeps(c, c', task)
  {
    StartUnmoved(c, ConfirmStep(c, callId, reply).0);
  }

  lemma UsageCallKeeps(c: Call, from: Stored, epoch: nat)
    requires Core(c) && TaskSound(c, Settling(from)) && epoch <= c.clock
    ensures var (ok, rows) := UsageCall(c.rows, from, epoch);
            && Sound(rows, c.clock) && Frozen(c.rows, rows)
            && (ok ==> Paid(c.(rows := rows)))
  {
    var id := from.reservationId;
    if !from.accepted {
      ApplyKeepsBudget(c.rows, ReleaseOp(id), epoch, c.clock);
    } else if ChargeFor(from.sideband).Some? {
      ApplyKeepsBudget(c.rows, FinalizeOp(id, ChargeFor(from.sideband).value), epoch, c.clock);
    }
  }

  lemma SettleKeeps(c: Call, from: Stored, epoch: nat, reply: Reply)
    requires Core(c) && TaskSound(c, Settling(from)) && epoch <= c.clock
    ensures var (c', task) := SettleStep(c, from, epoch, reply); TaskKeeps(c, c', task)
  {
    UsageCallKeeps(c, from, epoch);
    StartUnmoved(c, SettleStep(c, from, epoch, reply).0);
  }

  lemma CloseKeeps(c: Call, reply: Reply)
    requires Core(c) && TaskSound(c, Closing)
    ensures TaskKeeps(c, CloseStep(c, reply), Finished)
  {
    StartUnmoved(c, CloseStep(c, reply));
  }

  lemma HearKeeps(c: Call, telemetry: Telemetry)
    requires Core(c)
    ensures TaskSound(c, HearStep(c, telemetry))
  {
    if c.stored.Active? { RecordKeeps(c.stored.sideband, telemetry); }
  }

  /** New usage for the active call that does not restore trust. */
  lemma SidebandKeeps(c: Call, callId: Id, next: UsageState)
    requires Core(c) && IsActive(c.stored, callId) && Accurate(next)
    requires next.trustworthy ==> c.stored.sideband.trustworthy
    ensures TaskKeeps(c, Write(c, Active(callId, c.stored.reservationId, next)), Finished)
  {
    StartUnmoved(c, Write(c, Active(callId, c.stored.reservationId, next)));
  }

  lemma BeginTerminateKeeps(c: Call, c': Call)
    requires TaskKeeps(c, c', Finished) && c'.start == c.start
    ensures TaskKeeps(c, BeginTerminate(c'), Looking)
  {
  }

  lemma UsageSwapKeeps(c: Call, callId: Id, expected: UsageState, next: UsageState, reply: Reply)
    requires Core(c) && Accurate(next) && (next.trustworthy ==> expected.trustworthy)
    ensures TaskKeeps(c, Swap(c, ReplaceActiveUsage(c.stored, callId, expected, next), reply), Finished)
  {
    if IsActive(c.stored, callId) && c.stored.sideband == expected { SidebandKeeps(c, callId, next); }
  }

  lemma RecordStepKeeps(c: Call, callId: Id, expected: UsageState, result: RecordResult, reply: Reply)
    requires Core(c) && TaskSound(c, Recording(callId, expected, result))
    ensures var (c', task) := RecordStep(c, callId, expected, result, reply); TaskKeeps(c, c', task)
  {
    UsageSwapKeeps(c, callId, expected, result.state, reply);
    BeginTerminateKeeps(c, Swap(c, ReplaceActiveUsage(c.stored, callId, expected, result.state), reply));
  }

  lemma DisconnectKeeps(c: Call)
    requires Core(c)
    ensures var (c', task) := DisconnectStep(c); TaskKeeps(c, c', task)
  {
    BeginTerminateKeeps(c, c);
  }

  lemma MarkKeeps(c: Call, callId: Id, reply: Reply)
    requires Core(c)
    ensures var (c', task) := MarkStep(c, callId, reply); TaskKeeps(c, c', task)
  {
    var swap := MarkSidebandUntrustworthy(c.stored, callId);
    if swap.0 { SidebandKeeps(c, callId, Doubted(c.stored.sideband)); }
    BeginTerminateKeeps(c, Swap(c, swap, reply));
  }

  lemma TaskStepKeeps(c: Call, task: Task, choice: Choice)
    requires Core(c) && TaskSound(c, task) && Shaped(task)
    ensures var (c', task') := TaskStep(c, task, choice); TaskKeeps(c, c', task')
  {
    match task
    case Cancelling(reservationId, sideband) => CancelKeeps(c, reservationId, sideband, choice.reply);
    case HangingUp(callId) => HangUpKeeps(c, callId, choice.reply);
    case Confirming(callId) => ConfirmKeeps(c, callId, choice.reply);
    case Settling(from) => if choice.epoch <= c.clock { SettleKeeps(c, from, choice.epoch, choice.reply); }
    case Closing => CloseKeeps(c, choice.reply);
    case Hearing(telemetry) => HearKeeps(c, telemetry);
    case Recording(callId, expected, result) => RecordStepKeeps(c, callId, expected, result, choice.reply);
    case Disconnected => DisconnectKeeps(c);
    case Marking(callId) => MarkKeeps(c, callId, choice.reply);
    case _ =>
  }

  // ----- Steps of the start -----

  ghost predicate StartKeeps(c: Call, c': Call) {
    c'.blind || (Core(c') && Advances(c, c') && (c'.blind == c.blind))
  }

  /** The start only moves on; `Pending` may be given up once the call is active or hung up. */
  lemma MoveOnKeeps(c: Call, pc: StartPc)
    requires Core(c) && c.start.Some?
    requires StartSound(c, c.start.value.(pc := pc))
    requires Pending(c) == Pending(At(c, pc))
    ensures StartKeeps(c, At(c, pc))
  {
  }

  lemma LeaveKeeps(c: Call)
    requires Core(c) && Pending(c) == None
    ensures StartKeeps(c, Leave(c))
  {
  }

  lemma OpenKeeps(c: Call, reply: Reply)
    requires Core(c) && c.start.Some? && c.start.value.pc.Opening?
    ensures StartKeeps(c, OpenStep(c, reply))
  {
  }

  lemma DialKeeps(c: Call, choice: Choice)
    requires Core(c) && c.start.Some? && c.start.value.pc.Dialling?
    ensures StartKeeps(c, DialStep(c, choice))
  {
  }

  lemma ClaimKeeps(c: Call, callId: Id, reply: Reply)
    requires Core(c) && c.start.Some? && c.start.value.pc == Claiming(callId)
    ensures StartKeeps(c, ClaimStep(c, callId, reply))
  {
  }

  lemma HangUpLateKeeps(c: Call, callId: Id, reply: Reply)
    requires Core(c) && c.start.Some? && c.start.value.pc == HangingUpLate(callId)
    ensures StartKeeps(c, HangUpLateStep(c, callId, reply))
  {
  }

  lemma OverwriteKeeps(c: Call, callId: Id, reply: Reply)
    requires Core(c) && c.start.Some? && c.start.value.pc == Overwriting(callId)
    ensures StartKeeps(c, OverwriteStep(c, callId, reply))
  {
  }

  lemma RescueKeeps(c: Call, heard: Option<Id>, reply: Reply)
    requires Core(c) && c.start.Some? && c.start.value.pc == Rescuing(heard)
    ensures StartKeeps(c, RescueStep(c, heard, reply))
  {
  }

  lemma UnreserveKeeps(c: Call, epoch: nat)
    requires Core(c) && c.start.Some? && c.start.value.pc == Unreserving && epoch <= c.clock
    ensures StartKeeps(c, Leave(c.(rows := Release(c.rows, c.start.value.reservationId, epoch).1)))
  {
    ApplyKeepsBudget(c.rows, ReleaseOp(c.start.value.reservationId), epoch, c.clock);
  }

  predicate HoldsNothing(pc: StartPc) {
    !pc.Claiming? && !pc.HangingUpLate? && !pc.Overwriting?
  }

  lemma MoveIsSound(c: Call, s: Start, choice: Choice)
    requires StoredSound(c) && StartSound(c, s) && OnlyMoves(s.pc)
    ensures var pc := MovedTo(c, s, choice);
            pc.Some? ==> StartSound(c, s.(pc := pc.value)) && HoldsNothing(pc.value)
  {
  }

  lemma PendingNothing(c: Call)
    requires c.start.Some? ==> HoldsNothing(c.start.value.pc)
    ensures Pending(c) == None
  {
  }

  lemma MoveKeeps(c: Call, choice: Choice)
    requires Core(c) && c.start.Some? && OnlyMoves(c.start.value.pc)
    ensures StartKeeps(c, StartStep(c, choice))
  {
    MoveIsSound(c, c.start.value, choice);
    PendingNothing(c);
    var pc := MovedTo(c, c.start.value, choice);
    if pc.Some? {
      PendingNothing(At(c, pc.value));
      MoveOnKeeps(c, pc.value);
    } else {
      LeaveKeeps(c);
    }
  }

  lemma StartStepKeeps(c: Call, choice: Choice)
    requires Core(c) && c.start.Some? && !c.start.value.pc.Ending?
    ensures StartKeeps(c, StartStep(c, choice))
  {
    if OnlyMoves(c.start.value.pc) {
      MoveKeeps(c, choice);
    } else {
      match c.start.value.pc
      case Unreserving =>
        if choice.epoch <= c.clock { UnreserveKeeps(c, choice.epoch); }
        LeaveKeeps(c);
      case Opening => OpenKeeps(c, choice.reply);
      case Dialling => DialKeeps(c, choice);
      case Claiming(callId) => ClaimKeeps(c, callId, choice.reply);
      case HangingUpLate(callId) => HangUpLateKeeps(c, callId, choice.reply);
      case Overwriting(callId) => OverwriteKeeps(c, callId, choice.reply);
      case Rescuing(heard) => RescueKeeps(c, heard, choice.reply);
    }
  }

  // ----- Runs -----

  lemma OthersUnmoved(c: Call, c': Call)
    requires CallSound(c) && Core(c') && Advances(c, c') && c'.tasks == c.tasks
    ensures CallSound(c')
  {
    forall i | i in c'.tasks ensures TaskSound(c', c'.tasks[i]) { TaskUnmoved(c, c', c.tasks[i]); }
  }

  /** Task `i` is new or has just taken the step that leads to `c'` and `task`. */
  lemma TaskReplaced(c: Call, c': Call, i: nat, task: Task)
    requires CallSound(c) && Core(c') && TaskSound(c', task) && Advances(c, c')
    ensures CallSound(c'.(tasks := c.tasks[i := task]))
  {
    var c'' := c'.(tasks := c.tasks[i := task]);
    assert Core(c'');
    forall j | j in c''.tasks
      ensures TaskSound(c'', c''.tasks[j])
    {
      if j != i { TaskUnmoved(c, c'', c.tasks[j]); } else { TaskUnmoved(c', c'', task); }
    }
  }

  lemma EndKeeps(c: Call, i: nat)
    requires CallSound(c) && c.start.Some? && c.start.value.pc.Ending? && i !in c.tasks
    ensures CallSound(Leave(c.(tasks := c.tasks[i := Looking])))
  {
    PendingNothing(c);
    LeaveKeeps(c);
    TaskReplaced(c, Leave(c), i, Looking);
    assert Leave(c.(tasks := c.tasks[i := Looking])) == Leave(c).(tasks := c.tasks[i := Looking]);
  }

  lemma StartTouches(c: Call, choice: Choice)
    requires c.start.Some? && !c.start.value.pc.Ending?
    ensures StartStep(c, choice).tasks == c.tasks && (c.blind ==> StartStep(c, choice).blind)
  {
  }

  lemma StepStartKeeps(c: Call, choice: Choice)
    requires CallSound(c) && c.start.Some?
    ensures var c' := StartStep(c, choice); !c'.blind ==> CallSound(c')
  {
    if c.start.value.pc.Ending? {
      if choice.task !in c.tasks { EndKeeps(c, choice.task); }
    } else {
      var c' := StartStep(c, choice);
      StartStepKeeps(c, choice);
      StartTouches(c, choice);
      if !c'.blind { OthersUnmoved(c, c'); }
    }
  }

  lemma StepTaskKeeps(c: Call, i: nat, choice: Choice)
    requires CallSound(c)
    ensures CallSound(Next(c, StepTask(i, choice)))
  {
    if i in c.tasks && Shaped(c.tasks[i]) {
      TaskStepKeeps(c, c.tasks[i], choice);
      var (c', task) := TaskStep(c, c.tasks[i], choice);
      TaskReplaced(c, c', i, task);
    }
  }

  lemma TickKeeps(c: Call, to: nat)
    requires CallSound(c)
    ensures CallSound(Next(c, Tick(to)))
  {
    if c.clock <= to {
      SoundLater(c.rows, c.clock, to);
      StartUnmoved(c, c.(clock := to));
      OthersUnmoved(c, c.(clock := to));
    }
  }

  lemma ForeignKeeps(c: Call, op: Op, epoch: nat)
    requires CallSound(c)
    ensures CallSound(Next(c, Foreign(op, epoch)))
  {
    if epoch <= c.clock {
      var c' := c.(rows := Apply(c.rows, op, epoch));
      ApplyKeepsBudget(c.rows, op, epoch, c.clock);
      StartUnmoved(c, c');
      OthersUnmoved(c, c');
    }
  }

  lemma SpawnKeeps(c: Call, i: nat, task: Task)
    requires CallSound(c)
    ensures CallSound(Next(c, Spawn(i, task)))
  {
    if i !in c.tasks && IsEntry(task) {
      BeginTerminateKeeps(c, c);
      TaskReplaced(c, if task.Looking? then BeginTerminate(c) else c, i, task);
    }
  }

  lemma BeginStartKeeps(c: Call, reservationId: Id)
    requires CallSound(c) && c.start.None?
    ensures CallSound(c.(start := Some(Start(reservationId, false, Reading))))
  {
    var c' := c.(start := Some(Start(reservationId, false, Reading)));
    PendingNothing(c);
    PendingNothing(c');
    OthersUnmoved(c, c');
  }

  lemma RestartKeeps(c: Call)
    requires CallSound(c)
    ensures CallSound(Next(c, Restart))
  {
  }

  lemma NextKeeps(c: Call, action: Action)
    requires CallSound(c)
    ensures !Next(c, action).blind ==> CallSound(Next(c, action))
  {
    match action
    case BeginStart(reservationId) => if c.start.None? { BeginStartKeeps(c, reservationId); }
    case StepStart(choice) => if c.start.Some? { StepStartKeeps(c, choice); }
    case Spawn(i, task) => SpawnKeeps(c, i, task);
    case StepTask(i, choice) => StepTaskKeeps(c, i, choice);
    case Tick(to) => TickKeeps(c, to);
    case Foreign(op, epoch) => ForeignKeeps(c, op, epoch);
    case Restart => RestartKeeps(c);
  }

  lemma TaskKeepsBlind(c: Call, task: Task, choice: Choice)
    requires Shaped(task)
    ensures TaskStep(c, task, choice).0.blind == c.blind
  {
  }

  lemma BlindStays(c: Call, action: Action)
    requires c.blind
    ensures Next(c, action).blind
  {
    match action
    case StepStart(choice) => if c.start.Some? && !c.start.value.pc.Ending? { StartTouches(c, choice); }
    case StepTask(i, choice) => if i in c.tasks && Shaped(c.tasks[i]) { TaskKeepsBlind(c, c.tasks[i], choice); }
    case _ =>
  }

  /** Unless a start overwrote a state it had not seen, every reachable state is sound. */
  lemma {:induction false} EveryRunIsSound(c: Call, schedule: seq<Action>)
    requires CallSound(c)
    ensures !Run(c, schedule).blind ==> CallSound(Run(c, schedule))
    decreases |schedule|
  {
    if schedule != [] {
      var before := Run(c, schedule[..|schedule|-1]);
      EveryRunIsSound(c, schedule[..|schedule|-1]);
      if before.blind { BlindStays(before, schedule[|schedule|-1]); } else { NextKeeps(before, schedule[|schedule|-1]); }
    }
  }

  lemma NewCallIsSound(rows: Ledger, clock: nat)
    requires Sound(rows, clock)
    ensures CallSound(NewCall(rows, clock))
  {
  }

  // ----- The theorems -----

  /** The states of all runs: any ledger within budget, any schedule. */
  ghost predicate Reachable(c: Call) {
    exists rows, clock, schedule :: Sound(rows, clock) && Run(NewCall(rows, clock), schedule) == c
  }

  lemma ReachableIsSound(c: Call)
    requires Reachable(c) && !c.blind
    ensures CallSound(c)
  {
    var rows, clock, schedule :| Sound(rows, clock) && Run(NewCall(rows, clock), schedule) == c;
    NewCallIsSound(rows, clock);
    EveryRunIsSound(NewCall(rows, clock), schedule);
  }

  /** Hang up before settle: the call id made active leaves the active state only after the
    * provider has confirmed its hang-up. */
  lemma HangUpPrecedesSettlement(c: Call)
    requires Reachable(c) && !c.blind && c.activated.Some?
    ensures || (IsActive(c.stored, c.activated.value) && c.frozen == None)
            || (c.activated.value in c.answered
                && (c.stored.SettledCall? || (c.stored.HangupConfirmed? && c.stored.accepted)))
  {
    ReachableIsSound(c);
  }

  /** One kind of settlement: `settled` is written only after the reservation was released,
    * if no call ever became active, or finalized with exactly the usage at the confirmed
    * hang-up. An active call that ever lost its trust is charged the whole reservation. */
  lemma OneKindOfSettlement(c: Call)
    requires Reachable(c) && !c.blind && c.stored.SettledCall?
    ensures c.reservation.Some? && c.reservation.value in c.rows
    ensures c.activated == None ==> c.rows[c.reservation.value].status.Released?
    ensures c.activated.Some? ==>
              && c.frozen.Some? && c.rows[c.reservation.value].status.Finalized?
              && ChargeFor(c.frozen.value) == Some(c.rows[c.reservation.value].status.actual)
              && (c.doubted ==> c.rows[c.reservation.value].status.actual == RESERVED)
  {
    ReachableIsSound(c);
  }

  /** Lost trust is never restored, whatever events are recorded concurrently. */
  lemma TrustIsNotRestored(c: Call)
    requires Reachable(c) && !c.blind && c.doubted
    ensures c.activated.Some?
    ensures c.stored.Active? || c.stored.HangupConfirmed? ==> !c.stored.sideband.trustworthy
    ensures c.frozen.Some? ==> ChargeFor(c.frozen.value) == Some(RESERVED)
  {
    ReachableIsSound(c);
  }

  /** When everything is over, every call the provider accepted has been hung up, unless its
    * id was lost before it could be stored. */
  lemma NoCallIsForgotten(c: Call)
    requires Reachable(c) && !c.blind && !c.dropped && c.stored.SettledCall? && c.start.None?
    ensures c.accepted == c.hungUp
  {
    ReachableIsSound(c);
    forall id | id in c.accepted
      ensures id in c.hungUp
    {
      if c.activated == Some(id) { assert id in c.answered; }
    }
  }

  // ----- When a termination can settle -----

  /** A step of task `i` in which every outside call is answered. */
  ghost function Answer(c: Call, i: nat): Call {
    Next(c, StepTask(i, Choice(Answered, true, 0, c.clock, 0)))
  }

  ghost function Undisturbed(c: Call, i: nat, steps: nat): Call
    decreases steps
  {
    if steps == 0 then c else Undisturbed(Answer(c, i), i, steps - 1)
  }

  /** What the termination of this state will be charged for, if anything. */
  function Owed(s: Stored): Option<UsageState> {
    match s
    case Active(_, _, sideband) => Some(sideband)
    case HangupConfirmed(accepted, _, sideband) => if accepted then Some(sideband) else None
    case _ => None
  }

  predicate CanSettle(s: Stored) {
    Owed(s).Some? ==> Chargeable(Owed(s).value)
  }

  predicate Waiting(c: Call) {
    && c.reservation.Some? && c.reservation.value in c.rows
    && c.rows[c.reservation.value].status.Held? && c.rows[c.reservation.value].estimated == RESERVED
  }

  lemma {:induction false} FinishedStays(c: Call, i: nat, steps: nat)
    requires i in c.tasks && c.tasks[i] == Finished
    ensures Undisturbed(c, i, steps) == c
    decreases steps
  {
    if steps > 0 {
      assert c.tasks[i := Finished] == c.tasks;
      FinishedStays(c, i, steps - 1);
    }
  }

  lemma AnsweredSettle(c: Call, i: nat)
    requires c.stored.HangupConfirmed? && i in c.tasks && c.tasks[i] == Settling(c.stored)
    ensures var c2 := Answer(Answer(c, i), i);
            && i in c2.tasks && c2.tasks[i] == Finished
            && (c2.stored, c2.rows) == (Settled(c.stored, c.rows, c.clock).1, Settled(c.stored, c.rows, c.clock).2)
  {
    var c1 := Answer(c, i);
    assert c1.stored == c.stored && c1.rows == UsageCall(c.rows, c.stored, c.clock).1;
    assert c1.tasks[i] == (if UsageCall(c.rows, c.stored, c.clock).0 then Closing else Finished);
  }

  lemma TwoSteps(c: Call, i: nat, steps: nat)
    requires steps >= 2
    ensures Undisturbed(c, i, steps) == Undisturbed(Answer(Answer(c, i), i), i, steps - 2)
  {
    assert Undisturbed(c, i, steps) == Undisturbed(Answer(c, i), i, steps - 1);
  }

  lemma SettlingEnds(c: Call, i: nat, steps: nat)
    requires c.stored.HangupConfirmed? && i in c.tasks && c.tasks[i] == Settling(c.stored) && steps >= 2
    ensures var last := Undisturbed(c, i, steps);
            (last.stored, last.rows) == (Settled(c.stored, c.rows, c.clock).1, Settled(c.stored, c.rows, c.clock).2)
  {
    AnsweredSettle(c, i);
    TwoSteps(c, i, steps);
    FinishedStays(Answer(Answer(c, i), i), i, steps - 2);
  }

  lemma AnsweredLook(c: Call, i: nat)
    requires i in c.tasks && c.tasks[i].Looking?
    ensures Answer(c, i) == c.(tasks := c.tasks[i := LookStep(c)])
  {
  }

  lemma AnsweredCancel(c: Call, i: nat)
    requires c.stored.Connecting?
    requires i in c.tasks && c.tasks[i] == Cancelling(c.stored.reservationId, c.stored.sideband)
    ensures var c' := Answer(c, i);
            var next := HangupConfirmed(false, c.stored.reservationId, c.stored.sideband);
            c'.stored == next && i in c'.tasks && c'.tasks[i] == Settling(next)
            && c'.rows == c.rows && c'.clock == c.clock
  {
  }

  lemma AnsweredHangUp(c: Call, i: nat)
    requires c.stored.Active?
    requires i in c.tasks && c.tasks[i] == HangingUp(c.stored.callId)
    ensures var c' := Answer(Answer(c, i), i);
            var next := HangupConfirmed(true, c.stored.reservationId, c.stored.sideband);
            c'.stored == next && i in c'.tasks && c'.tasks[i] == Settling(next)
            && c'.rows == c.rows && c'.clock == c.clock
  {
    var c1 := Answer(c, i);
    assert c1 == HangUp(c, c.stored.callId, Answered).(tasks := c.tasks[i := Confirming(c.stored.callId)]);
    assert Answer(c1, i) == Write(c1, ConfirmHangup(c.stored, c.stored.callId).1).(
        tasks := c1.tasks[i := Settling(ConfirmHangup(c.stored, c.stored.callId).1)]);
  }

  lemma AnsweredNothing(c: Call, i: nat)
    requires (c.stored.Empty? || c.stored.SettledCall?) && i in c.tasks && c.tasks[i].Looking?
    ensures var last := Undisturbed(c, i, 5); last.stored == c.stored && last.rows == c.rows
  {
    AnsweredLook(c, i);
    FinishedStays(Answer(c, i), i, 4);
  }

  /** The steps of an undisturbed termination do what the straight-line code does. */
  lemma TerminationEnds(c: Call, i: nat)
    requires i in c.tasks && c.tasks[i].Looking?
    ensures var last := Undisturbed(c, i, 5);
            var (done, stored, rows) := Terminated(c.stored, c.rows, true, c.clock);
            last.stored == stored && last.rows == rows
  {
    AnsweredLook(c, i);
    var c1 := Answer(c, i);
    var c2 := Answer(c1, i);
    assert Undisturbed(c, i, 5) == Undisturbed(c1, i, 4) == Undisturbed(c2, i, 3);
    match c.stored {
      case HangupConfirmed(_, _, _) => SettlingEnds(c1, i, 4);
      case Connecting(_, _) => AnsweredCancel(c1, i); SettlingEnds(c2, i, 3);
      case Active(_, _, _) =>
        AnsweredHangUp(c1, i);
        assert Undisturbed(c2, i, 3) == Undisturbed(Answer(c2, i), i, 2);
        SettlingEnds(Answer(c2, i), i, 2);
      case _ => AnsweredNothing(c, i);
    }
  }

  /** A termination that the provider answers settles a call over a held reservation if and
    * only if nothing is owed or what is owed can be charged. */
  lemma TerminatedSettlesIff(stored: Stored, rows: Ledger, now: nat)
    requires Sound(rows, now) && !stored.Empty? && !stored.SettledCall?
    requires Owed(stored).Some? ==> Accurate(Owed(stored).value)
    requires stored.reservationId in rows && rows[stored.reservationId].status.Held?
    requires rows[stored.reservationId].estimated == RESERVED
    ensures Terminated(stored, rows, true, now).1.SettledCall? <==> CanSettle(stored)
  {
    var owed := Owed(stored);
    if owed.Some? { FreshChargeSucceedsIff(rows, stored.reservationId, owed.value, now); }
  }

  /** So it is from every sound state of a call whose reservation is held. */
  lemma TerminationSettlesIff(c: Call)
    requires Core(c) && Waiting(c) && !c.stored.Empty? && !c.stored.SettledCall?
    ensures Terminated(c.stored, c.rows, true, c.clock).1.SettledCall? <==> CanSettle(c.stored)
  {
    TerminatedSettlesIff(c.stored, c.rows, c.clock);
  }

  // ----- A reservation released by somebody else -----

  lemma TasksAdvance(c: Call, i: nat, choice: Choice)
    requires CallSound(c) && i in c.tasks && Shaped(c.tasks[i])
    ensures Advances(c, Next(c, StepTask(i, choice)))
  {
    TaskStepKeeps(c, c.tasks[i], choice);
  }

  lemma StartAdvances(c: Call, choice: Choice)
    requires CallSound(c) && c.start.Some? && !StartStep(c, choice).blind
    ensures Advances(c, StartStep(c, choice))
  {
    if !c.start.value.pc.Ending? { StartStepKeeps(c, choice); }
  }

  lemma LedgerAdvances(c: Call, rows: Ledger)
    requires StoredSound(c) && Frozen(c.rows, rows)
    ensures Advances(c, c.(rows := rows))
  {
  }

  lemma ForeignAdvances(c: Call, op: Op, epoch: nat)
    requires CallSound(c)
    ensures Advances(c, Next(c, Foreign(op, epoch)))
  {
    if epoch <= c.clock { ApplyKeepsBudget(c.rows, op, epoch, c.clock); LedgerAdvances(c, Apply(c.rows, op, epoch)); }
  }

  lemma SameRecordAdvances(c: Call, c': Call)
    requires c'.stored == c.stored && c'.rows == c.rows && SameHistory(c, c')
    requires c'.hungUp == c.hungUp && c'.answered == c.answered && c'.accepted == c.accepted
    ensures Advances(c, c')
  {
  }

  lemma ProcessesAdvance(c: Call, action: Action)
    requires action.BeginStart? || action.Spawn? || action.Tick? || action.Restart?
    ensures Advances(c, Next(c, action))
  {
    SameRecordAdvances(c, Next(c, action));
  }

  lemma NextAdvances(c: Call, action: Action)
    requires CallSound(c) && !Next(c, action).blind
    ensures Advances(c, Next(c, action))
  {
    match action
    case StepStart(choice) => if c.start.Some? { StartAdvances(c, choice); }
    case StepTask(i, choice) => if i in c.tasks && Shaped(c.tasks[i]) { TasksAdvance(c, i, choice); }
    case Foreign(op, epoch) => ForeignAdvances(c, op, epoch);
    case _ => ProcessesAdvance(c, action);
  }

  lemma SwapsMoveForward(c: Call, task: Task, reply: Reply)
    requires task.Cancelling? || task.Confirming? || task.Marking?
    ensures match task
            case Cancelling(reservationId, sideband) => Forward(c.stored, CancelStep(c, reservationId, sideband, reply).0.stored)
            case Confirming(callId) => Forward(c.stored, ConfirmStep(c, callId, reply).0.stored)
            case Marking(callId) => Forward(c.stored, MarkStep(c, callId, reply).0.stored)
            case _ => true
  {
  }

  lemma TaskMovesForward(c: Call, task: Task, choice: Choice)
    requires CallSound(c) && TaskSound(c, task) && Shaped(task)
    ensures Forward(c.stored, TaskStep(c, task, choice).0.stored)
  {
    if task.Cancelling? || task.Confirming? || task.Marking? {
      SwapsMoveForward(c, task, choice.reply);
    } else if task.Recording? || task.Closing? {
    } else {
      assert TaskStep(c, task, choice).0.stored == c.stored;
    }
  }

  lemma SwapMovesForward(c: Call, callId: Id, reply: Reply)
    requires CallSound(c) && c.start.Some?
    ensures Forward(c.stored, ClaimStep(c, callId, reply).stored)
    ensures Forward(c.stored, HangUpLateStep(c, callId, reply).stored)
  {
  }

  lemma WriteMovesForward(c: Call, callId: Id, heard: Option<Id>, reply: Reply)
    requires c.start.Some?
    ensures !OverwriteStep(c, callId, reply).blind ==> Forward(c.stored, OverwriteStep(c, callId, reply).stored)
    ensures !RescueStep(c, heard, reply).blind ==> Forward(c.stored, RescueStep(c, heard, reply).stored)
  {
  }

  lemma MoveIsSilent(c: Call, choice: Choice)
    requires c.start.Some? && OnlyMoves(c.start.value.pc)
    ensures StartStep(c, choice).stored == c.stored
  {
  }

  lemma StartMovesForward(c: Call, choice: Choice)
    requires CallSound(c) && c.start.Some? && !StartStep(c, choice).blind
    ensures Forward(c.stored, StartStep(c, choice).stored)
  {
    var pc := c.start.value.pc;
    if OnlyMoves(pc) {
      MoveIsSilent(c, choice);
    } else if pc.Claiming? || pc.HangingUpLate? {
      SwapMovesForward(c, pc.callId, choice.reply);
    } else if pc.Overwriting? || pc.Rescuing? {
      WriteMovesForward(c, if pc.Overwriting? then pc.callId else 0, if pc.Rescuing? then pc.heard else None, choice.reply);
    }
  }

  /** In every run without an unseen overwrite the stored call only moves forward. */
  lemma StoredMovesForward(c: Call, action: Action)
    requires CallSound(c) && !Next(c, action).blind
    ensures Forward(c.stored, Next(c, action).stored)
  {
    match action
    case StepStart(choice) => if c.start.Some? { StartMovesForward(c, choice); }
    case StepTask(i, choice) => if i in c.tasks && Shaped(c.tasks[i]) { TaskMovesForward(c, c.tasks[i], choice); }
    case _ =>
  }

  predicate ReleasedUnderActiveCall(c: Call) {
    c.activated.Some? && c.reservation.Some? && c.reservation.value in c.rows
    && c.rows[c.reservation.value].status.Released?
  }

  /** Once another user of the limiter has released the reservation of a call that became
    * active, no continuation ever settles that call. */
  lemma {:induction false} ReleasedCallNeverSettles(c: Call, schedule: seq<Action>)
    requires CallSound(c) && ReleasedUnderActiveCall(c)
    ensures var last := Run(c, schedule);
            !last.blind ==> CallSound(last) && ReleasedUnderActiveCall(last) && !last.stored.SettledCall?
    decreases |schedule|
  {
    if schedule != [] {
      var before, action := Run(c, schedule[..|schedule|-1]), schedule[|schedule|-1];
      ReleasedCallNeverSettles(c, schedule[..|schedule|-1]);
      if before.blind {
        BlindStays(before, action);
      } else if !Next(before, action).blind {
        NextKeeps(before, action);
        NextAdvances(before, action);
      }
    }
  }

  // ----- The blind write -----

  const YES: Choice := Choice(Answered, true, 7, 0, 0)
  const NO: Choice := Choice(Refused, true, 7, 0, 0)

  lemma Extend(c: Call, schedule: seq<Action>, action: Action) returns (longer: seq<Action>)
    ensures longer == schedule + [action] && Run(c, longer) == Next(Run(c, schedule), action)
  {
    longer := schedule + [action];
    assert longer[..|longer|-1] == schedule;
  }

  function Dialled(rows: Ledger): Call {
    NewCall(rows, 0).(stored := Connecting(0, Doubted(NO_USAGE)), reservation := Some(0),
                      start := Some(Start(0, false, Dialling)))
  }

  lemma ReachesDialling(rows: Ledger) returns (schedule: seq<Action>)
    ensures Run(NewCall(rows, 0), schedule) == Dialled(rows)
  {
    var c := NewCall(rows, 0);
    schedule := Extend(c, [], BeginStart(0));
    schedule := Extend(c, schedule, StepStart(YES));
    assert Run(c, schedule) == c.(start := Some(Start(0, false, Checking)));
    schedule := Extend(c, schedule, StepStart(YES));
    schedule := Extend(c, schedule, StepStart(YES));
    assert Run(c, schedule).start == Some(Start(0, false, Arming));
    schedule := Extend(c, schedule, StepStart(YES));
  }

  /** A termination cancels the claim and settles while the provider accepts the call. */
  lemma ReachesLateAccept(rows: Ledger) returns (schedule: seq<Action>)
    requires 0 in rows && rows[0].status.Held? && rows[0].reservedAt == 0
    ensures var c := Run(NewCall(rows, 0), schedule);
            && c.stored.SettledCall? && c.activated == None && c.start == Some(Start(0, true, Claiming(7)))
            && 0 in c.rows && c.rows[0].status.Released? && !c.blind && c.accepted == {7} && c.hungUp == {}
  {
    var c := NewCall(rows, 0);
    schedule := ReachesDialling(rows);
    schedule := Extend(c, schedule, StepStart(YES));
    schedule := Extend(c, schedule, Spawn(0, Looking));
    var c0 := Run(c, schedule);
    assert c0 == Dialled(rows).(start := Some(Start(0, true, Claiming(7))), tasks := map[0 := Looking], accepted := {7});
    schedule := Extend(c, schedule, StepTask(0, YES));
    schedule := Extend(c, schedule, StepTask(0, YES));
    var c2 := Run(c, schedule);
    assert c2.stored == HangupConfirmed(false, 0, Doubted(NO_USAGE)) && c2.tasks == map[0 := Settling(c2.stored)];
    schedule := Extend(c, schedule, StepTask(0, YES));
    assert Run(c, schedule).tasks[0] == Closing;
    schedule := Extend(c, schedule, StepTask(0, YES));
  }

  /** The exclusion is needed: when the late hang-up of an accepted call fails, a settled
    * call becomes active again over a released reservation. */
  lemma BlindWriteRevivesSettledCall(rows: Ledger) returns (schedule: seq<Action>)
    requires 0 in rows && rows[0].status.Held? && rows[0].reservedAt == 0
    ensures var c := Run(NewCall(rows, 0), schedule);
            IsActive(c.stored, 7) && c.blind && 7 !in c.hungUp && 0 in c.rows && c.rows[0].status.Released?
  {
    var c := NewCall(rows, 0);
    schedule := ReachesLateAccept(rows);
    schedule := Extend(c, schedule, StepStart(YES));
    assert Run(c, schedule).start == Some(Start(0, true, HangingUpLate(7)));
    schedule := Extend(c, schedule, StepStart(NO));
    assert Run(c, schedule).start == Some(Start(0, true, Overwriting(7)));
    schedule := Extend(c, schedule, StepStart(YES));
  }

  lemma ReachesActive(rows: Ledger) returns (schedule: seq<Action>)
    ensures Run(NewCall(rows, 0), schedule)
            == Dialled(rows).(stored := Active(7, 0, NO_USAGE), activated := Some(7), accepted := {7},
                              start := Some(Start(0, false, Attaching(7))))
  {
    var c := NewCall(rows, 0);
    schedule := ReachesDialling(rows);
    schedule := Extend(c, schedule, StepStart(YES));
    schedule := Extend(c, schedule, StepStart(YES));
  }

  lemma HearsOne(rows: Ledger, e: Entry, usage: UsageState) returns (schedule: seq<Action>)
    requires Record(NO_USAGE, Reported(e)) == Recorded(usage) && usage.trustworthy
    ensures var c := Run(NewCall(rows, 0), schedule); c.stored == Active(7, 0, usage) && !c.blind && c.rows == rows
  {
    var c := NewCall(rows, 0);
    schedule := ReachesActive(rows);
    schedule := Extend(c, schedule, Spawn(0, Hearing(Reported(e))));
    assert Run(c, schedule).tasks == map[0 := Hearing(Reported(e))];
    schedule := Extend(c, schedule, StepTask(0, YES));
    assert Run(c, schedule).tasks[0] == Recording(7, NO_USAGE, Recorded(usage));
    schedule := Extend(c, schedule, StepTask(0, YES));
  }

  /** The recorder's trusted totals can exceed what the limiter charges: a run from the new
    * call in which one well-formed event makes the active call one that cannot settle. */
  lemma TrustedCallCanBeUnchargeable(rows: Ledger, e: Entry) returns (schedule: seq<Action>)
    requires e == Transcription(0, 0, 0.5) || e == Response(0, 0, Tokens(0, 400_000, 0, 0, 0, 0, 0, 0))
    ensures var c := Run(NewCall(rows, 0), schedule);
            c.stored.Active? && c.stored.sideband.trustworthy && !c.blind && c.rows == rows && !CanSettle(c.stored)
  {
    TrustedUsageCanBeUnchargeable(e);
    schedule := HearsOne(rows, e, Record(NO_USAGE, Reported(e)).state);
  }
}
