/** JudgeRealtimeCallLifecycle over its durable storage: starting, terminating, recording
  * and disconnecting run interleaved, split at every await. */
module RealtimeCall {
  import opened Basics
  import opened UsageLedger
  import opened RealtimeUsage
  import opened UsageLimiter

  datatype Stored =
    | Empty
    | Connecting(reservationId: Id, sideband: UsageState)
    | Active(callId: Id, reservationId: Id, sideband: UsageState)
    | HangupConfirmed(accepted: bool, reservationId: Id, sideband: UsageState)
    | SettledCall

  // ----- The storage transactions -----

  predicate IsActive(s: Stored, callId: Id) {
    s.Active? && s.callId == callId
  }

  function ReplaceConnecting(s: Stored, reservationId: Id, next: Stored): (bool, Stored) {
    if s.Connecting? && s.reservationId == reservationId then (true, next) else (false, s)
  }

  function ConfirmHangup(s: Stored, callId: Id): (bool, Stored) {
    if IsActive(s, callId) then (true, HangupConfirmed(true, s.reservationId, s.sideband)) else (false, s)
  }

  function MarkSidebandUntrustworthy(s: Stored, callId: Id): (bool, Stored) {
    if IsActive(s, callId) then (true, Active(callId, s.reservationId, Doubted(s.sideband))) else (false, s)
  }

  function ReplaceActiveUsage(s: Stored, callId: Id, expected: UsageState, next: UsageState): (bool, Stored) {
    if IsActive(s, callId) && s.sideband == expected then (true, Active(callId, s.reservationId, next)) else (false, s)
  }

  /** The order of a call's life: it keeps its reservation and its call id, an active call is
    * left only through a confirmed hang-up, and a settled one not at all. */
  predicate Forward(from: Stored, to: Stored) {
    from == to ||
    match from
    case Empty => !to.SettledCall?
    case Connecting(reservationId, _) => (to.Active? || to.HangupConfirmed?) && to.reservationId == reservationId
    case Active(callId, reservationId, _) =>
      && (to.Active? || to.HangupConfirmed?) && to.reservationId == reservationId
      && (if to.Active? then to.callId == callId else to.accepted)
    case HangupConfirmed(_, _, _) => to.SettledCall?
    case SettledCall => false
  }

  class JudgeRealtimeCallStorage {
    var state: Stored

    constructor ()
      ensures state == Empty
    {
      state := Empty;
    }

    method Put(next: Stored)
      modifies this
      ensures state == next
    {
      state := next;
    }

    method SwapConnecting(reservationId: Id, next: Stored) returns (swapped: bool)
      modifies this
      ensures (swapped, state) == ReplaceConnecting(old(state), reservationId, next)
      ensures (next.Active? || next.HangupConfirmed?) && next.reservationId == reservationId ==> Forward(old(state), state)
    {
      if !state.Connecting? || state.reservationId != reservationId {
        return false;
      }
      state := next;
      return true;
    }

    method SwapHangup(callId: Id) returns (confirmed: bool)
      modifies this
      ensures (confirmed, state) == ConfirmHangup(old(state), callId) && Forward(old(state), state)
    {
      if !IsActive(state, callId) {
        return false;
      }
      state := HangupConfirmed(true, state.reservationId, state.sideband);
      return true;
    }

    method SwapTrust(callId: Id) returns (marked: bool)
      modifies this
      ensures (marked, state) == MarkSidebandUntrustworthy(old(state), callId) && Forward(old(state), state)
    {
      if !IsActive(state, callId) {
        return false;
      }
      if state.sideband.trustworthy {
        state := Active(callId, state.reservationId, Doubted(state.sideband));
      }
      return true;
    }

    method SwapUsage(callId: Id, expected: UsageState, next: UsageState) returns (swapped: bool)
      modifies this
      ensures (swapped, state) == ReplaceActiveUsage(old(state), callId, expected, next) && Forward(old(state), state)
    {
      if !IsActive(state, callId) || state.sideband != expected {
        return false;
      }
      state := Active(callId, state.reservationId, next);
      return true;
    }
  }

  // ----- Processes -----

  // The one start in progress: the await it stands at.
  datatype StartPc =
    | Reading
    | Checking
    | Unreserving
    | Opening
    | Arming
    | Dialling
    | Claiming(callId: Id)
    | HangingUpLate(callId: Id)
    | Overwriting(callId: Id)
    | Attaching(callId: Id)
    | Rechecking(callId: Id)
    | Answering(callId: Id)
    | FinalCheck(callId: Id)
    | Catching(heard: Option<Id>)
    | Rescuing(heard: Option<Id>)
    | Ending

  datatype Start = Start(reservationId: Id, cancelled: bool, pc: StartPc)

  // Terminations, provider events and sideband disconnects; any number at once.
  datatype Task =
    | Looking
    | Cancelling(reservationId: Id, sideband: UsageState)
    | HangingUp(callId: Id)
    | Confirming(callId: Id)
    | Settling(from: Stored)
    | Closing
    | Hearing(telemetry: Telemetry)
    | Recording(callId: Id, expected: UsageState, result: RecordResult)
    | Disconnected
    | Marking(callId: Id)
    | Finished

  // An outside call takes effect and answers, takes effect and throws, or only throws.
  datatype Reply = Answered | Lost | Refused

  datatype Choice = Choice(reply: Reply, works: bool, callId: Id, epoch: nat, task: nat)

  // `accepted` are the calls the provider accepted, `hungUp` those it has ended, and
  // `answered` those whose end it has confirmed to us.
  // `reservation`, `activated`, `frozen` and `doubted` remember what was ever written:
  // the reservation of the call, its active call id, the usage at the confirmed hang-up,
  // and whether an active call ever lost its trust. `blind` notes a write that ignored
  // another state, `dropped` an accepted call id that was lost before it was stored.
  datatype Call = Call(
    stored: Stored,
    rows: Ledger,
    clock: nat,
    start: Option<Start>,
    tasks: map<nat, Task>,
    accepted: set<Id>,
    hungUp: set<Id>,
    answered: set<Id>,
    reservation: Option<Id>,
    activated: Option<Id>,
    frozen: Option<UsageState>,
    doubted: bool,
    blind: bool,
    dropped: bool)

  function Write(c: Call, next: Stored): Call {
    c.(stored := next,
       reservation := if next.Empty? || next.SettledCall? then c.reservation else Some(next.reservationId),
       activated := if next.Active? then Some(next.callId) else c.activated,
       frozen := if next.HangupConfirmed? && next.accepted then Some(next.sideband) else c.frozen,
       doubted := c.doubted || (next.Active? && !next.sideband.trustworthy))
  }

  /** A transaction whose reply may be lost, or which may not happen at all. */
  function Swap(c: Call, swap: (bool, Stored), reply: Reply): Call {
    if reply.Refused? || !swap.0 then c else Write(c, swap.1)
  }

  function Overwrite(c: Call, next: Stored, reply: Reply): Call {
    if reply.Refused? then c else Write(c, next).(blind := c.blind || !c.stored.Empty?)
  }

  /** terminate() marks a start in progress as cancelled before anything else. */
  function BeginTerminate(c: Call): Call {
    if c.start.None? then c else c.(start := Some(c.start.value.(cancelled := true)))
  }

  // ----- #terminate -----

  function LookStep(c: Call): Task {
    match c.stored
    case Empty => Finished
    case Connecting(reservationId, sideband) => Cancelling(reservationId, sideband)
    case Active(callId, _, _) => HangingUp(callId)
    case HangupConfirmed(_, _, _) => Settling(c.stored)
    case SettledCall => Finished
  }

  function CancelStep(c: Call, reservationId: Id, sideband: UsageState, reply: Reply): (Call, Task) {
    var cancelled := HangupConfirmed(false, reservationId, sideband);
    var swap := ReplaceConnecting(c.stored, reservationId, cancelled);
    (Swap(c, swap, reply), if !reply.Answered? then Finished else if swap.0 then Settling(cancelled) else Looking)
  }

  function HangUp(c: Call, callId: Id, reply: Reply): Call {
    c.(hungUp := if reply.Refused? then c.hungUp else c.hungUp + {callId},
       answered := if reply.Answered? then c.answered + {callId} else c.answered)
  }

  function HangUpStep(c: Call, callId: Id, reply: Reply): (Call, Task) {
    (HangUp(c, callId, reply),
     if reply.Answered? then Confirming(callId) else Finished)
  }

  function ConfirmStep(c: Call, callId: Id, reply: Reply): (Call, Task) {
    var swap := ConfirmHangup(c.stored, callId);
    (Swap(c, swap, reply), if !reply.Answered? then Finished else if swap.0 then Settling(swap.1) else Looking)
  }

  /** Release a call that was never accepted; charge one that was. */
  ghost function UsageCall(rows: Ledger, from: Stored, epoch: nat): (bool, Ledger)
    requires from.HangupConfirmed?
  {
    if !from.accepted then Release(rows, from.reservationId, epoch)
    else if ChargeFor(from.sideband).None? then (false, rows)
    else Finalize(rows, from.reservationId, ChargeFor(from.sideband).value, epoch)
  }

  ghost function SettleStep(c: Call, from: Stored, epoch: nat, reply: Reply): (Call, Task)
    requires from.HangupConfirmed?
  {
    var (ok, rows) := UsageCall(c.rows, from, epoch);
    (if reply.Refused? then c else c.(rows := rows), if ok && reply.Answered? then Closing else Finished)
  }

  function CloseStep(c: Call, reply: Reply): Call {
    if reply.Refused? then c else Write(c, SettledCall)
  }

  // ----- recordProviderEvent and sidebandDisconnected -----

  function HearStep(c: Call, telemetry: Telemetry): Task {
    if !c.stored.Active? then Finished
    else match Record(c.stored.sideband, telemetry)
      case Ignored => Finished
      case Duplicate => Finished
      case PriceThrew => Finished
      case result => Recording(c.stored.callId, c.stored.sideband, result)
  }

  function RecordStep(c: Call, callId: Id, expected: UsageState, result: RecordResult, reply: Reply): (Call, Task)
    requires result.Recorded? || result.Invalid? || result.LimitExceeded?
  {
    var swap := ReplaceActiveUsage(c.stored, callId, expected, result.state);
    var c' := Swap(c, swap, reply);
    if reply.Answered? && swap.0 && !result.Recorded? then (BeginTerminate(c'), Looking) else (c', Finished)
  }

  function DisconnectStep(c: Call): (Call, Task) {
    if c.stored.Empty? || c.stored.SettledCall? then (c, Finished)
    else if c.stored.Active? && c.stored.sideband.trustworthy then (c, Marking(c.stored.callId))
    else (BeginTerminate(c), Looking)
  }

  function MarkStep(c: Call, callId: Id, reply: Reply): (Call, Task) {
    var c' := Swap(c, MarkSidebandUntrustworthy(c.stored, callId), reply);
    if reply.Answered? then (BeginTerminate(c'), Looking) else (c', Finished)
  }

  ghost function TaskStep(c: Call, task: Task, choice: Choice): (Call, Task)
    requires task.Settling? ==> task.from.HangupConfirmed?
    requires task.Recording? ==> task.result.Recorded? || task.result.Invalid? || task.result.LimitExceeded?
  {
    match task
    case Looking => (c, if choice.reply.Answered? then LookStep(c) else Finished)
    case Cancelling(reservationId, sideband) => CancelStep(c, reservationId, sideband, choice.reply)
    case HangingUp(callId) => HangUpStep(c, callId, choice.reply)
    case Confirming(callId) => ConfirmStep(c, callId, choice.reply)
    case Settling(from) => if choice.epoch <= c.clock then SettleStep(c, from, choice.epoch, choice.reply) else (c, task)
    case Closing => (CloseStep(c, choice.reply), Finished)
    case Hearing(telemetry) => (c, if choice.reply.Answered? then HearStep(c, telemetry) else Finished)
    case Recording(callId, expected, result) => RecordStep(c, callId, expected, result, choice.reply)
    case Disconnected => if choice.reply.Answered? then DisconnectStep(c) else (c, Finished)
    case Marking(callId) => MarkStep(c, callId, choice.reply)
    case Finished => (c, task)
  }

  // ----- #start -----

  function At(c: Call, pc: StartPc): Call
    requires c.start.Some?
  {
    c.(start := Some(c.start.value.(pc := pc)))
  }

  function Leave(c: Call): Call {
    c.(start := None)
  }

  function OpenStep(c: Call, reply: Reply): Call
    requires c.start.Some?
  {
    var put := if reply.Refused? then c
               else Write(c, Connecting(c.start.value.reservationId, Doubted(NO_USAGE)));
    At(put, if reply.Answered? then Arming else Catching(None))
  }

  function DialStep(c: Call, choice: Choice): Call
    requires c.start.Some?
  {
    if choice.works && choice.callId !in c.accepted
    then At(c.(accepted := c.accepted + {choice.callId}), Claiming(choice.callId))
    else At(c, Catching(None))
  }

  function ClaimStep(c: Call, callId: Id, reply: Reply): Call
    requires c.start.Some?
  {
    var reservationId := c.start.value.reservationId;
    var swap := ReplaceConnecting(c.stored, reservationId, Active(callId, reservationId, NO_USAGE));
    var c' := Swap(c, swap, reply);
    if !reply.Answered? then At(c'.(dropped := c.dropped || c'.activated != Some(callId)), Catching(Some(callId)))
    else At(c', if swap.0 then Attaching(callId) else HangingUpLate(callId))
  }

  /** The claim was cancelled meanwhile: hang up, and write an active state if that fails. */
  function HangUpLateStep(c: Call, callId: Id, reply: Reply): Call
    requires c.start.Some?
  {
    At(HangUp(c, callId, reply),
       if reply.Answered? then Catching(Some(callId)) else Overwriting(callId))
  }

  function OverwriteStep(c: Call, callId: Id, reply: Reply): Call
    requires c.start.Some?
  {
    var next := Active(callId, c.start.value.reservationId, Doubted(NO_USAGE));
    At(Overwrite(c, next, reply).(dropped := c.dropped || reply.Refused?), Catching(Some(callId)))
  }

  predicate OnlyMoves(pc: StartPc) {
    || pc.Reading? || pc.Checking? || pc.Arming? || pc.Attaching? || pc.Rechecking?
    || pc.Answering? || pc.FinalCheck? || pc.Catching?
  }

  /** Where a start stands after an await that writes nothing; None when it has returned. */
  function MovedTo(c: Call, s: Start, choice: Choice): Option<StartPc>
    requires OnlyMoves(s.pc)
  {
    var answered := choice.reply.Answered?;
    match s.pc
    case Reading => if answered && c.stored.Empty? then Some(Checking) else None
    case Checking => Some(if s.cancelled then Unreserving else Opening)
    case Arming => Some(if answered then Dialling else Catching(None))
    case Attaching(callId) => Some(if choice.works then Rechecking(callId) else Catching(Some(callId)))
    case Rechecking(callId) =>
      Some(if answered && IsActive(c.stored, callId) then Answering(callId) else Catching(Some(callId)))
    case Answering(callId) => Some(if choice.works then FinalCheck(callId) else Catching(Some(callId)))
    case FinalCheck(callId) =>
      if !answered then Some(Catching(Some(callId)))
      else if IsActive(c.stored, callId) && c.stored.sideband.trustworthy && choice.works then None
      else Some(Ending)
    case Catching(heard) => Some(if answered && !c.stored.Empty? then Ending else Rescuing(heard))
  }

  function RescueStep(c: Call, heard: Option<Id>, reply: Reply): Call
    requires c.start.Some?
  {
    var reservationId := c.start.value.reservationId;
    var next := match heard
      case Some(callId) => Active(callId, reservationId, Doubted(NO_USAGE))
      case None => HangupConfirmed(false, reservationId, Doubted(NO_USAGE));
    At(Overwrite(c, next, reply), Ending)
  }

  ghost function StartStep(c: Call, choice: Choice): Call
    requires c.start.Some?
  {
    var s := c.start.value;
    if OnlyMoves(s.pc) then
      match MovedTo(c, s, choice)
      case None => Leave(c)
      case Some(pc) => At(c, pc)
    else
      match s.pc
      case Unreserving =>
        if choice.epoch > c.clock then c
        else Leave(if choice.reply.Refused? then c else c.(rows := Release(c.rows, s.reservationId, choice.epoch).1))
      case Opening => OpenStep(c, choice.reply)
      case Dialling => DialStep(c, choice)
      case Claiming(callId) => ClaimStep(c, callId, choice.reply)
      case HangingUpLate(callId) => HangUpLateStep(c, callId, choice.reply)
      case Overwriting(callId) => OverwriteStep(c, callId, choice.reply)
      case Rescuing(heard) => RescueStep(c, heard, choice.reply)
      case Ending => if choice.task in c.tasks then c else Leave(c.(tasks := c.tasks[choice.task := Looking]))
  }

  // ----- Runs -----

  /** The accepted call id a start holds before it is stored. */
  function Pending(c: Call): Option<Id> {
    if c.start.None? then None
    else match c.start.value.pc
      case Claiming(callId) => Some(callId)
      case HangingUpLate(callId) => Some(callId)
      case Overwriting(callId) => Some(callId)
      case _ => None
  }

  datatype Action =
    | BeginStart(reservationId: Id)
    | StepStart(choice: Choice)
    | Spawn(i: nat, task: Task)
    | StepTask(i: nat, choice: Choice)
    | Tick(to: nat)
    | Foreign(op: Op, epoch: nat)
    | Restart

  /** The entry points: an alarm or a request terminates, the sideband reports. */
  predicate IsEntry(task: Task) {
    task.Looking? || task.Hearing? || task.Disconnected?
  }

  ghost function Next(c: Call, action: Action): Call {
    match action
    case BeginStart(reservationId) =>
      if c.start.Some? then c else c.(start := Some(Start(reservationId, false, Reading)))
    case StepStart(choice) => if c.start.None? then c else StartStep(c, choice)
    case Spawn(i, task) =>
      if i in c.tasks || !IsEntry(task) then c
      else (if task.Looking? then BeginTerminate(c) else c).(tasks := c.tasks[i := task])
    case StepTask(i, choice) =>
      if i !in c.tasks || !Shaped(c.tasks[i]) then c
      else
        var (c', task) := TaskStep(c, c.tasks[i], choice);
        c'.(tasks := c.tasks[i := task])
    case Tick(to) => if to < c.clock then c else c.(clock := to)
    case Foreign(op, epoch) => if epoch > c.clock then c else c.(rows := Apply(c.rows, op, epoch))
    case Restart => c.(start := None, tasks := map[], dropped := c.dropped || Pending(c).Some?)
  }

  predicate Shaped(task: Task) {
    && (task.Settling? ==> task.from.HangupConfirmed?)
    && (task.Recording? ==> task.result.Recorded? || task.result.Invalid? || task.result.LimitExceeded?)
  }

  ghost function Run(c: Call, schedule: seq<Action>): Call {
    if schedule == [] then c else Next(Run(c, schedule[..|schedule|-1]), schedule[|schedule|-1])
  }

  function NewCall(rows: Ledger, clock: nat): Call {
    Call(Empty, rows, clock, None, map[], {}, {}, {}, None, None, None, false, false, false)
  }

  // ----- A termination that nobody interrupts -----

  ghost function Settled(from: Stored, rows: Ledger, now: nat): (bool, Stored, Ledger)
    requires from.HangupConfirmed?
  {
    var (ok, rows') := UsageCall(rows, from, now);
    (ok, if ok then SettledCall else from, rows')
  }

  /** What remains of a state after a termination; `hangsUp` says whether the provider does. */
  ghost function Terminated(stored: Stored, rows: Ledger, hangsUp: bool, now: nat): (bool, Stored, Ledger) {
    match stored
    case Empty => (true, stored, rows)
    case SettledCall => (true, stored, rows)
    case Connecting(reservationId, sideband) => Settled(HangupConfirmed(false, reservationId, sideband), rows, now)
    case Active(_, reservationId, sideband) =>
      if hangsUp then Settled(HangupConfirmed(true, reservationId, sideband), rows, now) else (false, stored, rows)
    case HangupConfirmed(_, _, _) => Settled(stored, rows, now)
  }

  class JudgeRealtimeCallLifecycle {
    const storage: JudgeRealtimeCallStorage
    const usage: D1UsageLimiter

    constructor (callStorage: JudgeRealtimeCallStorage, limiter: D1UsageLimiter)
      ensures storage == callStorage && usage == limiter
    {
      storage, usage := callStorage, limiter;
    }

    method SettleUsage(from: Stored, now: nat) returns (ok: bool)
      requires from.HangupConfirmed?
      modifies usage
      ensures (ok, usage.rows) == UsageCall(old(usage.rows), from, now)
    {
      if !from.accepted {
        ok := usage.ReleaseReservation(from.reservationId, now);
        return;
      }
      var charge := ChargeFor(from.sideband);
      if charge.None? {
        return false;
      }
      ok := usage.FinalizeActual(from.reservationId, charge.value, now);
    }

    /** #terminate without interference: false where it rejects. */
    method Terminate(hangsUp: bool, now: nat) returns (done: bool)
      modifies storage, usage
      ensures (done, storage.state, usage.rows) == Terminated(old(storage.state), old(usage.rows), hangsUp, now)
    {
      var state := storage.state;
      while state.Connecting?
        invariant usage.rows == old(usage.rows)
        invariant state == storage.state
        invariant state == old(storage.state)
                  || (old(storage.state).Connecting?
                      && state == HangupConfirmed(false, old(storage.state).reservationId, old(storage.state).sideband))
        decreases state.Connecting?
      {
        var cancelled := HangupConfirmed(false, state.reservationId, state.sideband);
        var _ := storage.SwapConnecting(state.reservationId, cancelled);
        state := storage.state;
      }
      if state.Empty? || state.SettledCall? {
        return true;
      }
      if state.Active? {
        if !hangsUp {
          return false;
        }
        var _ := storage.SwapHangup(state.callId);
        state := storage.state;
      }
      var paid := SettleUsage(state, now);
      if paid {
        storage.Put(SettledCall);
      }
      done := paid;
    }
  }
}
