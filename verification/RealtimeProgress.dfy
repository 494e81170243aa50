/** What the processes of a realtime call achieve: when a start succeeds and how it ends where
  * it does not, and what an event or a lost sideband leads to. */
module RealtimeProgress {
  import opened Basics
  import opened UsageLedger
  import opened RealtimeUsage
  import opened RealtimeCall
  import opened RealtimeCallTheorems

  /** The start takes `n` steps in which the world decides alike, while nobody else acts. */
  ghost function Steps(c: Call, choice: Choice, n: nat): Call {
    if n == 0 then c else Next(Steps(c, choice, n - 1), StepStart(choice))
  }

  /** Every reply arrives and every connection works. */
  predicate Smooth(choice: Choice) {
    choice.reply.Answered? && choice.works
  }

  lemma SmoothOpening(first: Call, n: nat, reservationId: Id, choice: Choice)
    requires Smooth(choice)
    requires var c := Steps(first, choice, n); c.start == Some(Start(reservationId, false, Reading)) && c.stored.Empty?
    ensures Steps(first, choice, n + 4)
            == Steps(first, choice, n).(
                 stored := Connecting(reservationId, Doubted(NO_USAGE)), reservation := Some(reservationId),
                 start := Some(Start(reservationId, false, Dialling)))
  {
    var c := Steps(first, choice, n);
    assert Steps(first, choice, n + 1) == c.(start := Some(Start(reservationId, false, Checking)));
    assert Steps(first, choice, n + 2) == c.(start := Some(Start(reservationId, false, Opening)));
    assert Steps(first, choice, n + 3).start == Some(Start(reservationId, false, Arming));
  }

  lemma SmoothClaim(begun: Call, n: nat, reservationId: Id, choice: Choice)
    requires Smooth(choice)
    requires var c := Steps(begun, choice, n);
             && c.start == Some(Start(reservationId, false, Dialling)) && choice.callId !in c.accepted
             && c.stored.Connecting? && c.stored.reservationId == reservationId && c.reservation == Some(reservationId)
    ensures var c := Steps(begun, choice, n);
            Steps(begun, choice, n + 2)
            == c.(stored := Active(choice.callId, reservationId, NO_USAGE), activated := Some(choice.callId),
                  accepted := c.accepted + {choice.callId}, start := Some(Start(reservationId, false, Attaching(choice.callId))))
  {
    var c := Steps(begun, choice, n);
    assert Steps(begun, choice, n + 1)
        == c.(accepted := c.accepted + {choice.callId}, start := Some(Start(reservationId, false, Claiming(choice.callId))));
  }

  lemma SmoothAttachment(begun: Call, n: nat, choice: Choice)
    requires Smooth(choice)
    requires var c := Steps(begun, choice, n);
             && c.start.Some? && c.start.value.pc.Attaching?
             && IsActive(c.stored, c.start.value.pc.callId) && c.stored.sideband.trustworthy
    ensures Steps(begun, choice, n + 4) == Steps(begun, choice, n).(start := None)
  {
    var c := Steps(begun, choice, n);
    var s := c.start.value;
    var callId := s.pc.callId;
    assert Steps(begun, choice, n + 1) == c.(start := Some(s.(pc := Rechecking(callId))));
    assert Steps(begun, choice, n + 2) == c.(start := Some(s.(pc := Answering(callId))));
    assert Steps(begun, choice, n + 3) == c.(start := Some(s.(pc := FinalCheck(callId))));
  }

  lemma SmoothStart(first: Call, n: nat, reservationId: Id, choice: Choice)
    requires Smooth(choice)
    requires var c := Steps(first, choice, n);
             c.start == Some(Start(reservationId, false, Reading)) && c.stored.Empty? && choice.callId !in c.accepted
    ensures var c := Steps(first, choice, n);
            Steps(first, choice, n + 10)
            == c.(start := None, stored := Active(choice.callId, reservationId, NO_USAGE), reservation := Some(reservationId),
                  activated := Some(choice.callId), accepted := c.accepted + {choice.callId})
  {
    SmoothOpening(first, n, reservationId, choice);
    SmoothClaim(first, n + 4, reservationId, choice);
    SmoothAttachment(first, n + 6, choice);
  }

  /** A start that nobody disturbs, with every reply and connection working, returns after its
    * ten awaits with the call active under its reservation, trusted and without usage. Nothing
    * else has changed: no call is hung up, no termination begun, no money moved. */
  lemma UndisturbedStart(c: Call, reservationId: Id, choice: Choice, n: nat)
    requires c.start.None? && c.stored.Empty? && Smooth(choice) && choice.callId !in c.accepted && n == 10
    ensures Steps(Next(c, BeginStart(reservationId)), choice, n)
            == c.(stored := Active(choice.callId, reservationId, NO_USAGE), reservation := Some(reservationId),
                  activated := Some(choice.callId), accepted := c.accepted + {choice.callId})
  {
    var begun := c.(start := Some(Start(reservationId, false, Reading)));
    assert Next(c, BeginStart(reservationId)) == begun;
    SmoothStart(begun, n - 10, reservationId, choice);
  }

  /** The steps after which a start has returned, by the await it stood at: it found another
    * call or could not look, gave its reservation back because it was cancelled, or found its
    * call active, trusted and connected. Everywhere else it goes on, or ends in a termination. */
  predicate Returns(c: Call, s: Start, choice: Choice) {
    match s.pc
    case Reading => !choice.reply.Answered? || !c.stored.Empty?
    case Unreserving => choice.epoch <= c.clock
    case FinalCheck(callId) =>
      choice.reply.Answered? && choice.works && c.stored.Active? && c.stored.callId == callId && c.stored.sideband.trustworthy
    case _ => false
  }

  predicate EndsInTermination(c: Call, s: Start, choice: Choice) {
    s.pc.Ending? && choice.task !in c.tasks
  }

  ghost predicate IsOver(c: Call, c': Call, s: Start, choice: Choice) {
    && (c'.start.None? <==> Returns(c, s, choice) || EndsInTermination(c, s, choice))
    && (Returns(c, s, choice) ==> c'.tasks == c.tasks)
    && (EndsInTermination(c, s, choice) ==> c'.tasks == c.tasks[choice.task := Looking])
  }

  lemma MoveIsOver(c: Call, choice: Choice)
    requires c.start.Some? && OnlyMoves(c.start.value.pc)
    ensures IsOver(c, StartStep(c, choice), c.start.value, choice)
  {
  }

  lemma WriteIsOver(c: Call, choice: Choice)
    requires c.start.Some? && !OnlyMoves(c.start.value.pc)
    ensures IsOver(c, StartStep(c, choice), c.start.value, choice)
  {
  }

  /** From each await, exactly when a start is over, with or without a termination. */
  lemma StartIsOverIff(c: Call, choice: Choice)
    requires c.start.Some?
    ensures IsOver(c, Next(c, StepStart(choice)), c.start.value, choice)
  {
    if OnlyMoves(c.start.value.pc) {
      MoveIsOver(c, choice);
    } else {
      WriteIsOver(c, choice);
    }
  }

  /** A start that a termination cancelled before it wrote anything gives its reservation back. */
  lemma CancelledStart(c: Call, reservationId: Id, choice: Choice)
    requires c.start == Some(Start(reservationId, true, Checking)) && choice.reply.Answered? && choice.epoch <= c.clock
    requires reservationId in c.rows && c.rows[reservationId].status.Held? && c.rows[reservationId].reservedAt <= choice.epoch
    ensures var c' := Steps(c, choice, 2);
            && c'.start.None? && c'.stored == c.stored && c'.tasks == c.tasks
            && c'.rows == c.rows[reservationId := c.rows[reservationId].(status := Released(choice.epoch))]
  {
    assert Steps(c, choice, 1) == c.(start := Some(Start(reservationId, true, Unreserving)));
  }

  lemma CaughtOverEmpty(c: Call, choice: Choice)
    requires c.start.Some? && c.start.value.pc.Catching? && c.stored.Empty?
    requires choice.reply.Answered? && choice.task !in c.tasks
    ensures var s := c.start.value;
            var c' := Steps(c, choice, 3);
            && c'.start.None? && c'.tasks == c.tasks[choice.task := Looking] && c'.blind == c.blind
            && c'.stored == match s.pc.heard
                            case Some(callId) => Active(callId, s.reservationId, Doubted(NO_USAGE))
                            case None => HangupConfirmed(false, s.reservationId, Doubted(NO_USAGE))
  {
    var s := c.start.value;
    assert Steps(c, choice, 1) == c.(start := Some(s.(pc := Rescuing(s.pc.heard))));
    assert Steps(c, choice, 2) == RescueStep(Steps(c, choice, 1), s.pc.heard, Answered);
  }

  /** A start that has failed never leaves an empty store behind, and always terminates: what
    * it stores is the accepted call if it heard of one, and the untouched reservation otherwise. */
  lemma CaughtStart(c: Call, choice: Choice)
    requires c.start.Some? && c.start.value.pc.Catching? && choice.reply.Answered? && choice.task !in c.tasks
    ensures var s := c.start.value;
            var c' := Steps(c, choice, if c.stored.Empty? then 3 else 2);
            && c'.start.None? && c'.tasks == c.tasks[choice.task := Looking] && c'.blind == c.blind
            && c'.stored == if !c.stored.Empty? then c.stored
                            else match s.pc.heard
                              case Some(callId) => Active(callId, s.reservationId, Doubted(NO_USAGE))
                              case None => HangupConfirmed(false, s.reservationId, Doubted(NO_USAGE))
  {
    if c.stored.Empty? {
      CaughtOverEmpty(c, choice);
    } else {
      assert Steps(c, choice, 1) == c.(start := Some(c.start.value.(pc := Ending)));
    }
  }

  /** Where a start that nobody disturbs goes when the reply of one await fails to come. */
  function AfterFailure(s: Start): Option<StartPc> {
    match s.pc
    case Reading => None
    case Checking => Some(if s.cancelled then Unreserving else Opening)
    case Unreserving => None
    case Ending => None
    case Opening => Some(Catching(None))
    case Arming => Some(Catching(None))
    case Dialling => Some(Catching(None))
    case Claiming(callId) => Some(Catching(Some(callId)))
    case HangingUpLate(callId) => Some(Overwriting(callId))
    case Overwriting(callId) => Some(Catching(Some(callId)))
    case Attaching(callId) => Some(Catching(Some(callId)))
    case Rechecking(callId) => Some(Catching(Some(callId)))
    case Answering(callId) => Some(Catching(Some(callId)))
    case FinalCheck(callId) => Some(Catching(Some(callId)))
    case Catching(heard) => Some(Rescuing(heard))
    case Rescuing(_) => Some(Ending)
  }

  ghost predicate IsCaught(c: Call, c': Call) {
    c.start.Some?
    && var next := AfterFailure(c.start.value);
    c'.start == if next.None? then None else Some(c.start.value.(pc := next.value))
  }

  lemma MoveIsCaught(c: Call, choice: Choice)
    requires c.start.Some? && !choice.reply.Answered? && !choice.works && OnlyMoves(c.start.value.pc)
    ensures IsCaught(c, StartStep(c, choice))
  {
  }

  lemma WriteIsCaught(c: Call, choice: Choice)
    requires c.start.Some? && !choice.reply.Answered? && !choice.works && !OnlyMoves(c.start.value.pc)
    requires !c.start.value.pc.Unreserving? && !c.start.value.pc.Ending?
    ensures IsCaught(c, StartStep(c, choice))
  {
  }

  /** Every await after the first write that throws leads to the catch block, which remembers
    * the accepted call. */
  lemma FailureIsCaught(c: Call, choice: Choice)
    requires c.start.Some? && !choice.reply.Answered? && !choice.works
    requires !c.start.value.pc.Unreserving? && !c.start.value.pc.Ending?
    ensures IsCaught(c, Next(c, StepStart(choice)))
  {
    if OnlyMoves(c.start.value.pc) {
      MoveIsCaught(c, choice);
    } else {
      WriteIsCaught(c, choice);
    }
  }

  /** A call accepted after its claim was cancelled is hung up before anything else. */
  lemma LateCallIsHungUp(c: Call, choice: Choice)
    requires c.start.Some? && c.start.value.pc.Claiming? && choice.reply.Answered?
    requires !(c.stored.Connecting? && c.stored.reservationId == c.start.value.reservationId)
    ensures var callId := c.start.value.pc.callId;
            var c' := Steps(c, choice, 2);
            && c'.start == Some(c.start.value.(pc := Catching(Some(callId)))) && c'.stored == c.stored
            && c'.hungUp == c.hungUp + {callId} && c'.answered == c.answered + {callId}
  {
    assert Steps(c, choice, 1) == c.(start := Some(c.start.value.(pc := HangingUpLate(c.start.value.pc.callId))));
  }

  // ----- Events and the sideband -----

  predicate Writes(result: RecordResult) {
    result.Recorded? || result.Invalid? || result.LimitExceeded?
  }

  lemma EventIsHeard(c: Call, i: nat, telemetry: Telemetry)
    requires i in c.tasks && c.tasks[i] == Hearing(telemetry) && c.stored.Active?
    ensures var result := Record(c.stored.sideband, telemetry);
            Answer(c, i) == c.(tasks := c.tasks[i :=
              if Writes(result) then Recording(c.stored.callId, c.stored.sideband, result) else Finished])
  {
  }

  /** An event that an active call hears undisturbed is recorded; one that cannot be trusted or
    * exceeds a limit is recorded as such, begins a termination and cancels a start under way. */
  lemma EventIsRecorded(c: Call, i: nat, telemetry: Telemetry)
    requires i in c.tasks && c.tasks[i] == Hearing(telemetry) && c.stored.Active?
    requires Writes(Record(c.stored.sideband, telemetry))
    ensures var result := Record(c.stored.sideband, telemetry);
            var c' := Answer(Answer(c, i), i);
            && c'.stored == Active(c.stored.callId, c.stored.reservationId, result.state)
            && c'.tasks == c.tasks[i := if result.Recorded? then Finished else Looking]
            && (!result.Recorded? && c.start.Some? ==> c'.start == Some(c.start.value.(cancelled := true)))
  {
    EventIsHeard(c, i, telemetry);
  }

  /** Losing the sideband terminates whatever call there is, and cancels a start under way. */
  lemma DisconnectTerminates(c: Call, i: nat)
    requires i in c.tasks && c.tasks[i] == Disconnected
    requires !(c.stored.Active? && c.stored.sideband.trustworthy)
    ensures var c' := Answer(c, i);
            && c'.stored == c.stored
            && c'.tasks == c.tasks[i := if c.stored.Empty? || c.stored.SettledCall? then Finished else Looking]
            && (!c.stored.Empty? && !c.stored.SettledCall? && c.start.Some? ==>
                  c'.start == Some(c.start.value.(cancelled := true)))
  {
  }

  /** An active call that loses its sideband loses its trust and is terminated. */
  lemma LostSidebandTerminates(c: Call, i: nat)
    requires i in c.tasks && c.tasks[i] == Disconnected && c.stored.Active? && c.stored.sideband.trustworthy
    ensures var c' := Answer(Answer(c, i), i);
            && c'.stored == Active(c.stored.callId, c.stored.reservationId, Doubted(c.stored.sideband))
            && c'.tasks == c.tasks[i := Looking]
  {
    assert Answer(c, i) == c.(tasks := c.tasks[i := Marking(c.stored.callId)]);
  }
}
