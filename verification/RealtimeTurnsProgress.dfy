/** What the turn and response machine achieves: stops are answered, responses are cancelled
  * and created again, and a turn ends in its text. */
module RealtimeTurnsProgress {
  import opened Basics
  import opened UsageLedger
  import opened RealtimeUsage
  import opened RealtimeTurns
  import opened RealtimeTurnsTheorems

  // ----- Every stop is answered -----

  /** The last stop that was accepted has no createResponse after it. */
  predicate StopWaits(log: seq<Signal>) {
    log != [] &&
    match log[|log|-1]
    case StopAccepted => true
    case CreateSent => false
    case _ => StopWaits(log[..|log|-1])
  }

  /** Unless a termination has begun, a stop waits for its response exactly while a response
    * that is being cancelled has a successor pending. */
  predicate StopsAnswered(m: Memory) {
    && (m.terminating ==> TurnEnded in m.log)
    && (m.pending ==> m.phase.CancellingResponse?)
    && (TurnEnded in m.log || (StopWaits(m.log) <==> m.pending))
  }

  lemma SayKeepsStops(m: Memory, signal: Signal)
    requires StopsAnswered(m) && signal != StopAccepted && signal != CreateSent
    ensures StopsAnswered(Say(m, signal))
  {
    Appended(m.log, signal);
  }

  lemma TerminationAnswers(m: Memory)
    requires m.terminating ==> TurnEnded in m.log
    requires m.pending ==> m.phase.CancellingResponse?
    ensures StopsAnswered(BeginTermination(m)) && TurnEnded in BeginTermination(m).log
  {
    Appended(m.log, TurnEnded);
    assert TurnEnded in m.log + [TurnEnded];
  }

  /** Asking for a response answers the stop that waits, or begins a termination. */
  lemma RequestAnswers(m: Memory, sent: bool)
    requires (m.terminating ==> TurnEnded in m.log) && !m.pending
    ensures StopsAnswered(RequestResponse(m, sent))
  {
    TerminationAnswers(m);
    var asked := Say(m.(phase := Responding, created := false, commands := m.commands + 1), CreateSent);
    Appended(m.log, CreateSent);
    TerminationAnswers(asked);
  }

  lemma SpeechStartedKeepsStops(m: Memory, itemId: Option<Id>, sent: bool)
    requires StopsAnswered(m)
    ensures StopsAnswered(OnSpeechStarted(m, itemId, sent))
  {
    TerminationAnswers(m);
    if m.turn.Some? {
      var bound := m.(turn := Some(m.turn.value.(itemId := itemId)));
      TerminationAnswers(bound);
      if m.phase.Responding? { SayKeepsStops(bound.(phase := CancellingResponse), CancelSent); }
    }
  }

  lemma SpeechStoppedKeepsStops(m: Memory, itemId: Option<Id>, sent: bool)
    requires StopsAnswered(m)
    ensures StopsAnswered(OnSpeechStopped(m, itemId, sent))
  {
    TerminationAnswers(m);
    if m.turn.Some? {
      var heard := Say(m.(turn := Some(m.turn.value.(stopped := true))), StopAccepted);
      Appended(m.log, StopAccepted);
      TerminationAnswers(heard);
      if m.phase.Idle? { RequestAnswers(heard, sent); }
    }
  }

  lemma HearKeepsStops(m: Memory, event: ProviderEvent, usage: UsageState, sent: bool)
    requires StopsAnswered(m)
    ensures StopsAnswered(Hear(m, event, usage, sent).0)
  {
    TerminationAnswers(m);
    match event
    case SpeechStarted(itemId) => SpeechStartedKeepsStops(m, itemId, sent);
    case SpeechStopped(itemId) => SpeechStoppedKeepsStops(m, itemId, sent);
    case ResponseCreated =>
      var announced := Say(m.(created := true), ResponseStarted);
      SayKeepsStops(m.(created := true), ResponseStarted);
      TerminationAnswers(announced);
    case TranscriptionCompleted(t) =>
      if t.Some? { SayKeepsStops(m, Heard(t.value)); }
      TerminationAnswers(Arrived(m, event));
    case _ =>
  }

  lemma SwapKeepsStops(m: Memory, w: Waiting, swapped: bool, sent: bool)
    requires StopsAnswered(m)
    ensures StopsAnswered(AfterSwap(m, w, swapped, sent))
  {
    TerminationAnswers(m);
    if w.event.ResponseDone? {
      var idle := m.(pending := false, created := false, phase := Idle);
      Appended(m.log, ResponseFinished);
      if m.pending { RequestAnswers(Say(idle, ResponseFinished), sent); }
    }
  }

  lemma NextKeepsStops(w: World, action: Action)
    requires StopsAnswered(w.m)
    ensures StopsAnswered(Next(w, action).m)
  {
    match action
    case BeginCall(utteranceId, seen, active, healthy) =>
      SayKeepsStops(w.m.(turn := Some(Turn(utteranceId, None, false, None))), TurnBegun(utteranceId));
    case ReadCall(utteranceId, active) =>
      var (reading, m) := ReadTranscript(w.m, utteranceId, active);
      if reading.TextIs? { SayKeepsStops(w.m, TextRead(utteranceId, reading.text)); }
    case Terminate => TerminationAnswers(w.m);
    case Arrive(i, event, usage, sent) => HearKeepsStops(w.m, event, usage, sent);
    case Resume(i, swapped, sent) => if i in w.waiting { SwapKeepsStops(w.m, w.waiting[i], swapped, sent); }
    case _ =>
  }

  lemma {:induction false} EveryRunAnswersStops(schedule: seq<Action>)
    ensures StopsAnswered(Run(schedule).m)
    decreases |schedule|
  {
    if schedule != [] {
      EveryRunAnswersStops(schedule[..|schedule|-1]);
      NextKeepsStops(Run(schedule[..|schedule|-1]), schedule[|schedule|-1]);
    }
  }

  /** In every run: until a termination begins, every accepted stop but one that a pending
    * re-create stands for has been answered with createResponse. */
  lemma StopsAreAnswered(w: World, i: nat)
    requires Reachable(w) && TurnEnded !in w.m.log && !w.m.pending
    requires i < |w.m.log| && w.m.log[i] == StopAccepted
    ensures exists j :: i < j < |w.m.log| && w.m.log[j] == CreateSent
  {
    var schedule :| Run(schedule) == w;
    EveryRunAnswersStops(schedule);
    AnsweredMeans(w.m.log, i);
  }

  lemma {:induction false} AnsweredMeans(log: seq<Signal>, i: nat)
    requires i < |log| && log[i] == StopAccepted && !StopWaits(log)
    ensures exists j :: i < j < |log| && log[j] == CreateSent
    decreases |log|
  {
    var last := |log| - 1;
    if log[last] != CreateSent {
      AnsweredMeans(log[..last], i);
      var j :| i < j < last && log[..last][j] == CreateSent;
      assert log[j] == CreateSent;
    }
  }

  // ----- What each event leads to -----

  /** The stop belongs to the open turn's item and is its first. */
  predicate AcceptsStop(m: Memory, itemId: Option<Id>) {
    itemId.Some? && m.turn.Some? && m.turn.value.itemId == itemId && !m.turn.value.stopped
  }

  /** An accepted stop creates a response at once, waits for the one being cancelled, or ends
    * the call; any other stop ends it. */
  lemma StopLeadsTo(m: Memory, itemId: Option<Id>, usage: UsageState, sent: bool)
    requires !m.terminating
    ensures var (m', waiting) := Hear(m, SpeechStopped(itemId), usage, sent);
            var creates := m.phase.Idle? && m.connected && m.commands < 3;
            && waiting.None?
            && (m'.terminating <==> !AcceptsStop(m, itemId) || !(m.phase.CancellingResponse? || (creates && sent)))
            && m'.log == m.log + (if AcceptsStop(m, itemId) then [StopAccepted] else [])
                         + (if AcceptsStop(m, itemId) && creates then [CreateSent] else [])
                         + (if m'.terminating then [TurnEnded] else [])
            && (!m'.terminating ==>
                  && m'.pending == (m.pending || m.phase.CancellingResponse?)
                  && m'.phase == (if m.phase.Idle? then Responding else m.phase)
                  && m'.turn == Some(m.turn.value.(stopped := true)))
  {
  }

  /** The item belongs to an open turn that has no other. */
  predicate AcceptsStart(m: Memory, itemId: Option<Id>) {
    && itemId.Some? && m.turn.Some? && m.turn.value.completed.None?
    && (m.turn.value.itemId.None? || m.turn.value.itemId == itemId)
  }

  /** Speech binds its item to the turn, and cancels the response it interrupts. */
  lemma SpeechLeadsTo(m: Memory, itemId: Option<Id>, usage: UsageState, sent: bool)
    requires !m.terminating
    ensures var (m', waiting) := Hear(m, SpeechStarted(itemId), usage, sent);
            var cancels := m.phase.Responding?;
            && waiting.None?
            && (m'.terminating <==> !AcceptsStart(m, itemId) || (cancels && !(m.connected && sent)))
            && (if m'.terminating then m'.log == m.log + [TurnEnded]
                else
                  && m'.log == m.log + (if cancels then [CancelSent] else [])
                  && m'.phase == (if cancels then CancellingResponse else m.phase)
                  && m'.turn == Some(m.turn.value.(itemId := itemId)))
  {
  }

  /** A finished response makes room: a pending stop is answered now, and only now. */
  lemma FinishedLeadsTo(m: Memory, w: Waiting, sent: bool)
    requires !m.terminating && w.event.ResponseDone? && w.result.Recorded?
    ensures var m' := AfterSwap(m, w, true, sent);
            var accepted := !m.phase.Idle? && m.created;
            var creates := accepted && m.pending && m.connected && m.commands < 3;
            && (m'.terminating <==> !accepted || (m.pending && !(creates && sent)))
            && m'.log == m.log + (if accepted then [ResponseFinished] else [])
                         + (if creates then [CreateSent] else []) + (if m'.terminating then [TurnEnded] else [])
            && (!m'.terminating ==> !m'.pending && m'.phase == (if creates then Responding else Idle) && m'.turn == m.turn)
  {
  }

  /** A transcription completes the stopped turn of its item, and ends the call otherwise. */
  lemma TranscriptLeadsTo(m: Memory, t: Transcript, result: RecordResult, sent: bool)
    requires !m.terminating && result.Recorded?
    ensures var m' := AfterSwap(m, Waiting(TranscriptionCompleted(Some(t)), result), true, sent);
            if m.turn.Some? && m.turn.value.itemId == Some(t.itemId) && m.turn.value.stopped && m.turn.value.completed.None?
            then m' == m.(turn := Some(m.turn.value.(completed := Some(t))))
            else m'.terminating && m'.log == m.log + [TurnEnded]
  {
  }

  /** Failures reported by the provider, and usage that cannot be trusted, end the call. */
  lemma FailureLeadsTo(m: Memory, event: ProviderEvent, usage: UsageState, w: Waiting, sent: bool)
    requires !m.terminating
    ensures event.TranscriptionFailed? || event.ErrorReported? ==>
              Hear(m, event, usage, sent) == (BeginTermination(m), None) && Hear(m, event, usage, sent).0.terminating
    ensures w.result.Invalid? || w.result.LimitExceeded? ==> AfterSwap(m, w, true, sent).terminating
    ensures AfterSwap(m, w, false, sent) == m
  {
  }

  // ----- Turns -----

  /** Exactly when a turn begins, is found again, or is refused. */
  lemma BeginLeadsTo(m: Memory, utteranceId: Id, seen: nat, callActive: bool, healthy: bool)
    ensures var (kind, m') := BeginTurn(m, utteranceId, seen, callActive, healthy);
            var open := callActive && seen == m.version && !m.terminating && m.connected && healthy;
            && (kind.NewTurn? <==>
                  open && (m.turn.None? || (m.turn.value.utteranceId != utteranceId && m.turn.value.completed.Some?)))
            && (kind.SameTurn? <==> open && m.turn.Some? && m.turn.value.utteranceId == utteranceId)
            && (kind.TurnUnavailable? <==> !open)
            && m' == if !kind.NewTurn? then m
                     else m.(turn := Some(Turn(utteranceId, None, false, None)), log := m.log + [TurnBegun(utteranceId)])
  {
  }

  /** A termination drops the turn, and whatever began before it is refused even when it is over. */
  lemma TerminationInvalidates(m: Memory, utteranceId: Id, seen: nat, callActive: bool, healthy: bool)
    requires !m.terminating && seen <= m.version
    ensures var ended := BeginTermination(m);
            && ended.terminating && ended.turn == None && ended.log == m.log + [TurnEnded]
            && BeginTurn(ended.(terminating := false), utteranceId, seen, callActive, healthy).0 == TurnUnavailable
            && ReadTranscript(ended, utteranceId, callActive).0 == TextUnavailable
            && BeginTermination(ended) == ended
  {
  }

  /** Exactly when a turn's text can be read, is pending, or is not to be had. */
  lemma ReadLeadsTo(m: Memory, utteranceId: Id, callActive: bool)
    ensures var (reading, m') := ReadTranscript(m, utteranceId, callActive);
            var mine := callActive && m.turn.Some? && m.turn.value.utteranceId == utteranceId;
            && (reading.TextIs? <==> mine && m.turn.value.completed.Some?)
            && (reading.TextPending? <==> mine && m.turn.value.completed.None?)
            && (reading.TextIs? ==> reading.text == m.turn.value.completed.value.text)
            && m'.(log := m.log) == m
  {
  }

  /** A transcription that was recorded before changes nothing if it is the turn's own, and ends
    * the call otherwise; any other repeated event changes nothing. */
  lemma DuplicateLeadsTo(m: Memory, event: ProviderEvent, usage: UsageState, sent: bool)
    requires !m.terminating && Record(usage, TelemetryOf(event)).Duplicate?
    requires event.TranscriptionCompleted? || event.ResponseDone?
    ensures var (m', waiting) := Hear(m, event, usage, sent);
            && waiting.None?
            && (m'.terminating <==>
                  && event.TranscriptionCompleted? && event.transcript.Some?
                  && !(m.turn.Some? && m.turn.value.itemId == Some(event.transcript.value.itemId)
                       && m.turn.value.completed == event.transcript))
            && (!m'.terminating ==> m'.(log := m.log) == m)
  {
  }

  /** A turn that nothing disturbs: speech starts and stops, its transcription is recorded, and
    * its text can be read, while the response it asked for is under way. */
  lemma UndisturbedTurn(m: Memory, utteranceId: Id, t: Transcript, usage: UsageState)
    requires m.turn.None? && m.phase.Idle? && m.connected && !m.terminating && m.commands < 3
    requires Record(usage, Reported(Transcription(t.eventId, t.itemId, t.seconds))).Recorded?
    ensures var (_, m1) := BeginTurn(m, utteranceId, m.version, true, true);
            var (m2, _) := Hear(m1, SpeechStarted(Some(t.itemId)), usage, true);
            var (m3, _) := Hear(m2, SpeechStopped(Some(t.itemId)), usage, true);
            var (m4, waiting) := Hear(m3, TranscriptionCompleted(Some(t)), usage, true);
            && waiting.Some?
            && var m5 := AfterSwap(m4, waiting.value, true, true);
            && m5.log == m.log + [TurnBegun(utteranceId), StopAccepted, CreateSent, Heard(t)]
            && ReadTranscript(m5, utteranceId, true).0 == TextIs(t.text)
            && m5.phase.Responding? && m5.commands == m.commands + 1 && !m5.terminating
  {
    var m1 := m.(turn := Some(Turn(utteranceId, None, false, None)), log := m.log + [TurnBegun(utteranceId)]);
    SpeechLeadsTo(m1, Some(t.itemId), usage, true);
    var m2 := Hear(m1, SpeechStarted(Some(t.itemId)), usage, true).0;
    StopLeadsTo(m2, Some(t.itemId), usage, true);
    var m3 := Hear(m2, SpeechStopped(Some(t.itemId)), usage, true).0;
    var (m4, waiting) := Hear(m3, TranscriptionCompleted(Some(t)), usage, true);
    TranscriptLeadsTo(m4, t, waiting.value.result, true);
  }

  /** The response under way is announced and finished, and the machine is idle again. */
  lemma UndisturbedResponse(m: Memory, entry: Entry, usage: UsageState)
    requires m.phase.Responding? && !m.created && !m.pending && !m.terminating
    requires usage.trustworthy && entry.Response? && Record(usage, Reported(entry)).Recorded?
    ensures var (m1, none) := Hear(m, ResponseCreated, usage, true);
            var (m2, waiting) := Hear(m1, ResponseDone(Some(entry)), usage, true);
            && none.None? && waiting.Some?
            && var m3 := AfterSwap(m2, waiting.value, true, true);
            && m3 == m.(phase := Idle, log := m.log + [ResponseStarted, ResponseFinished])
  {
    var m1 := Say(m.(created := true), ResponseStarted);
    assert Hear(m, ResponseCreated, usage, true) == (m1, None);
    var (m2, waiting) := Hear(m1, ResponseDone(Some(entry)), usage, true);
    assert m2 == m1 && waiting == Some(Waiting(ResponseDone(Some(entry)), Record(usage, Reported(entry))));
  }
}
