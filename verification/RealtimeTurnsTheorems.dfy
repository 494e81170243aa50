/** What every order of turns, provider events and terminations guarantees. */
module RealtimeTurnsTheorems {
  import opened Basics
  import opened UsageLedger
  import opened RealtimeUsage
  import opened RealtimeTurns

  // The memory and the handlers that await a swap.
  datatype World = World(m: Memory, waiting: map<nat, Waiting>)

  datatype Action =
    | Connect
    | BeginCall(utteranceId: Id, seen: nat, callActive: bool, healthy: bool)
    | ReadCall(utteranceId: Id, callActive: bool)
    | Terminate
    | TerminationEnds
    | Arrive(i: nat, event: ProviderEvent, usage: UsageState, sent: bool)
    | Resume(i: nat, swapped: bool, sent: bool)

  function Next(w: World, action: Action): World {
    match action
    case Connect => w.(m := w.m.(connected := true))
    case BeginCall(utteranceId, seen, active, healthy) => w.(m := BeginTurn(w.m, utteranceId, seen, active, healthy).1)
    case ReadCall(utteranceId, active) => w.(m := ReadTranscript(w.m, utteranceId, active).1)
    case Terminate => w.(m := BeginTermination(w.m))
    case TerminationEnds => w.(m := w.m.(terminating := false))
    case Arrive(i, event, usage, sent) =>
      if i in w.waiting then w
      else
        var (m, waiting) := Hear(w.m, event, usage, sent);
        World(m, if waiting.Some? then w.waiting[i := waiting.value] else w.waiting)
    case Resume(i, swapped, sent) =>
      if i !in w.waiting then w
      else World(AfterSwap(w.m, w.waiting[i], swapped, sent), w.waiting - {i})
  }

  function Run(schedule: seq<Action>): World {
    if schedule == [] then World(FRESH, map[])
    else Next(Run(schedule[..|schedule|-1]), schedule[|schedule|-1])
  }

  // ----- Reading the log -----

  /** A response was requested and has not finished. */
  predicate Outstanding(log: seq<Signal>) {
    if log == [] then false
    else match log[|log|-1]
      case CreateSent => true
      case ResponseFinished => false
      case _ => Outstanding(log[..|log|-1])
  }

  predicate Cancelled(log: seq<Signal>) {
    if log == [] then false
    else match log[|log|-1]
      case CancelSent => true
      case CreateSent => false
      case ResponseFinished => false
      case _ => Cancelled(log[..|log|-1])
  }

  predicate Announced(log: seq<Signal>) {
    if log == [] then false
    else match log[|log|-1]
      case ResponseStarted => true
      case CreateSent => false
      case ResponseFinished => false
      case _ => Announced(log[..|log|-1])
  }

  function Count(log: seq<Signal>, signal: Signal): nat {
    if log == [] then 0
    else Count(log[..|log|-1], signal) + if log[|log|-1] == signal then 1 else 0
  }

  predicate Disciplined(log: seq<Signal>) {
    log != [] ==>
      var before := log[..|log|-1];
      && Disciplined(before)
      && match log[|log|-1]
         case CreateSent => !Outstanding(before)
         case CancelSent => Outstanding(before) && !Cancelled(before)
         case ResponseStarted => Outstanding(before) && !Announced(before)
         case ResponseFinished => Outstanding(before) && Announced(before)
         case _ => true
  }

  // ----- The response machine -----

  predicate ResponseSound(m: Memory) {
    && Disciplined(m.log)
    && (m.phase.Idle? <==> !Outstanding(m.log))
    && (m.phase.CancellingResponse? <==> Cancelled(m.log))
    && (m.created <==> Announced(m.log))
    && m.commands == Count(m.log, CreateSent) <= RESERVED.generationCount
    && (m.pending ==> m.phase.CancellingResponse?)
    && m.commands + (if m.pending then 1 else 0) <= Count(m.log, StopAccepted)
  }

  lemma Appended(log: seq<Signal>, signal: Signal)
    ensures (log + [signal])[..|log + [signal]|-1] == log && (log + [signal])[|log + [signal]|-1] == signal
  {
  }

  /** Signals that are not about responses. */
  lemma OtherSignal(m: Memory, signal: Signal)
    requires ResponseSound(m)
    requires signal.TurnBegun? || signal.TurnEnded? || signal.Heard? || signal.TextRead?
    ensures ResponseSound(Say(m, signal))
  {
    Appended(m.log, signal);
  }

  lemma TerminationKeepsResponses(m: Memory)
    requires ResponseSound(m)
    ensures ResponseSound(BeginTermination(m))
  {
    OtherSignal(m, TurnEnded);
  }

  lemma CreateKeepsResponses(m: Memory)
    requires ResponseSound(m) && m.phase.Idle? && m.commands < RESERVED.generationCount
    requires m.commands < Count(m.log, StopAccepted)
    ensures ResponseSound(Say(m.(phase := Responding, created := false, commands := m.commands + 1), CreateSent))
  {
    Appended(m.log, CreateSent);
  }

  lemma RequestKeepsResponses(m: Memory, sent: bool)
    requires ResponseSound(m) && m.commands < Count(m.log, StopAccepted)
    ensures ResponseSound(RequestResponse(m, sent))
  {
    TerminationKeepsResponses(m);
    if m.phase.Idle? && m.commands < RESERVED.generationCount {
      CreateKeepsResponses(m);
      TerminationKeepsResponses(Say(m.(phase := Responding, created := false, commands := m.commands + 1), CreateSent));
    }
  }

  lemma CancelKeepsResponses(m: Memory)
    requires ResponseSound(m) && m.phase.Responding?
    ensures ResponseSound(Say(m.(phase := CancellingResponse), CancelSent))
  {
    Appended(m.log, CancelSent);
  }

  lemma SpeechStartedKeepsResponses(m: Memory, itemId: Option<Id>, sent: bool)
    requires ResponseSound(m)
    ensures ResponseSound(OnSpeechStarted(m, itemId, sent))
  {
    TerminationKeepsResponses(m);
    if m.turn.Some? {
      var bound := m.(turn := Some(m.turn.value.(itemId := itemId)));
      TerminationKeepsResponses(bound);
      if m.phase.Responding? { CancelKeepsResponses(bound); }
    }
  }

  /** A stop is accepted: one more response may be created. */
  lemma StopKeepsResponses(m: Memory, turn: Turn)
    requires ResponseSound(m)
    ensures var heard := Say(m.(turn := Some(turn)), StopAccepted);
            && ResponseSound(heard) && heard.commands + (if m.pending then 1 else 0) < Count(heard.log, StopAccepted)
            && (m.phase.CancellingResponse? ==> ResponseSound(heard.(pending := true)))
  {
    Appended(m.log, StopAccepted);
  }

  lemma SpeechStoppedKeepsResponses(m: Memory, itemId: Option<Id>, sent: bool)
    requires ResponseSound(m)
    ensures ResponseSound(OnSpeechStopped(m, itemId, sent))
  {
    TerminationKeepsResponses(m);
    if m.turn.Some? {
      var turn := m.turn.value.(stopped := true);
      var heard := Say(m.(turn := Some(turn)), StopAccepted);
      StopKeepsResponses(m, turn);
      TerminationKeepsResponses(heard);
      RequestKeepsResponses(heard, sent);
    }
  }

  lemma UsageKeepsResponses(m: Memory, event: ProviderEvent, usage: UsageState)
    requires ResponseSound(m)
    ensures ResponseSound(OnUsage(m, event, usage).0)
  {
    TerminationKeepsResponses(m);
  }

  lemma CreatedKeepsResponses(m: Memory)
    requires ResponseSound(m) && !m.phase.Idle? && !m.created
    ensures ResponseSound(Say(m.(created := true), ResponseStarted))
  {
    Appended(m.log, ResponseStarted);
  }

  lemma ArrivedKeepsResponses(m: Memory, event: ProviderEvent)
    requires ResponseSound(m)
    ensures ResponseSound(Arrived(m, event))
  {
    if event.TranscriptionCompleted? && event.transcript.Some? { OtherSignal(m, Heard(event.transcript.value)); }
  }

  lemma HearKeepsResponses(m: Memory, event: ProviderEvent, usage: UsageState, sent: bool)
    requires ResponseSound(m)
    ensures ResponseSound(Hear(m, event, usage, sent).0)
  {
    TerminationKeepsResponses(m);
    match event
    case SpeechStarted(itemId) => SpeechStartedKeepsResponses(m, itemId, sent);
    case SpeechStopped(itemId) => SpeechStoppedKeepsResponses(m, itemId, sent);
    case ResponseCreated =>
      if !m.phase.Idle? && !m.created {
        CreatedKeepsResponses(m);
        UsageKeepsResponses(Say(m.(created := true), ResponseStarted), event, usage);
      }
    case _ =>
      ArrivedKeepsResponses(m, event);
      UsageKeepsResponses(Arrived(m, event), event, usage);
  }

  lemma DoneKeepsResponses(m: Memory, sent: bool)
    requires ResponseSound(m)
    ensures ResponseSound(OnResponseDone(m, sent))
  {
    TerminationKeepsResponses(m);
    if !m.phase.Idle? && m.created {
      var finished := Say(m.(pending := false, created := false, phase := Idle), ResponseFinished);
      Appended(m.log, ResponseFinished);
      assert ResponseSound(finished);
      if m.pending { RequestKeepsResponses(finished, sent); }
    }
  }

  lemma SwapKeepsResponses(m: Memory, w: Waiting, swapped: bool, sent: bool)
    requires ResponseSound(m)
    ensures ResponseSound(AfterSwap(m, w, swapped, sent))
  {
    TerminationKeepsResponses(m);
    if w.event.ResponseDone? { DoneKeepsResponses(m, sent); }
  }

  lemma NextKeepsResponses(w: World, action: Action)
    requires ResponseSound(w.m)
    ensures ResponseSound(Next(w, action).m)
  {
    match action
    case BeginCall(utteranceId, _, _, _) =>
      OtherSignal(w.m.(turn := Some(Turn(utteranceId, None, false, None))), TurnBegun(utteranceId));
    case ReadCall(utteranceId, active) =>
      var (reading, m) := ReadTranscript(w.m, utteranceId, active);
      if reading.TextIs? { OtherSignal(w.m, TextRead(utteranceId, reading.text)); }
    case Terminate => TerminationKeepsResponses(w.m);
    case Arrive(i, event, usage, sent) => HearKeepsResponses(w.m, event, usage, sent);
    case Resume(i, swapped, sent) => if i in w.waiting { SwapKeepsResponses(w.m, w.waiting[i], swapped, sent); }
    case _ =>
  }

  lemma {:induction false} EveryRunKeepsResponses(schedule: seq<Action>)
    ensures ResponseSound(Run(schedule).m)
    decreases |schedule|
  {
    if schedule != [] {
      EveryRunKeepsResponses(schedule[..|schedule|-1]);
      NextKeepsResponses(Run(schedule[..|schedule|-1]), schedule[|schedule|-1]);
    }
  }

  lemma {:induction false} OutstandingMeans(log: seq<Signal>, i: nat)
    requires i < |log| && log[i] == CreateSent && !Outstanding(log)
    ensures exists k :: i < k < |log| && log[k] == ResponseFinished
    decreases |log|
  {
    var last := |log| - 1;
    if log[last] != ResponseFinished {
      OutstandingMeans(log[..last], i);
      var k :| i < k < last && log[..last][k] == ResponseFinished;
      assert log[k] == ResponseFinished;
    }
  }

  lemma {:induction false} CancelledMeans(log: seq<Signal>, i: nat)
    requires i < |log| && log[i] == CancelSent && !Cancelled(log)
    ensures exists k :: i < k < |log| && (log[k] == ResponseFinished || log[k] == CreateSent)
    decreases |log|
  {
    var last := |log| - 1;
    if log[last] != ResponseFinished && log[last] != CreateSent {
      CancelledMeans(log[..last], i);
      var k :| i < k < last && (log[..last][k] == ResponseFinished || log[..last][k] == CreateSent);
      assert log[k] == log[..last][k];
    }
  }

  lemma {:induction false} PrefixDisciplined(log: seq<Signal>, n: nat)
    requires Disciplined(log) && n <= |log|
    ensures Disciplined(log[..n])
    decreases |log|
  {
    if n < |log| {
      PrefixDisciplined(log[..|log|-1], n);
      assert log[..|log|-1][..n] == log[..n];
    } else {
      assert log[..n] == log;
    }
  }

  /** Between two createResponse commands a response finished. */
  lemma FinishedBetweenCreates(log: seq<Signal>, i: nat, j: nat)
    requires Disciplined(log) && i < j < |log| && log[i] == CreateSent && log[j] == CreateSent
    ensures exists k :: i < k < j && log[k] == ResponseFinished
  {
    PrefixDisciplined(log, j + 1);
    assert log[..j+1][..j] == log[..j];
    OutstandingMeans(log[..j], i);
    var k :| i < k < j && log[..j][k] == ResponseFinished;
    assert log[k] == ResponseFinished;
  }

  /** Between two cancelResponse commands a new response was created. */
  lemma CreatedBetweenCancels(log: seq<Signal>, i: nat, j: nat)
    requires Disciplined(log) && i < j < |log| && log[i] == CancelSent && log[j] == CancelSent
    ensures exists k :: i < k < j && log[k] == CreateSent
  {
    PrefixDisciplined(log, j + 1);
    assert log[..j+1][..j] == log[..j];
    CancelledMeans(log[..j], i);
    var k :| i < k < j && (log[..j][k] == ResponseFinished || log[..j][k] == CreateSent);
    if log[k] != CreateSent { FinishedThenCreated(log[..j], k); }
  }

  lemma {:induction false} FinishedThenCreated(log: seq<Signal>, i: nat)
    requires i < |log| && log[i] == ResponseFinished && Outstanding(log)
    ensures exists k :: i < k < |log| && log[k] == CreateSent
    decreases |log|
  {
    var last := |log| - 1;
    if log[last] != CreateSent {
      FinishedThenCreated(log[..last], i);
      var k :| i < k < last && log[..last][k] == CreateSent;
      assert log[k] == CreateSent;
    }
  }

  /** The states of all runs. */
  ghost predicate Reachable(w: World) {
    exists schedule :: Run(schedule) == w
  }

  ghost predicate CreatesApart(log: seq<Signal>) {
    forall i, j | 0 <= i < j < |log| && log[i] == CreateSent && log[j] == CreateSent ::
      exists k :: i < k < j && log[k] == ResponseFinished
  }

  ghost predicate CancelsApart(log: seq<Signal>) {
    forall i, j | 0 <= i < j < |log| && log[i] == CancelSent && log[j] == CancelSent ::
      exists k :: i < k < j && log[k] == CreateSent
  }

  /** The response discipline of every run: at most three creates, a finished response
    * between any two, a cancel only while a response is outstanding and once for each, a
    * pending re-create only while cancelling, and never more creates than accepted stops. */
  lemma ResponseDiscipline(w: World)
    requires Reachable(w)
    ensures Count(w.m.log, CreateSent) <= 3
    ensures CreatesApart(w.m.log) && CancelsApart(w.m.log)
    ensures forall j | 0 <= j < |w.m.log| && w.m.log[j] == CancelSent :: Outstanding(w.m.log[..j])
    ensures w.m.pending ==> w.m.phase.CancellingResponse?
    ensures Count(w.m.log, CreateSent) + (if w.m.pending then 1 else 0) <= Count(w.m.log, StopAccepted)
  {
    var schedule :| Run(schedule) == w;
    EveryRunKeepsResponses(schedule);
    var log := w.m.log;
    forall i, j | 0 <= i < j < |log| && log[i] == CreateSent && log[j] == CreateSent
      ensures exists k :: i < k < j && log[k] == ResponseFinished
    {
      FinishedBetweenCreates(log, i, j);
    }
    forall i, j | 0 <= i < j < |log| && log[i] == CancelSent && log[j] == CancelSent
      ensures exists k :: i < k < j && log[k] == CreateSent
    {
      CreatedBetweenCancels(log, i, j);
    }
    forall j | 0 <= j < |log| && log[j] == CancelSent
      ensures Outstanding(log[..j])
    {
      PrefixDisciplined(log, j + 1);
      assert log[..j+1][..j] == log[..j];
    }
  }

  // ----- The turn -----

  /** completed implies stopped implies a bound item, and the text was heard for that item. */
  predicate TurnSound(m: Memory) {
    m.turn.Some? ==>
      var turn := m.turn.value;
      && (turn.stopped ==> turn.itemId.Some?)
      && (turn.completed.Some? ==>
            turn.stopped && turn.itemId == Some(turn.completed.value.itemId) && Heard(turn.completed.value) in m.log)
  }

  predicate Unchanged(log: seq<Signal>, i: nat, j: nat)
    requires i < j <= |log|
  {
    forall k | i < k < j :: !log[k].TurnBegun? && !log[k].TurnEnded?
  }

  /** A text handed out is still the current one unless the turn has changed since. */
  predicate ReadsCurrent(m: Memory) {
    forall i | 0 <= i < |m.log| && m.log[i].TextRead? && Unchanged(m.log, i, |m.log|) ::
      && m.turn.Some? && m.turn.value.utteranceId == m.log[i].utteranceId
      && m.turn.value.completed.Some? && m.turn.value.completed.value.text == m.log[i].text
  }

  predicate ReadsAgree(log: seq<Signal>) {
    forall i, j | 0 <= i < j < |log| && log[i].TextRead? && log[j].TextRead? && Unchanged(log, i, j) ::
      log[i] == log[j]
  }

  predicate TurnsKept(m: Memory) {
    TurnSound(m) && ReadsCurrent(m) && ReadsAgree(m.log)
  }

  predicate WaitingSound(m: Memory, w: Waiting) {
    w.event.TranscriptionCompleted? && w.event.transcript.Some? ==> Heard(w.event.transcript.value) in m.log
  }

  /** A text that could be read can still be read. */
  predicate SameTexts(m: Memory, m': Memory) {
    m.turn.Some? && m.turn.value.completed.Some? ==>
      && m'.turn.Some? && m'.turn.value.utteranceId == m.turn.value.utteranceId
      && m'.turn.value.completed == m.turn.value.completed
  }

  predicate Keeps(m: Memory, m': Memory) {
    TurnsKept(m') && m.log <= m'.log
  }

  lemma SilentKeeps(m: Memory, m': Memory)
    requires TurnsKept(m) && m'.log == m.log && SameTexts(m, m') && TurnSound(m')
    ensures Keeps(m, m')
  {
  }

  lemma UnchangedPrefix(log: seq<Signal>, signal: Signal, i: nat, j: nat)
    requires i < j <= |log| && Unchanged(log + [signal], i, j)
    ensures Unchanged(log, i, j)
  {
    assert forall k | i < k < j :: (log + [signal])[k] == log[k];
  }

  lemma UnchangedLast(log: seq<Signal>, signal: Signal, i: nat)
    requires i < |log| && Unchanged(log + [signal], i, |log| + 1)
    ensures Unchanged(log, i, |log|) && !signal.TurnBegun? && !signal.TurnEnded?
  {
    assert (log + [signal])[|log|] == signal;
    UnchangedPrefix(log, signal, i, |log|);
  }

  /** Saying anything keeps earlier readings in agreement if a new reading is the current text. */
  lemma AgreeAfter(m: Memory, signal: Signal)
    requires ReadsCurrent(m) && ReadsAgree(m.log)
    requires signal.TextRead? ==> ReadTranscript(m, signal.utteranceId, true).0 == TextIs(signal.text)
    ensures ReadsAgree(m.log + [signal])
  {
    var log := m.log + [signal];
    forall i, j | 0 <= i < j < |log| && log[i].TextRead? && log[j].TextRead? && Unchanged(log, i, j)
      ensures log[i] == log[j]
    {
      UnchangedPrefix(m.log, signal, i, j);
    }
  }

  lemma CurrentAfter(m: Memory, signal: Signal)
    requires ReadsCurrent(m) && !signal.TurnBegun? && !signal.TurnEnded?
    requires signal.TextRead? ==> ReadTranscript(m, signal.utteranceId, true).0 == TextIs(signal.text)
    ensures ReadsCurrent(Say(m, signal))
  {
    var m' := Say(m, signal);
    forall i | 0 <= i < |m.log| && m'.log[i].TextRead? && Unchanged(m'.log, i, |m'.log|)
      ensures m.log[i].TextRead? && Unchanged(m.log, i, |m.log|)
    {
      UnchangedLast(m.log, signal, i);
    }
  }

  lemma SayKeeps(m: Memory, signal: Signal)
    requires TurnsKept(m) && !signal.TurnBegun? && !signal.TurnEnded?
    requires signal.TextRead? ==> ReadTranscript(m, signal.utteranceId, true).0 == TextIs(signal.text)
    ensures Keeps(m, Say(m, signal))
  {
    AgreeAfter(m, signal);
    CurrentAfter(m, signal);
  }

  /** A turn begins or ends: no text that was handed out is current any more. */
  lemma ChangeKeeps(m: Memory, m': Memory, signal: Signal)
    requires TurnsKept(m) && (signal.TurnBegun? || signal.TurnEnded?)
    requires m'.log == m.log + [signal] && TurnSound(m')
    ensures Keeps(m, m')
  {
    AgreeAfter(m, signal);
    forall i | 0 <= i < |m'.log| && m'.log[i].TextRead?
      ensures !Unchanged(m'.log, i, |m'.log|)
    {
      assert m'.log[|m.log|] == signal;
    }
  }

  lemma TerminationKeeps(m: Memory)
    requires TurnsKept(m)
    ensures Keeps(m, BeginTermination(m))
  {
    if !m.terminating { ChangeKeeps(m, BeginTermination(m), TurnEnded); }
  }

  lemma RequestKeeps(m: Memory, sent: bool)
    requires TurnsKept(m)
    ensures Keeps(m, RequestResponse(m, sent))
  {
    TerminationKeeps(m);
    if m.phase.Idle? && m.commands < RESERVED.generationCount {
      var asking := m.(phase := Responding, created := false, commands := m.commands + 1);
      SilentKeeps(m, asking);
      SayKeeps(asking, CreateSent);
      TerminationKeeps(Say(asking, CreateSent));
    }
  }

  lemma SpeechStartedKeeps(m: Memory, itemId: Option<Id>, sent: bool)
    requires TurnsKept(m)
    ensures Keeps(m, OnSpeechStarted(m, itemId, sent))
  {
    TerminationKeeps(m);
    if itemId.Some? && m.turn.Some? && m.turn.value.completed.None?
       && (m.turn.value.itemId.Some? ==> m.turn.value.itemId == itemId) {
      var bound := m.(turn := Some(m.turn.value.(itemId := itemId)));
      SilentKeeps(m, bound);
      TerminationKeeps(bound);
      SilentKeeps(bound, bound.(phase := CancellingResponse));
      SayKeeps(bound.(phase := CancellingResponse), CancelSent);
    }
  }

  lemma SpeechStoppedKeeps(m: Memory, itemId: Option<Id>, sent: bool)
    requires TurnsKept(m)
    ensures Keeps(m, OnSpeechStopped(m, itemId, sent))
  {
    TerminationKeeps(m);
    if itemId.Some? && m.turn.Some? && m.turn.value.itemId == itemId && !m.turn.value.stopped {
      var stopping := m.(turn := Some(m.turn.value.(stopped := true)));
      SilentKeeps(m, stopping);
      SayKeeps(stopping, StopAccepted);
      var heard := Say(stopping, StopAccepted);
      SilentKeeps(heard, heard.(pending := true));
      TerminationKeeps(heard);
      RequestKeeps(heard, sent);
    }
  }

  lemma UsageKeeps(m: Memory, event: ProviderEvent, usage: UsageState)
    requires TurnsKept(m) && WaitingSound(m, Waiting(event, Ignored))
    ensures var (m', waiting) := OnUsage(m, event, usage);
            Keeps(m, m') && (waiting.Some? ==> WaitingSound(m', waiting.value))
  {
    TerminationKeeps(m);
  }

  lemma HearKeeps(m: Memory, event: ProviderEvent, usage: UsageState, sent: bool)
    requires TurnsKept(m)
    ensures var (m', waiting) := Hear(m, event, usage, sent);
            Keeps(m, m') && (waiting.Some? ==> WaitingSound(m', waiting.value))
  {
    TerminationKeeps(m);
    match event
    case SpeechStarted(itemId) => SpeechStartedKeeps(m, itemId, sent);
    case SpeechStopped(itemId) => SpeechStoppedKeeps(m, itemId, sent);
    case ResponseCreated =>
      SilentKeeps(m, m.(created := true));
      SayKeeps(m.(created := true), ResponseStarted);
      UsageKeeps(Say(m.(created := true), ResponseStarted), event, usage);
    case TranscriptionCompleted(t) =>
      if t.Some? { SayKeeps(m, Heard(t.value)); }
      UsageKeeps(Arrived(m, event), event, usage);
    case TranscriptionFailed =>
    case ErrorReported =>
    case _ => UsageKeeps(m, event, usage);
  }

  lemma SwapKeeps(m: Memory, w: Waiting, swapped: bool, sent: bool)
    requires TurnsKept(m) && WaitingSound(m, w)
    ensures Keeps(m, AfterSwap(m, w, swapped, sent))
  {
    TerminationKeeps(m);
    if swapped && !w.result.Invalid? && !w.result.LimitExceeded? {
      match w.event {
        case TranscriptionCompleted(Some(t)) =>
          if OnTranscribed(m, t).turn.Some? { SilentKeeps(m, OnTranscribed(m, t)); }
        case ResponseDone(_) =>
          var idle := m.(pending := false, created := false, phase := Idle);
          SilentKeeps(m, idle);
          SayKeeps(idle, ResponseFinished);
          RequestKeeps(Say(idle, ResponseFinished), sent);
        case _ =>
      }
    }
  }

  predicate WorldKept(w: World) {
    TurnsKept(w.m) && forall i | i in w.waiting :: WaitingSound(w.m, w.waiting[i])
  }

  lemma NextKeepsTurns(w: World, action: Action)
    requires WorldKept(w)
    ensures Keeps(w.m, Next(w, action).m) && WorldKept(Next(w, action))
  {
    match action
    case BeginCall(utteranceId, seen, active, healthy) =>
      var (kind, m) := BeginTurn(w.m, utteranceId, seen, active, healthy);
      if kind.NewTurn? { ChangeKeeps(w.m, m, TurnBegun(utteranceId)); }
    case ReadCall(utteranceId, active) =>
      var (reading, m) := ReadTranscript(w.m, utteranceId, active);
      if reading.TextIs? { SayKeeps(w.m, TextRead(utteranceId, reading.text)); }
    case Terminate => TerminationKeeps(w.m);
    case Arrive(i, event, usage, sent) => HearKeeps(w.m, event, usage, sent);
    case Resume(i, swapped, sent) => if i in w.waiting { SwapKeeps(w.m, w.waiting[i], swapped, sent); }
    case Connect => SilentKeeps(w.m, Next(w, action).m);
    case TerminationEnds => SilentKeeps(w.m, Next(w, action).m);
  }

  lemma {:induction false} EveryRunKeepsTurns(schedule: seq<Action>)
    ensures WorldKept(Run(schedule))
    decreases |schedule|
  {
    if schedule != [] {
      EveryRunKeepsTurns(schedule[..|schedule|-1]);
      NextKeepsTurns(Run(schedule[..|schedule|-1]), schedule[|schedule|-1]);
    }
  }

  /** Turn integrity in every run: completed implies stopped implies a bound provider item;
    * a completed text was heard from the provider for that very item; and any two readings
    * of one utterance agree unless the turn was replaced or ended in between. */
  lemma TurnIntegrity(w: World)
    requires Reachable(w)
    ensures w.m.turn.Some? && w.m.turn.value.completed.Some? ==>
              && w.m.turn.value.stopped
              && w.m.turn.value.itemId == Some(w.m.turn.value.completed.value.itemId)
              && Heard(w.m.turn.value.completed.value) in w.m.log
    ensures w.m.turn.Some? && w.m.turn.value.stopped ==> w.m.turn.value.itemId.Some?
    ensures ReadsAgree(w.m.log)
  {
    var schedule :| Run(schedule) == w;
    EveryRunKeepsTurns(schedule);
  }

  /** An open turn can only stay, under its own utterance, or be ended by a termination. */
  predicate KeepsOpenTurn(m: Memory, m': Memory) {
    m.turn.Some? && m.turn.value.completed.None? ==>
      if m'.turn.Some? then m'.turn.value.utteranceId == m.turn.value.utteranceId else m'.terminating
  }

  lemma HearKeepsOpenTurn(m: Memory, event: ProviderEvent, usage: UsageState, sent: bool)
    requires m.turn.Some? && m.turn.value.completed.None? && !m.terminating
    ensures KeepsOpenTurn(m, Hear(m, event, usage, sent).0)
  {
    match event
    case SpeechStarted(_) =>
    case SpeechStopped(_) =>
    case _ =>
  }

  lemma SwapKeepsOpenTurn(m: Memory, w: Waiting, swapped: bool, sent: bool)
    requires m.turn.Some? && m.turn.value.completed.None? && !m.terminating
    ensures KeepsOpenTurn(m, AfterSwap(m, w, swapped, sent))
  {
  }

  /** No turn is open while a termination runs, so at most one utterance is ever open. */
  lemma {:induction false} NoTurnWhileTerminating(schedule: seq<Action>)
    ensures Run(schedule).m.terminating ==> Run(schedule).m.turn.None?
    decreases |schedule|
  {
    if schedule != [] {
      var w, action := Run(schedule[..|schedule|-1]), schedule[|schedule|-1];
      NoTurnWhileTerminating(schedule[..|schedule|-1]);
      if action.Arrive? && action.i !in w.waiting {
        HearWhileTerminating(w.m, action.event, action.usage, action.sent);
      } else if action.Resume? && action.i in w.waiting {
        SwapWhileTerminating(w.m, w.waiting[action.i], action.swapped, action.sent);
      }
    }
  }

  lemma HearWhileTerminating(m: Memory, event: ProviderEvent, usage: UsageState, sent: bool)
    requires m.terminating ==> m.turn.None?
    ensures var m' := Hear(m, event, usage, sent).0; m'.terminating ==> m'.turn.None?
  {
  }

  lemma SwapWhileTerminating(m: Memory, w: Waiting, swapped: bool, sent: bool)
    requires m.terminating ==> m.turn.None?
    ensures var m' := AfterSwap(m, w, swapped, sent); m'.terminating ==> m'.turn.None?
  {
  }

  lemma TurnsDoNotOverlap(w: World, action: Action)
    requires Reachable(w)
    ensures KeepsOpenTurn(w.m, Next(w, action).m)
  {
    var schedule :| Run(schedule) == w;
    NoTurnWhileTerminating(schedule);
    if w.m.turn.Some? && w.m.turn.value.completed.None? {
      if action.Arrive? && action.i !in w.waiting {
        HearKeepsOpenTurn(w.m, action.event, action.usage, action.sent);
      } else if action.Resume? && action.i in w.waiting {
        SwapKeepsOpenTurn(w.m, w.waiting[action.i], action.swapped, action.sent);
      }
    }
  }
}
