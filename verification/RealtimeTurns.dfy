/** The turn and response machine that JudgeRealtimeCallLifecycle keeps in memory. Each
  * member is the code between two awaits, so that turns, provider events and terminations
  * may alternate in any order. */
module RealtimeTurns {
  import opened Basics
  import opened UsageLedger
  import opened RealtimeUsage

  datatype Transcript = Transcript(eventId: Id, itemId: Id, seconds: Duration, text: string)

  datatype Turn = Turn(utteranceId: Id, itemId: Option<Id>, stopped: bool, completed: Option<Transcript>)

  datatype Phase = Idle | Responding | CancellingResponse

  // What happened, in order: commands sent to the provider, events accepted from it,
  // turns begun and ended, and texts handed out.
  datatype Signal =
    | TurnBegun(utteranceId: Id)
    | TurnEnded
    | StopAccepted
    | CreateSent
    | CancelSent
    | ResponseStarted
    | ResponseFinished
    | Heard(transcript: Transcript)
    | TextRead(utteranceId: Id, text: string)

  datatype Memory = Memory(
    turn: Option<Turn>,
    phase: Phase,
    created: bool,
    pending: bool,
    commands: nat,
    connected: bool,
    terminating: bool,
    version: nat,
    log: seq<Signal>)

  const FRESH: Memory := Memory(None, Idle, false, false, 0, false, false, 0, [])

  // A provider event as the handlers read it; None where a part is missing or malformed.
  datatype ProviderEvent =
    | TranscriptionFailed
    | SpeechStarted(itemId: Option<Id>)
    | SpeechStopped(itemId: Option<Id>)
    | TranscriptionCompleted(transcript: Option<Transcript>)
    | ResponseCreated
    | ResponseDone(entry: Option<Entry>)
    | ErrorReported
    | Unrelated(readable: bool)

  function TelemetryOf(event: ProviderEvent): Telemetry {
    match event
    case TranscriptionCompleted(Some(t)) => Reported(Transcription(t.eventId, t.itemId, t.seconds))
    case TranscriptionCompleted(None) => Malformed
    case ResponseDone(Some(entry)) => if entry.Response? then Reported(entry) else Malformed
    case ResponseDone(None) => Malformed
    case Unrelated(readable) => if readable then NotUsage else Malformed
    case _ => NotUsage
  }

  // ----- The segments -----

  function Say(m: Memory, signal: Signal): Memory {
    m.(log := m.log + [signal])
  }

  /** The synchronous beginning of terminate(). */
  function BeginTermination(m: Memory): Memory {
    if m.terminating then m
    else Say(m.(turn := None, terminating := true, version := m.version + 1), TurnEnded)
  }

  datatype Begin = NewTurn | SameTurn | TurnConflict | TurnUnavailable

  /** beginTurn after its await; `seen` is the version it read before. */
  function BeginTurn(m: Memory, utteranceId: Id, seen: nat, callActive: bool, healthy: bool): (Begin, Memory) {
    if !callActive || seen != m.version || m.terminating || !m.connected || !healthy then (TurnUnavailable, m)
    else if m.turn.Some? && m.turn.value.utteranceId == utteranceId then (SameTurn, m)
    else if m.turn.Some? && m.turn.value.completed.None? then (TurnConflict, m)
    else (NewTurn, Say(m.(turn := Some(Turn(utteranceId, None, false, None))), TurnBegun(utteranceId)))
  }

  datatype Reading = TextIs(text: string) | TextPending | TextUnavailable

  function ReadTranscript(m: Memory, utteranceId: Id, callActive: bool): (Reading, Memory) {
    if !callActive || m.turn.None? || m.turn.value.utteranceId != utteranceId then (TextUnavailable, m)
    else if m.turn.value.completed.None? then (TextPending, m)
    else
      var text := m.turn.value.completed.value.text;
      (TextIs(text), Say(m, TextRead(utteranceId, text)))
  }

  /** `sent` is false where the connection throws. */
  function RequestResponse(m: Memory, sent: bool): Memory {
    if !m.phase.Idle? || m.commands >= RESERVED.generationCount || !m.connected then BeginTermination(m)
    else
      var asked := Say(m.(phase := Responding, created := false, commands := m.commands + 1), CreateSent);
      if sent then asked else BeginTermination(asked)
  }

  function OnSpeechStarted(m: Memory, itemId: Option<Id>, sent: bool): Memory {
    if itemId.None? || m.turn.None? || m.turn.value.completed.Some?
       || (m.turn.value.itemId.Some? && m.turn.value.itemId != itemId)
    then BeginTermination(m)
    else
      var bound := m.(turn := Some(m.turn.value.(itemId := itemId)));
      if !m.phase.Responding? then bound
      else if !m.connected || !sent then BeginTermination(bound)
      else Say(bound.(phase := CancellingResponse), CancelSent)
  }

  function OnSpeechStopped(m: Memory, itemId: Option<Id>, sent: bool): Memory {
    if itemId.None? || m.turn.None? || m.turn.value.itemId != itemId || m.turn.value.stopped then BeginTermination(m)
    else
      var heard := Say(m.(turn := Some(m.turn.value.(stopped := true))), StopAccepted);
      match m.phase
      case CancellingResponse => heard.(pending := true)
      case Responding => BeginTermination(heard)
      case Idle => RequestResponse(heard, sent)
  }

  /** A repeated transcription must be the one the turn already holds. */
  function OnDuplicate(m: Memory, event: ProviderEvent): Memory {
    match event
    case TranscriptionCompleted(Some(t)) =>
      if m.turn.Some? && m.turn.value.itemId == Some(t.itemId) && m.turn.value.completed == Some(t)
      then m else BeginTermination(m)
    case _ => m
  }

  // A handler that awaits replaceActiveUsage with this result.
  datatype Waiting = Waiting(event: ProviderEvent, result: RecordResult)

  /** The rest of a handler up to its swap, for events that may carry usage. */
  function OnUsage(m: Memory, event: ProviderEvent, usage: UsageState): (Memory, Option<Waiting>) {
    match Record(usage, TelemetryOf(event))
    case Ignored => (m, None)
    case PriceThrew => (m, None)
    case Duplicate => (OnDuplicate(m, event), None)
    case result => (m, Some(Waiting(event, result)))
  }

  function Arrived(m: Memory, event: ProviderEvent): Memory {
    match event
    case TranscriptionCompleted(Some(t)) => Say(m, Heard(t))
    case _ => m
  }

  /** recordProviderEvent of an active call, from its first await to the second. */
  function Hear(m: Memory, event: ProviderEvent, usage: UsageState, sent: bool): (Memory, Option<Waiting>) {
    match event
    case TranscriptionFailed => (BeginTermination(m), None)
    case SpeechStarted(itemId) => (OnSpeechStarted(m, itemId, sent), None)
    case SpeechStopped(itemId) => (OnSpeechStopped(m, itemId, sent), None)
    case ErrorReported => (BeginTermination(m), None)
    case ResponseCreated =>
      if m.phase.Idle? || m.created then (BeginTermination(m), None)
      else OnUsage(Say(m.(created := true), ResponseStarted), event, usage)
    case _ => OnUsage(Arrived(m, event), event, usage)
  }

  function OnTranscribed(m: Memory, t: Transcript): Memory {
    if m.turn.None? || m.turn.value.itemId != Some(t.itemId) || !m.turn.value.stopped || m.turn.value.completed.Some?
    then BeginTermination(m)
    else m.(turn := Some(m.turn.value.(completed := Some(t))))
  }

  function OnResponseDone(m: Memory, sent: bool): Memory {
    if m.phase.Idle? || !m.created then BeginTermination(m)
    else
      var finished := Say(m.(pending := false, created := false, phase := Idle), ResponseFinished);
      if m.pending then RequestResponse(finished, sent) else finished
  }

  /** recordProviderEvent after its swap. */
  function AfterSwap(m: Memory, w: Waiting, swapped: bool, sent: bool): Memory {
    if !swapped then m
    else if w.result.Invalid? || w.result.LimitExceeded? then BeginTermination(m)
    else match w.event
      case TranscriptionCompleted(Some(t)) => OnTranscribed(m, t)
      case ResponseDone(_) => OnResponseDone(m, sent)
      case _ => m
  }

  // ----- What every segment keeps -----

  /** completed implies stopped implies a bound item. */
  predicate TurnInOrder(turn: Turn) {
    && (turn.stopped ==> turn.itemId.Some?)
    && (turn.completed.Some? ==> turn.stopped && turn.itemId == Some(turn.completed.value.itemId))
  }

  predicate Shape(m: Memory) {
    && (m.turn.Some? ==> TurnInOrder(m.turn.value))
    && (m.terminating ==> m.turn.None?)
    && (m.pending ==> m.phase.CancellingResponse?)
    && (m.created ==> !m.phase.Idle?)
    && (!m.phase.Idle? ==> m.commands > 0)
    && m.commands <= RESERVED.generationCount
  }

  // ----- The object -----

  class JudgeRealtimeTurns {
    var turn: Option<Turn>
    var responsePhase: Phase
    var responseCreated: bool
    var responseAfterCancelPending: bool
    var responseCommandCount: nat
    var sidebandConnected: bool
    var terminating: bool
    var lifecycleVersion: nat
    ghost var log: seq<Signal>

    ghost function Contents(): Memory
      reads this
    {
      Memory(turn, responsePhase, responseCreated, responseAfterCancelPending, responseCommandCount,
             sidebandConnected, terminating, lifecycleVersion, log)
    }

    ghost predicate Valid()
      reads this
    {
      Shape(Contents())
    }

    constructor ()
      ensures Contents() == FRESH && Valid()
    {
      turn, responsePhase, responseCreated, responseAfterCancelPending := None, Idle, false, false;
      responseCommandCount, sidebandConnected, terminating, lifecycleVersion, log := 0, false, false, 0, [];
    }

    method SidebandOpens()
      requires Valid()
      modifies this`sidebandConnected
      ensures Contents() == old(Contents()).(connected := true) && Valid()
    {
      sidebandConnected := true;
    }

    method TerminationEnds()
      requires Valid()
      modifies this`terminating
      ensures Contents() == old(Contents()).(terminating := false) && Valid()
    {
      terminating := false;
    }

    method Terminate()
      requires Valid()
      modifies this
      ensures Contents() == BeginTermination(old(Contents())) && Valid()
    {
      if !terminating {
        lifecycleVersion := lifecycleVersion + 1;
        terminating := true;
        turn := None;
        log := log + [TurnEnded];
      }
    }

    method Begin(utteranceId: Id, seen: nat, callActive: bool, healthy: bool) returns (kind: Begin)
      requires Valid()
      modifies this
      ensures (kind, Contents()) == BeginTurn(old(Contents()), utteranceId, seen, callActive, healthy) && Valid()
    {
      if !callActive || seen != lifecycleVersion || terminating || !sidebandConnected || !healthy {
        return TurnUnavailable;
      }
      if turn.Some? && turn.value.utteranceId == utteranceId {
        return SameTurn;
      }
      if turn.Some? && turn.value.completed.None? {
        return TurnConflict;
      }
      turn := Some(Turn(utteranceId, None, false, None));
      log := log + [TurnBegun(utteranceId)];
      return NewTurn;
    }

    method Read(utteranceId: Id, callActive: bool) returns (reading: Reading)
      requires Valid()
      modifies this`log
      ensures (reading, Contents()) == ReadTranscript(old(Contents()), utteranceId, callActive) && Valid()
    {
      if !callActive || turn.None? || turn.value.utteranceId != utteranceId {
        return TextUnavailable;
      }
      if turn.value.completed.None? {
        return TextPending;
      }
      log := log + [TextRead(utteranceId, turn.value.completed.value.text)];
      return TextIs(turn.value.completed.value.text);
    }

    method AskForResponse(sent: bool)
      requires Valid()
      modifies this
      ensures Contents() == RequestResponse(old(Contents()), sent) && Valid()
    {
      if !responsePhase.Idle? || responseCommandCount >= RESERVED.generationCount || !sidebandConnected {
        Terminate();
        return;
      }
      responsePhase := Responding;
      responseCreated := false;
      responseCommandCount := responseCommandCount + 1;
      log := log + [CreateSent];
      if !sent {
        Terminate();
      }
    }

    method SpeechBegins(itemId: Option<Id>, sent: bool)
      requires Valid()
      modifies this
      ensures Contents() == OnSpeechStarted(old(Contents()), itemId, sent) && Valid()
    {
      if itemId.None? || turn.None? || turn.value.completed.Some?
         || (turn.value.itemId.Some? && turn.value.itemId != itemId) {
        Terminate();
        return;
      }
      turn := Some(turn.value.(itemId := itemId));
      if responsePhase.Responding? {
        if !sidebandConnected || !sent {
          Terminate();
          return;
        }
        log := log + [CancelSent];
        responsePhase := CancellingResponse;
      }
    }

    method SpeechEnds(itemId: Option<Id>, sent: bool)
      requires Valid()
      modifies this
      ensures Contents() == OnSpeechStopped(old(Contents()), itemId, sent) && Valid()
    {
      if itemId.None? || turn.None? || turn.value.itemId != itemId || turn.value.stopped {
        Terminate();
        return;
      }
      turn := Some(turn.value.(stopped := true));
      log := log + [StopAccepted];
      if responsePhase.CancellingResponse? {
        responseAfterCancelPending := true;
        return;
      }
      if !responsePhase.Idle? {
        Terminate();
        return;
      }
      AskForResponse(sent);
    }

    method HearUsage(event: ProviderEvent, usage: UsageState) returns (waiting: Option<Waiting>)
      requires Valid()
      modifies this
      ensures (Contents(), waiting) == OnUsage(old(Contents()), event, usage) && Valid()
    {
      var result := Record(usage, TelemetryOf(event));
      if result.Ignored? || result.PriceThrew? {
        return None;
      }
      if result.Duplicate? {
        if event.TranscriptionCompleted? && event.transcript.Some?
           && (turn.None? || turn.value.itemId != Some(event.transcript.value.itemId)
               || turn.value.completed != event.transcript) {
          Terminate();
        }
        return None;
      }
      return Some(Waiting(event, result));
    }

    method HearEvent(event: ProviderEvent, usage: UsageState, sent: bool) returns (waiting: Option<Waiting>)
      requires Valid()
      modifies this
      ensures (Contents(), waiting) == Hear(old(Contents()), event, usage, sent) && Valid()
    {
      waiting := None;
      match event {
        case TranscriptionFailed => Terminate();
        case ErrorReported => Terminate();
        case SpeechStarted(itemId) => SpeechBegins(itemId, sent);
        case SpeechStopped(itemId) => SpeechEnds(itemId, sent);
        case ResponseCreated =>
          if responsePhase.Idle? || responseCreated {
            Terminate();
          } else {
            responseCreated := true;
            log := log + [ResponseStarted];
            waiting := HearUsage(event, usage);
          }
        case TranscriptionCompleted(_) =>
          if event.transcript.Some? {
            log := log + [Heard(event.transcript.value)];
          }
          waiting := HearUsage(event, usage);
        case _ => waiting := HearUsage(event, usage);
      }
    }

    method ResumeAfterSwap(w: Waiting, swapped: bool, sent: bool)
      requires Valid()
      modifies this
      ensures Contents() == AfterSwap(old(Contents()), w, swapped, sent) && Valid()
    {
      if !swapped {
        return;
      }
      if w.result.Invalid? || w.result.LimitExceeded? {
        Terminate();
        return;
      }
      if w.event.TranscriptionCompleted? && w.event.transcript.Some? {
        if turn.None? || turn.value.itemId != Some(w.event.transcript.value.itemId)
           || !turn.value.stopped || turn.value.completed.Some? {
          Terminate();
        } else {
          turn := Some(turn.value.(completed := w.event.transcript));
        }
        return;
      }
      if w.event.ResponseDone? {
        if responsePhase.Idle? || !responseCreated {
          Terminate();
          return;
        }
        var createAfterCancel := responseAfterCancelPending;
        responseAfterCancelPending := false;
        responseCreated := false;
        responsePhase := Idle;
        log := log + [ResponseFinished];
        if createAfterCancel {
          AskForResponse(sent);
        }
      }
    }
  }
}
