/** The usage a realtime call accumulates from provider events, and what its settlement charges. */
module RealtimeUsage {
  import opened Basics
  import opened UsageLedger

  const MAX_SAFE_INTEGER: nat := 9_007_199_254_740_991

  // JUDGE_REALTIME_RESERVED_USAGE, and the cost limit of the recorder, which is the
  // product ceiling and not the reserved cost.
  const RESERVED: Usage := Usage(12_000_000, 800_000, 400_000, 3, 30)
  const RECORDER_COST_LIMIT: nat := CEILING_MICRO_USD

  // Token counts of one response; the cached counts are parts of the first three.
  datatype Tokens = Tokens(
    text: nat, audio: nat, image: nat,
    cachedText: nat, cachedAudio: nat, cachedImage: nat,
    textOut: nat, audioOut: nat)
  {
    predicate Valid() {
      cachedText <= text && cachedAudio <= audio && cachedImage <= image
    }

    function Input(): nat { text + audio + image }

    function Output(): nat { textOut + audioOut }

    /** Tenths of a micro-USD, exact for the cached rates. */
    function DeciMicroUsd(): nat
      requires Valid()
    {
      (text - cachedText) * 40 + cachedText * 4
      + (audio - cachedAudio) * 320 + cachedAudio * 4
      + (image - cachedImage) * 50 + cachedImage * 5
      + textOut * 240 + audioOut * 640
    }
  }

  type ValidTokens = t: Tokens | t.Valid() witness Tokens(0, 0, 0, 0, 0, 0, 0, 0)

  type Duration = s: real | s >= 0.0 witness 0.0

  datatype Entry =
    | Response(eventId: Id, responseId: Id, tokens: ValidTokens)
    | Transcription(eventId: Id, itemId: Id, seconds: Duration)

  datatype Totals = Totals(costMicroUsd: nat, generations: nat, input: nat, output: nat, seconds: Duration)

  datatype UsageState = UsageState(entries: seq<Entry>, trustworthy: bool, totals: Totals)

  const ZERO: Totals := Totals(0, 0, 0, 0, 0.0)
  const NO_USAGE: UsageState := UsageState([], true, ZERO)

  function Doubted(state: UsageState): UsageState {
    state.(trustworthy := false)
  }

  // ----- Prices -----

  function Ceil(x: real): nat
    requires x >= 0.0
  {
    var floor := x.Floor;
    if floor as real == x then floor else floor + 1
  }

  function WhisperMicroUsd(seconds: Duration): real {
    seconds * 17_000.0 / 60.0
  }

  // Number.EPSILON, and the margin by which a fractional price is rounded up.
  const EPSILON: real := 1.0 / 4_503_599_627_370_496.0

  function WhisperPrice(seconds: Duration): nat {
    var raw := WhisperMicroUsd(seconds);
    if raw.Floor as real == raw then raw.Floor
    else Ceil(raw + EPSILON * (if raw > 1.0 then raw else 1.0) * 4.0)
  }

  /** The price functions throw beyond the safe integer range. */
  predicate Priceable(e: Entry) {
    match e
    case Response(_, _, tokens) => tokens.DeciMicroUsd() <= MAX_SAFE_INTEGER
    case Transcription(_, _, seconds) => WhisperMicroUsd(seconds) <= MAX_SAFE_INTEGER as real
  }

  function Price(e: Entry): nat {
    match e
    case Response(_, _, tokens) => (tokens.DeciMicroUsd() + 9) / 10
    case Transcription(_, _, seconds) => WhisperPrice(seconds)
  }

  function Add(t: Totals, e: Entry): Totals {
    match e
    case Response(_, _, tokens) =>
      Totals(t.costMicroUsd + Price(e), t.generations + 1, t.input + tokens.Input(),
             t.output + tokens.Output(), t.seconds)
    case Transcription(_, _, seconds) =>
      t.(costMicroUsd := t.costMicroUsd + Price(e), seconds := t.seconds + seconds)
  }

  const MILLION: nat := 1_000_000

  /** The price list: micro-USD for a million tokens of each kind, and for a minute of speech. */
  lemma PriceList(eventId: Id, id: Id)
    ensures Price(Response(eventId, id, Tokens(MILLION, 0, 0, 0, 0, 0, 0, 0))) == 4_000_000
    ensures Price(Response(eventId, id, Tokens(MILLION, 0, 0, MILLION, 0, 0, 0, 0))) == 400_000
    ensures Price(Response(eventId, id, Tokens(0, MILLION, 0, 0, 0, 0, 0, 0))) == 32_000_000
    ensures Price(Response(eventId, id, Tokens(0, MILLION, 0, 0, MILLION, 0, 0, 0))) == 400_000
    ensures Price(Response(eventId, id, Tokens(0, 0, MILLION, 0, 0, 0, 0, 0))) == 5_000_000
    ensures Price(Response(eventId, id, Tokens(0, 0, MILLION, 0, 0, MILLION, 0, 0))) == 500_000
    ensures Price(Response(eventId, id, Tokens(0, 0, 0, 0, 0, 0, MILLION, 0))) == 24_000_000
    ensures Price(Response(eventId, id, Tokens(0, 0, 0, 0, 0, 0, 0, MILLION))) == 64_000_000
    ensures Price(Transcription(eventId, id, 60.0)) == 17_000
  {
    assert WhisperMicroUsd(60.0) == 17_000.0;
  }

  // ----- recordOpenAiRealtimeServerEvent -----

  // What an event says about usage: nothing, something malformed, or one entry.
  datatype Telemetry = NotUsage | Malformed | Reported(entry: Entry)

  datatype RecordResult =
    | Ignored
    | Duplicate
    | Recorded(state: UsageState)
    | Invalid(state: UsageState)
    | LimitExceeded(state: UsageState)
    | PriceThrew

  predicate SameSource(a: Entry, b: Entry) {
    || (a.Response? && b.Response? && a.responseId == b.responseId)
    || (a.Transcription? && b.Transcription? && a.itemId == b.itemId)
  }

  function FirstFrom(entries: seq<Entry>, e: Entry): Option<Entry> {
    if entries == [] then None
    else if SameSource(entries[0], e) then Some(entries[0])
    else FirstFrom(entries[1..], e)
  }

  predicate SafeTotals(t: Totals) {
    && t.costMicroUsd <= MAX_SAFE_INTEGER && t.generations <= MAX_SAFE_INTEGER
    && t.input <= MAX_SAFE_INTEGER && t.output <= MAX_SAFE_INTEGER
    && t.seconds <= MAX_SAFE_INTEGER as real
  }

  predicate WithinLimits(t: Totals) {
    && t.costMicroUsd <= RECORDER_COST_LIMIT
    && t.generations <= RESERVED.generationCount
    && t.input <= RESERVED.inputTokens
    && t.output <= RESERVED.outputTokens
    && t.seconds <= RESERVED.realtimeSeconds as real
  }

  function Record(state: UsageState, telemetry: Telemetry): RecordResult {
    if !state.trustworthy then Invalid(state)
    else match telemetry
      case NotUsage => Ignored
      case Malformed => Invalid(Doubted(state))
      case Reported(e) =>
        var earlier := FirstFrom(state.entries, e);
        if earlier.Some? then (if earlier.value == e then Duplicate else Invalid(Doubted(state)))
        else if exists known | known in state.entries :: known.eventId == e.eventId then Invalid(Doubted(state))
        else if !Priceable(e) then PriceThrew
        else
          var totals := Add(state.totals, e);
          var next := UsageState(state.entries + [e], true, totals);
          if !SafeTotals(totals) then Invalid(Doubted(state))
          else if !WithinLimits(totals) then LimitExceeded(Doubted(next))
          else Recorded(next)
  }

  // ----- What a trusted total means -----

  function SumOf(entries: seq<Entry>): Totals {
    if entries == [] then ZERO else Add(SumOf(entries[..|entries|-1]), entries[|entries|-1])
  }

  predicate EachOnce(entries: seq<Entry>) {
    forall i, j | 0 <= i < j < |entries| ::
      !SameSource(entries[i], entries[j]) && entries[i].eventId != entries[j].eventId
  }

  /** Trusted totals count every reported response and transcription exactly once. */
  predicate Accurate(state: UsageState) {
    state.trustworthy ==>
      EachOnce(state.entries) && state.totals == SumOf(state.entries) && WithinLimits(state.totals)
  }

  lemma {:induction false} FirstFromFinds(entries: seq<Entry>, e: Entry)
    ensures FirstFrom(entries, e) == None <==> forall known | known in entries :: !SameSource(known, e)
    ensures FirstFrom(entries, e).Some? ==> FirstFrom(entries, e).value in entries
    decreases |entries|
  {
    if entries != [] {
      FirstFromFinds(entries[1..], e);
      assert entries == [entries[0]] + entries[1..];
    }
  }

  /** The recorder keeps totals accurate, never restores trust, and repeats nothing. */
  lemma RecordKeeps(state: UsageState, telemetry: Telemetry)
    requires Accurate(state)
    ensures var result := Record(state, telemetry);
            && (result.Recorded? || result.Invalid? || result.LimitExceeded? ==>
                  Accurate(result.state) && (result.state.trustworthy ==> result.Recorded? && state.trustworthy))
            && (result.Duplicate? <==> state.trustworthy && telemetry.Reported? && telemetry.entry in state.entries)
            && (result.Recorded? ==> telemetry.Reported? && result.state.entries == state.entries + [telemetry.entry])
  {
    var result := Record(state, telemetry);
    if state.trustworthy && telemetry.Reported? {
      var e := telemetry.entry;
      FirstFromFinds(state.entries, e);
      if e in state.entries {
        assert SameSource(e, e);
        var first := FirstFrom(state.entries, e).value;
        assert SameSource(first, e) by { FirstIsSame(state.entries, e); }
      } else if result.Recorded? {
        AppendIsAccurate(state, e);
      }
    }
  }

  /** Exactly the events that are recorded: a first report from its response or item, with a new
    * event id, that can be priced and keeps every total within its limit. */
  lemma RecordedIff(state: UsageState, telemetry: Telemetry)
    requires Accurate(state)
    ensures Record(state, telemetry).Recorded? <==>
              && state.trustworthy && telemetry.Reported? && Priceable(telemetry.entry)
              && (forall known | known in state.entries ::
                    !SameSource(known, telemetry.entry) && known.eventId != telemetry.entry.eventId)
              && var totals := SumOf(state.entries + [telemetry.entry]);
              && totals.costMicroUsd <= 25_000_000 && totals.generations <= 3
              && totals.input <= 800_000 && totals.output <= 400_000 && totals.seconds <= 30.0
  {
    if telemetry.Reported? {
      FirstFromFinds(state.entries, telemetry.entry);
      if state.trustworthy {
        assert (state.entries + [telemetry.entry])[..|state.entries|] == state.entries;
      }
    }
  }

  lemma AppendIsAccurate(state: UsageState, e: Entry)
    requires EachOnce(state.entries) && state.totals == SumOf(state.entries)
    requires forall known | known in state.entries :: !SameSource(known, e) && known.eventId != e.eventId
    ensures EachOnce(state.entries + [e]) && Add(state.totals, e) == SumOf(state.entries + [e])
  {
    var next := state.entries + [e];
    assert next[..|next|-1] == state.entries;
  }

  lemma {:induction false} FirstIsSame(entries: seq<Entry>, e: Entry)
    ensures FirstFrom(entries, e).Some? ==> SameSource(FirstFrom(entries, e).value, e)
    decreases |entries|
  {
    if entries != [] { FirstIsSame(entries[1..], e); }
  }

  // ----- What settlement asks the limiter to charge -----

  /** None where the limiter throws because the seconds are not a whole number. */
  function ChargeFor(state: UsageState): Option<Usage> {
    if !state.trustworthy then Some(RESERVED)
    else if state.totals.seconds.Floor as real != state.totals.seconds then None
    else Some(Usage(state.totals.costMicroUsd, state.totals.input, state.totals.output,
                    state.totals.generations, state.totals.seconds.Floor))
  }

  /** The recorder lets a trusted call spend more than the limiter can charge it. */
  predicate Chargeable(state: UsageState) {
    state.trustworthy ==>
      && state.totals.seconds.Floor as real == state.totals.seconds
      && state.totals.costMicroUsd <= RESERVED.costMicroUsd
  }

  /** The charge is the sum of what was recorded, or everything where that is not trusted. */
  lemma ChargeIsTheSum(state: UsageState)
    requires Accurate(state)
    ensures !state.trustworthy ==> ChargeFor(state) == Some(Usage(12_000_000, 800_000, 400_000, 3, 30))
    ensures var sum := SumOf(state.entries);
            state.trustworthy && ChargeFor(state).Some? ==>
              && ChargeFor(state).value.costMicroUsd == sum.costMicroUsd
              && ChargeFor(state).value.inputTokens == sum.input && ChargeFor(state).value.outputTokens == sum.output
              && ChargeFor(state).value.generationCount == sum.generations
              && ChargeFor(state).value.realtimeSeconds as real == sum.seconds
  {
  }

  function CostOf(state: UsageState): nat {
    if state.trustworthy then state.totals.costMicroUsd else RESERVED.costMicroUsd
  }

  /** The exact condition under which a held reservation can be finalized for a call, at
    * whatever epoch the settlement carries. */
  lemma ChargeSucceedsIff(rows: Ledger, id: Id, state: UsageState, now: nat)
    requires Accurate(state)
    requires id in rows && rows[id].status.Held? && rows[id].estimated == RESERVED
    ensures (ChargeFor(state).Some? && Finalize(rows, id, ChargeFor(state).value, now).0)
            <==> Chargeable(state) && rows[id].reservedAt <= now
                 && RollingCost(rows - {id}, now) + CostOf(state) <= CEILING_MICRO_USD
  {
    if state.trustworthy && state.totals.seconds.Floor as real == state.totals.seconds {
      assert WithinLimits(state.totals);
    }
  }

  /** At a current epoch nothing but the usage itself decides. */
  lemma FreshChargeSucceedsIff(rows: Ledger, id: Id, state: UsageState, now: nat)
    requires Sound(rows, now) && Accurate(state)
    requires id in rows && rows[id].status.Held? && rows[id].estimated == RESERVED
    ensures (ChargeFor(state).Some? && Finalize(rows, id, ChargeFor(state).value, now).0) <==> Chargeable(state)
  {
    ChargeSucceedsIff(rows, id, state, now);
    RollingCostSplit(rows, id, now);
  }

  /** Both ways to miss it are reachable with one well-formed event. */
  lemma OneEntry(e: Entry, totals: Totals)
    requires Priceable(e) && Add(ZERO, e) == totals && WithinLimits(totals)
    ensures Record(NO_USAGE, Reported(e)) == Recorded(UsageState([e], true, totals))
  {
    assert NO_USAGE.entries + [e] == [e];
  }

  lemma HalfASecondTotals(e: Entry)
    requires e == Transcription(0, 0, 0.5)
    ensures Priceable(e) && Add(ZERO, e) == Totals(142, 0, 0, 0, 0.5)
  {
    assert WhisperMicroUsd(0.5) * 60.0 == 8_500.0;
    assert WhisperMicroUsd(0.5).Floor == 141;
  }

  lemma AudioPrice(e: Entry)
    requires e.Response? && e.tokens == Tokens(0, 400_000, 0, 0, 0, 0, 0, 0)
    ensures Priceable(e) && Price(e) == 12_800_000
  {
    assert e.tokens.DeciMicroUsd() == 128_000_000;
  }

  lemma UnchargeableOnItsOwn(e: Entry, totals: Totals)
    requires Priceable(e) && Add(ZERO, e) == totals && WithinLimits(totals)
    requires totals.costMicroUsd > RESERVED.costMicroUsd || totals.seconds.Floor as real != totals.seconds
    ensures var result := Record(NO_USAGE, Reported(e));
            result.Recorded? && result.state.trustworthy && !Chargeable(result.state)
  {
    OneEntry(e, totals);
  }

  lemma TrustedUsageCanBeUnchargeable(e: Entry)
    requires e == Transcription(0, 0, 0.5) || e == Response(0, 0, Tokens(0, 400_000, 0, 0, 0, 0, 0, 0))
    ensures var result := Record(NO_USAGE, Reported(e));
            result.Recorded? && result.state.trustworthy && !Chargeable(result.state)
  {
    if e.Response? {
      AudioPrice(e);
      UnchargeableOnItsOwn(e, Totals(12_800_000, 1, 400_000, 0, 0.0));
    } else {
      HalfASecondTotals(e);
      assert (0.5).Floor == 0;
      UnchargeableOnItsOwn(e, Totals(142, 0, 0, 0, 0.5));
    }
  }
}
