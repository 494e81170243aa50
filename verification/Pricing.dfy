/** Exact pricing of structured AI calls and the check of a bill against its reservation. */
module Pricing {
  import opened UsageLedger

  const MAX_SAFE_INTEGER: int := 9_007_199_254_740_991
  const LONG_CONTEXT_INPUT_TOKEN_THRESHOLD: int := 272_000

  datatype Attempt = Attempt(model: string, input: int, output: int)

  datatype Billing = Billing(input: int, output: int, attemptCount: int, attempts: seq<Attempt>)

  datatype Operation = AssumptionInvalidation | PrivateDisclosure | DecisionSynthesis

  datatype Failure =
    | NotASafeInteger
    | BadAttemptCount
    | AttemptsDoNotMatch
    | TotalsDoNotMatch
    | UsageExceedsReservation
    | UnsupportedModel
    | CostNotSafe
    | CostExceedsReservation

  datatype Result<T> = Success(value: T) | Thrown(failure: Failure)

  // Micro-USD per token, as fractions.
  datatype Rates = Rates(denominator: nat, input: nat, output: nat)

  function RatesOf(model: string): Rates {
    if model == "gpt-5.6" || model == "gpt-5.6-sol" then Rates(1, 5, 30)
    else if model == "gpt-5.6-luna" then Rates(1, 1, 6)
    else Rates(2, 5, 30)
  }

  predicate Supported(model: string) {
    model == "gpt-5.6" || model == "gpt-5.6-luna" || model == "gpt-5.6-sol" || model == "gpt-5.6-terra"
  }

  function Reserved(operation: Operation): Usage {
    match operation
    case AssumptionInvalidation => Usage(5_500_000, 540_000, 1_600, 2, 0)
    case PrivateDisclosure => Usage(5_500_000, 540_000, 1_400, 2, 0)
    case DecisionSynthesis => Usage(5_750_000, 540_000, 2_800, 2, 0)
  }

  // ----- assertBilling and assertWithinReservation -----

  predicate SafeToken(n: int) {
    0 <= n <= MAX_SAFE_INTEGER
  }

  function InputOf(attempts: seq<Attempt>): int {
    if attempts == [] then 0 else InputOf(attempts[..|attempts|-1]) + attempts[|attempts|-1].input
  }

  function OutputOf(attempts: seq<Attempt>): int {
    if attempts == [] then 0 else OutputOf(attempts[..|attempts|-1]) + attempts[|attempts|-1].output
  }

  function BillingFailure(b: Billing): Result<()> {
    if !SafeToken(b.input) || !SafeToken(b.output) then Thrown(NotASafeInteger)
    else if !(1 <= b.attemptCount <= MAX_SAFE_INTEGER) then Thrown(BadAttemptCount)
    else if |b.attempts| != b.attemptCount
            || exists a | a in b.attempts :: !SafeToken(a.input) || !SafeToken(a.output) then Thrown(AttemptsDoNotMatch)
    else if InputOf(b.attempts) != b.input || OutputOf(b.attempts) != b.output then Thrown(TotalsDoNotMatch)
    else Success(())
  }

  function ReservationFailure(b: Billing, reserved: Usage): Result<()> {
    if BillingFailure(b).Thrown? then BillingFailure(b)
    else if b.attemptCount > reserved.generationCount || b.input > reserved.inputTokens || b.output > reserved.outputTokens
    then Thrown(UsageExceedsReservation)
    else Success(())
  }

  // ----- priceJudgeStructuredAiUsageMicroUsd -----

  function Numerator(a: Attempt): nat
    requires SafeToken(a.input) && SafeToken(a.output)
  {
    var rates := RatesOf(a.model);
    var longContext := a.input > LONG_CONTEXT_INPUT_TOKEN_THRESHOLD;
    a.input * (rates.input * if longContext then 4 else 2) + a.output * (rates.output * if longContext then 3 else 2)
  }

  function Denominator(a: Attempt): (d: nat)
    ensures d > 0
  {
    RatesOf(a.model).denominator * 2
  }

  /** The price of one attempt, rounded up. */
  function AttemptPrice(a: Attempt): nat
    requires SafeToken(a.input) && SafeToken(a.output)
  {
    (Numerator(a) + Denominator(a) - 1) / Denominator(a)
  }

  predicate Priceable(attempts: seq<Attempt>) {
    forall a | a in attempts :: SafeToken(a.input) && SafeToken(a.output)
  }

  function SumOfPrices(attempts: seq<Attempt>): nat
    requires Priceable(attempts)
  {
    if attempts == [] then 0
    else SumOfPrices(attempts[..|attempts|-1]) + AttemptPrice(attempts[|attempts|-1])
  }

  function Price(b: Billing): Result<nat> {
    var checked := BillingFailure(b);
    if checked.Thrown? then Thrown(checked.failure)
    else if exists a | a in b.attempts :: !Supported(a.model) then Thrown(UnsupportedModel)
    else if SumOfPrices(b.attempts) > MAX_SAFE_INTEGER then Thrown(CostNotSafe)
    else Success(SumOfPrices(b.attempts))
  }

  function ActualUsage(operation: Operation, b: Billing): Result<Usage> {
    var checked := ReservationFailure(b, Reserved(operation));
    if checked.Thrown? then Thrown(checked.failure)
    else
      var price := Price(b);
      if price.Thrown? then Thrown(price.failure)
      else if price.value > Reserved(operation).costMicroUsd then Thrown(CostExceedsReservation)
      else Success(Usage(price.value, b.input, b.output, b.attemptCount, 0))
  }

  // ----- The bound -----

  lemma AttemptBound(a: Attempt)
    requires SafeToken(a.input) && SafeToken(a.output)
    ensures AttemptPrice(a) <= 10 * a.input + 45 * a.output
  {
    var rates := RatesOf(a.model);
    var m, n := if a.input > LONG_CONTEXT_INPUT_TOKEN_THRESHOLD then 4 else 2,
                if a.input > LONG_CONTEXT_INPUT_TOKEN_THRESHOLD then 3 else 2;
    assert a.input * (rates.input * m) <= a.input * 20 && a.output * (rates.output * n) <= a.output * 90;
  }

  lemma {:induction false} TotalBound(attempts: seq<Attempt>)
    requires Priceable(attempts)
    ensures SumOfPrices(attempts) <= 10 * InputOf(attempts) + 45 * OutputOf(attempts)
    decreases |attempts|
  {
    if attempts != [] {
      TotalBound(attempts[..|attempts|-1]);
      AttemptBound(attempts[|attempts|-1]);
    }
  }

  /** A well-formed bill is never priced above 10 micro-USD for each input token and 45 for
    * each output token, whatever mix of models and context lengths it has. */
  lemma PriceBound(b: Billing)
    requires Price(b).Success?
    ensures Price(b).value <= 10 * b.input + 45 * b.output
  {
    TotalBound(b.attempts);
  }

  /** The two checks on the cost itself are dead code: a bill within its reservation in
    * attempts and tokens, for supported models, always fits the reserved cost too. */
  lemma CostChecksAreUnreachable(operation: Operation, b: Billing)
    ensures ActualUsage(operation, b) != Thrown(CostExceedsReservation)
    ensures ActualUsage(operation, b) != Thrown(CostNotSafe)
    ensures ActualUsage(operation, b).Success? <==>
              ReservationFailure(b, Reserved(operation)).Success? && forall a | a in b.attempts :: Supported(a.model)
  {
    if BillingFailure(b).Success? { TotalBound(b.attempts); }
  }

  function OutputLimit(operation: Operation): int {
    match operation
    case AssumptionInvalidation => 1_600
    case PrivateDisclosure => 1_400
    case DecisionSynthesis => 2_800
  }

  /** Exactly the bills that are accepted: one or two attempts of listed models, whose tokens
    * add up to the totals, within 540000 input tokens and the output limit of the operation. */
  lemma AcceptedIff(operation: Operation, b: Billing)
    ensures ActualUsage(operation, b).Success? <==>
              && 1 <= b.attemptCount <= 2 && |b.attempts| == b.attemptCount
              && 0 <= b.input <= 540_000 && 0 <= b.output <= OutputLimit(operation)
              && InputOf(b.attempts) == b.input && OutputOf(b.attempts) == b.output
              && forall a | a in b.attempts ::
                   && 0 <= a.input <= 9_007_199_254_740_991 && 0 <= a.output <= 9_007_199_254_740_991
                   && (a.model == "gpt-5.6" || a.model == "gpt-5.6-luna" || a.model == "gpt-5.6-sol" || a.model == "gpt-5.6-terra")
  {
    CostChecksAreUnreachable(operation, b);
  }

  /** What is charged is exactly the bill, and the limiter accepts it. */
  lemma ActualIsWithinReservation(operation: Operation, b: Billing)
    requires ActualUsage(operation, b).Success?
    ensures var actual := ActualUsage(operation, b).value;
            && actual.Within(Reserved(operation))
            && actual.inputTokens == InputOf(b.attempts) && actual.outputTokens == OutputOf(b.attempts)
            && actual.generationCount == |b.attempts| && actual.costMicroUsd == SumOfPrices(b.attempts)
  {
    assert ReservationFailure(b, Reserved(operation)).Success?;
  }

  /** No smaller rates would do: every long-context attempt of the dearest model meets them. */
  lemma BoundIsTight(a: Attempt)
    requires SafeToken(a.input) && SafeToken(a.output)
    requires a.model == "gpt-5.6" && a.input > LONG_CONTEXT_INPUT_TOKEN_THRESHOLD
    ensures AttemptPrice(a) == 10 * a.input + 45 * a.output
  {
    assert RatesOf(a.model) == Rates(1, 5, 30);
  }

  /** The price list, micro-USD for each token: luna costs a fifth of it, terra half, rounded up. */
  lemma PriceList(a: Attempt)
    requires SafeToken(a.input) && SafeToken(a.output) && Supported(a.model)
    ensures var price := AttemptPrice(a);
            var list := if a.input > 272_000 then 10 * a.input + 45 * a.output else 5 * a.input + 30 * a.output;
            && (a.model == "gpt-5.6" || a.model == "gpt-5.6-sol" ==> price == list)
            && (a.model == "gpt-5.6-luna" ==> 5 * price == list)
            && (a.model == "gpt-5.6-terra" ==> list <= 2 * price <= list + 1)
  {
    var n, d := Numerator(a), Denominator(a);
    CeilingDivision(n, d);
  }

  // ----- Rounding -----

  function Exact(a: Attempt): real
    requires SafeToken(a.input) && SafeToken(a.output)
  {
    Numerator(a) as real / Denominator(a) as real
  }

  function SumOfExact(attempts: seq<Attempt>): real
    requires Priceable(attempts)
  {
    if attempts == [] then 0.0
    else SumOfExact(attempts[..|attempts|-1]) + Exact(attempts[|attempts|-1])
  }

  lemma CeilingDivision(n: nat, d: nat)
    requires d > 0
    ensures var q := (n + d - 1) / d; q * d - d < n <= q * d
  {
    var q := (n + d - 1) / d;
    assert n + d - 1 == d * q + (n + d - 1) % d;
  }

  lemma AttemptRounding(a: Attempt)
    requires SafeToken(a.input) && SafeToken(a.output)
    ensures Exact(a) <= AttemptPrice(a) as real < Exact(a) + 1.0
  {
    var n, d, q := Numerator(a), Denominator(a), AttemptPrice(a);
    CeilingDivision(n, d);
    var x := Exact(a);
    assert d == 2 || d == 4;
    assert n as real == x * d as real;
    assert q as real * d as real - d as real < x * d as real <= q as real * d as real;
  }

  /** Rounding up never undercharges, and overcharges by less than one micro-USD an attempt. */
  lemma {:induction false} RoundingBound(attempts: seq<Attempt>)
    requires Priceable(attempts)
    ensures SumOfExact(attempts) <= SumOfPrices(attempts) as real <= SumOfExact(attempts) + |attempts| as real
    ensures attempts != [] ==> (SumOfPrices(attempts) as real) < SumOfExact(attempts) + |attempts| as real
    decreases |attempts|
  {
    if attempts != [] {
      RoundingBound(attempts[..|attempts|-1]);
      AttemptRounding(attempts[|attempts|-1]);
    }
  }

  // ----- The tiers -----

  /** Reporting more tokens never makes an attempt cheaper, across the long-context threshold too. */
  lemma PriceIsMonotone(a: Attempt, b: Attempt)
    requires SafeToken(a.input) && SafeToken(a.output) && SafeToken(b.input) && SafeToken(b.output)
    requires a.model == b.model && a.input <= b.input && a.output <= b.output
    ensures AttemptPrice(a) <= AttemptPrice(b)
  {
    assert Numerator(a) <= Numerator(b);
    var d := Denominator(a);
    assert d == 2 || d == 4;
  }
}
