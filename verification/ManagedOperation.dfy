/** runJudgeManagedStructuredAiOperation as straight-line code over the repository and the
  * limiter. A call that nobody interrupts is one of the interleavings of ManagedRuns. */
module ManagedOperation {
  import opened Basics
  import opened UsageLedger
  import opened UsageLimiter
  import opened ManagedClaimTables
  import opened ManagedReconcile
  import opened ManagedClaimRepository
  import opened ManagedRuns
  import opened ManagedTheorems

  datatype Outcome = Completed(charged: Usage) | IdempotencyConflict | UsageLimitReached | OpenAiUnavailable

  // What the provider does; None where the billing of its result cannot be trusted.
  datatype ProviderReply = Fails | Answers(billed: Option<Usage>)

  // Two fresh reservation ids, every later clock reading, and the outside world.
  datatype Env = Env(newId: Id, nextId: Id, clock: nat, otherLimits: bool, provider: ProviderReply)

  // ----- Steps of one actor -----

  ghost function ActAll(s: Shared, i: nat, a: Actor, choices: seq<Choice>): (Shared, Pc)
    decreases |choices|
  {
    if choices == [] then (s, a.pc)
    else
      var (s1, pc) := Act(s, i, a, choices[0]);
      ActAll(s1, i, a.(pc := pc), choices[1..])
  }

  lemma {:induction false} ActAllAppend(s: Shared, i: nat, a: Actor, first: seq<Choice>, second: seq<Choice>)
    ensures var (s1, pc1) := ActAll(s, i, a, first);
            ActAll(s, i, a, first + second) == ActAll(s1, i, a.(pc := pc1), second)
    decreases |first|
  {
    if first == [] {
      assert first + second == second;
    } else {
      var (s1, pc) := Act(s, i, a, first[0]);
      ActAllAppend(s1, i, a.(pc := pc), first[1..], second);
      assert (first + second)[1..] == first[1..] + second;
    }
  }

  function ChoiceOf(env: Env, id: Id): Choice {
    Choice(id, env.clock, if env.provider.Answers? then env.provider.billed else None, false, env.otherLimits)
  }

  lemma ActOnce(s: Shared, i: nat, a: Actor, choice: Choice)
    ensures ActAll(s, i, a, [choice]) == Act(s, i, a, choice)
  {
    var (s1, pc) := Act(s, i, a, choice);
    assert ActAll(s1, i, a.(pc := pc), []) == (s1, pc);
  }

  /** `choices` lead from actor `a` in `s` to `pc` in a state with these tables and clock. */
  ghost predicate Leads(s: Shared, i: nat, a: Actor, choices: seq<Choice>, s': Shared, pc: Pc) {
    ActAll(s, i, a, choices) == (s', pc) && s'.clock == s.clock
  }

  lemma LeadsOn(s: Shared, i: nat, a: Actor, first: seq<Choice>, s1: Shared, pc1: Pc, second: seq<Choice>, s2: Shared, pc2: Pc)
    requires Leads(s, i, a, first, s1, pc1) && Leads(s1, i, a.(pc := pc1), second, s2, pc2)
    ensures Leads(s, i, a, first + second, s2, pc2)
  {
    ActAllAppend(s, i, a, first, second);
  }

  // ----- reserveClaim is a few steps -----

  predicate OnResult(a: Actor, again: bool, result: ReserveClaimResult, pc: Pc)
    requires a.Runner?
  {
    match result
    case FreshClaim(c) => pc == ReservingUsage(c)
    case Replayed(found) => pc == if again then Stopped else OnReplay(a, found)
    case Conflict => pc == Stopped
    case NotPersisted => pc == Stopped
    case UnexpectedRowCount => pc == ManagedRuns.UnexpectedRowCount
  }

  ghost function ReserveNow(s: Shared, a: Actor, id: Id): (ReserveClaimResult, Tables)
    requires a.Runner?
  {
    ReserveClaim(s.db, NewClaim(a, id), a.now + CLAIM_LEASE_SECONDS, a.now + CLAIM_LEASE_SECONDS)
  }

  lemma InsertIsSteps(s: Shared, i: nat, a: Actor, again: bool, choice: Choice) returns (s': Shared, pc: Pc)
    requires a.Runner? && a.pc == Inserting(again) && Fresh(s, choice.newId) && !choice.lost
    requires FindLifecycle(s.db, a.request.key) == None
    ensures var (inserted, db) := InsertClaim(s.db, NewClaim(a, choice.newId), a.now + CLAIM_LEASE_SECONDS, a.now + CLAIM_LEASE_SECONDS);
            && s'.db == db && pc == (if inserted then ReservingUsage(NewClaim(a, choice.newId)) else Stopped)
            && (!inserted ==> s' == s)
    ensures Leads(s, i, a, [choice, choice], s', pc)
  {
    var (s1, pc1) := Act(s, i, a, choice);
    s', pc := Act(s1, i, a.(pc := pc1), choice).0, Act(s1, i, a.(pc := pc1), choice).1;
    ActOnce(s, i, a, choice);
    ActOnce(s1, i, a.(pc := pc1), choice);
    LeadsOn(s, i, a, [choice], s1, pc1, [choice], s', pc);
    assert [choice] + [choice] == [choice, choice];
  }

  lemma ReuseIsSteps(s: Shared, i: nat, a: Actor, again: bool, choice: Choice) returns (s': Shared, pc: Pc)
    requires a.Runner? && Fresh(s, choice.newId) && !choice.lost
    requires a.request.key in s.db.claims && a.request.key in s.db.lifecycle
    requires s.db.lifecycle[a.request.key].Settled? && s.db.lifecycle[a.request.key].reuseAfter < a.now
    requires a.pc == Reusing(ClaimOf(a.request.key, FindLifecycle(s.db, a.request.key).value), again)
    ensures var (first, second, db) := ReplaceSettled(s.db, a.pc.seen, NewClaim(a, choice.newId),
                                                      a.now + CLAIM_LEASE_SECONDS, a.now + CLAIM_LEASE_SECONDS);
            first && second && s'.db == db && pc == ReservingUsage(NewClaim(a, choice.newId))
    ensures Leads(s, i, a, [choice, choice], s', pc)
  {
    var (s1, pc1) := Act(s, i, a, choice);
    s', pc := Act(s1, i, a.(pc := pc1), choice).0, Act(s1, i, a.(pc := pc1), choice).1;
    ActOnce(s, i, a, choice);
    ActOnce(s1, i, a.(pc := pc1), choice);
    LeadsOn(s, i, a, [choice], s1, pc1, [choice], s', pc);
    assert [choice] + [choice] == [choice, choice];
  }

  /** The repository's reserveClaim, uninterrupted, is a look and at most two more steps. */
  lemma ReserveIsSteps(s: Shared, i: nat, a: Actor, again: bool, choice: Choice)
    returns (choices: seq<Choice>, s': Shared, pc: Pc)
    requires a.Runner? && a.pc == Looking(again) && Fresh(s, choice.newId) && !choice.lost
    ensures var (result, db) := ReserveNow(s, a, choice.newId);
            && s'.db == db && OnResult(a, again, result, pc) && !result.UnexpectedRowCount?
            && (!result.FreshClaim? ==> s' == s)
    ensures Leads(s, i, a, choices, s', pc)
  {
    var (s1, pc1) := Act(s, i, a, choice);
    ActOnce(s, i, a, choice);
    choices, s', pc := [choice], s1, pc1;
    if pc1.Inserting? {
      s', pc := InsertIsSteps(s1, i, a.(pc := pc1), again, choice);
      choices := [choice] + [choice, choice];
      LeadsOn(s, i, a, [choice], s1, pc1, [choice, choice], s', pc);
    } else if pc1.Reusing? {
      s', pc := ReuseIsSteps(s1, i, a.(pc := pc1), again, choice);
      choices := [choice] + [choice, choice];
      LeadsOn(s, i, a, [choice], s1, pc1, [choice, choice], s', pc);
    }
  }

  // ----- The handlers -----

  /** What a handler has done so far: the real tables are those `choices` lead to. */
  ghost predicate Traced(repository: D1ManagedAiOperationClaimRepository, s: Shared, i: nat, a: Actor,
                         choices: seq<Choice>, s': Shared, pc: Pc)
    reads repository, repository.usage
  {
    Leads(s, i, a, choices, s', pc) && s'.db == repository.Contents()
  }

  lemma NothingYet(s: Shared, i: nat, a: Actor)
    ensures Leads(s, i, a, [], s, a.pc)
  {
  }

  lemma OneMoreStep(s: Shared, i: nat, a: Actor, choices: seq<Choice>, s1: Shared, pc1: Pc, choice: Choice)
    requires Leads(s, i, a, choices, s1, pc1) && Act(s1, i, a.(pc := pc1), choice).0.clock == s1.clock
    ensures var (s2, pc2) := Act(s1, i, a.(pc := pc1), choice); Leads(s, i, a, choices + [choice], s2, pc2)
  {
    var (s2, pc2) := Act(s1, i, a.(pc := pc1), choice);
    ActOnce(s1, i, a.(pc := pc1), choice);
    LeadsOn(s, i, a, choices, s1, pc1, [choice], s2, pc2);
  }

  /** The claim is settled and its reservation charged with `actual`. */
  predicate SettledWith(t: Tables, c: Claim, actual: Usage) {
    && c.key in t.lifecycle && t.lifecycle[c.key].Settled? && t.lifecycle[c.key].reservationId == c.reservationId
    && c.reservationId in t.usage && t.usage[c.reservationId].status.Finalized?
    && t.usage[c.reservationId].status.actual == actual
  }

  /** What the provider billed, or everything where that cannot be trusted. */
  predicate ChargedFor(request: Request, env: Env, charged: Usage) {
    && env.provider.Answers?
    && charged == (if env.provider.billed.Some? then env.provider.billed.value else request.reserved)
  }

  ghost predicate SomeClaimSettled(t: Tables, request: Request, env: Env, charged: Usage) {
    ChargedFor(request, env, charged) && exists c: Claim :: c.key == request.key && SettledWith(t, c, charged)
  }

  // ----- When an undisturbed run gets how far -----

  /** What a provider call costs: its bill, or everything where there is none to be trusted. */
  function Price(request: Request, env: Env): Usage {
    if env.provider.Answers? && env.provider.billed.Some? then env.provider.billed.value else request.reserved
  }

  predicate Fits(request: Request, env: Env) {
    Price(request, env).Within(request.reserved)
  }

  /** The caller holds the claim, over a reservation of what its request asks for. */
  ghost predicate Ready(t: Tables, c: Claim, request: Request, clock: nat) {
    && HoldsReserved(t, c) && Bound(t, c) && HeldIn(t.usage, c.reservationId)
    && t.usage[c.reservationId].estimated == request.reserved && Sound(t.usage, clock)
  }

  predicate InTime(t: Tables, c: Claim, clock: nat)
    requires HoldsReserved(t, c)
  {
    c.createdAt <= clock <= t.lifecycle[c.key].leaseExpiresAt
  }

  /** After a provider call: settled and charged its price, or left to the reconciler with the
    * reservation held where the price is beyond it. */
  predicate AfterCall(t: Tables, c: Claim, request: Request, env: Env) {
    if Fits(request, env) then
      SettledWith(t, c, Price(request, env)) && t.lifecycle[c.key].settledAt == env.clock
    else
      && c.key in t.lifecycle && t.lifecycle[c.key].ProviderStarted? && t.lifecycle[c.key].reservationId == c.reservationId
      && HeldIn(t.usage, c.reservationId)
  }

  function Answer(request: Request, env: Env): Outcome {
    if env.provider.Answers? && Fits(request, env) then Completed(Price(request, env)) else OpenAiUnavailable
  }

  /** The durable start of a ready claim in time, what is finalized, what is settled. */
  lemma CallSettles(t: Tables, c: Claim, request: Request, env: Env)
    requires Ready(t, c, request, env.clock)
    ensures MarkProviderStarted(t, c, env.clock).0 <==> env.clock <= t.lifecycle[c.key].leaseExpiresAt
    ensures InTime(t, c, env.clock) ==>
              var t1 := MarkProviderStarted(t, c, env.clock).1;
              var (charged, t2) := ChargeAndSettle(t1, c, Price(request, env), env.clock);
              (charged <==> Fits(request, env)) && AfterCall(t2, c, request, env)
    ensures !InTime(t, c, env.clock) ==> ReleaseOrphaned(t, c, env.clock).1 == t
  {
    FreshFinalizeIsNeverRefused(t.usage, c.reservationId, Price(request, env), env.clock);
  }

  /** A claim as it is right after reserveClaim has made it. */
  ghost predicate Claimed(t: Tables, c: Claim, request: Request, clock: nat) {
    && HoldsReserved(t, c) && Bound(t, c) && c.reservationId !in t.usage && Sound(t.usage, clock)
    && c.fingerprint == request.fingerprint
  }

  ghost predicate Admits(rows: Ledger, request: Request, env: Env) {
    env.otherLimits && RollingCost(rows, env.clock) + request.reserved.costMicroUsd <= CEILING_MICRO_USD
  }

  /** A usage reservation, made or found again. */
  ghost function ReserveOnce(t: Tables, c: Claim, request: Request, env: Env): (ReserveOutcome, Ledger) {
    ReserveWithId(t.usage, c.reservationId, c.fingerprint, request.subject, request.terms, request.reserved,
                  env.clock, CLAIM_LEASE_SECONDS, env.otherLimits)
  }

  lemma ReservingReadies(t: Tables, c: Claim, request: Request, env: Env)
    requires Claimed(t, c, request, env.clock)
    ensures var (decision, usage) := ReserveOnce(t, c, request, env);
            && (decision.Denied? <==> !Admits(t.usage, request, env))
            && (decision.Allowed? <==> Admits(t.usage, request, env) && !FingerprintHeld(t.usage, request.fingerprint))
            && (decision.Allowed? ==> Ready(t.(usage := usage), c, request, env.clock))
            && (!decision.Allowed? ==> usage == t.usage)
  {
    ReserveKeepsBudget(t.usage, c.reservationId, c.fingerprint, request.subject, request.terms, request.reserved,
                       env.clock, CLAIM_LEASE_SECONDS, env.otherLimits, env.clock);
  }

  /** A new claim's usage is admitted, and its provider is called in time. */
  ghost predicate CallsWithNewClaim(rows: Ledger, request: Request, now: nat, env: Env) {
    && Admits(rows, request, env) && !FingerprintHeld(rows, request.fingerprint)
    && now <= env.clock <= now + CLAIM_LEASE_SECONDS
  }

  /** The key is free for a new claim at once: no row, or a settled one of this request whose
    * retention is over. */
  predicate Reservable(t: Tables, request: Request, now: nat) {
    || (request.key !in t.claims && request.key !in t.lifecycle)
    || (request.key in t.claims && request.key in t.lifecycle
        && t.claims[request.key].fingerprint == request.fingerprint && t.claims[request.key].terms == request.terms
        && t.lifecycle[request.key].Settled? && t.lifecycle[request.key].reuseAfter < now)
  }

  /** And the new reservation id is unused. */
  ghost predicate Free(t: Tables, request: Request, now: nat, id: Id, clock: nat) {
    Reservable(t, request, now) && !Referenced(t, id) && id !in t.usage && Sound(t.usage, clock)
  }

  /** The caller has found this reserved claim expired. */
  ghost predicate Expired(t: Tables, c: Claim, now: nat, id: Id, clock: nat) {
    && HoldsReserved(t, c) && Bound(t, c) && t.lifecycle[c.key].leaseExpiresAt < now
    && !Referenced(t, id) && id !in t.usage && Sound(t.usage, clock)
  }

  lemma AbandoningFrees(t: Tables, c: Claim, request: Request, now: nat, id: Id, clock: nat)
    requires Expired(t, c, now, id, clock) && c.key == request.key
    ensures var (abandoned, t') := AbandonReserved(t, c); abandoned && t'.usage == t.usage && Free(t', request, now, id, clock)
  {
  }

  lemma ReservingClaims(t: Tables, request: Request, now: nat, id: Id, clock: nat)
    requires Free(t, request, now, id, clock)
    ensures var c := Claim(request.key, request.fingerprint, request.terms, now, id);
            var (result, t') := ReserveClaim(t, c, now + CLAIM_LEASE_SECONDS, now + CLAIM_LEASE_SECONDS);
            && result == FreshClaim(c) && Claimed(t', c, request, clock) && t'.usage == t.usage
            && t'.lifecycle[c.key].leaseExpiresAt == now + CLAIM_LEASE_SECONDS
  {
  }

  /** How an operation with a new claim ends. */
  ghost predicate EndsNewClaim(rows: Ledger, t': Tables, request: Request, now: nat, env: Env, outcome: Outcome) {
    if !Admits(rows, request, env) then
      outcome == UsageLimitReached && request.key !in t'.claims && request.key !in t'.lifecycle && t'.usage == rows
    else if CallsWithNewClaim(rows, request, now, env) then
      outcome == Answer(request, env) && exists c: Claim :: c.key == request.key && AfterCall(t', c, request, env)
    else outcome == OpenAiUnavailable
  }

  /** A reserved claim whose lease has expired over a reservation of this very request. */
  ghost predicate Stranded(t: Tables, c: Claim, request: Request, now: nat) {
    && HoldsReserved(t, c) && Bound(t, c) && c.key == request.key && t.lifecycle[c.key].leaseExpiresAt < now
    && HeldIn(t.usage, c.reservationId)
    && SameReservation(t.usage[c.reservationId], c.fingerprint, request.subject, request.terms, request.reserved)
  }

  lemma TakingOverReadies(t: Tables, c: Claim, request: Request, now: nat, env: Env)
    requires Stranded(t, c, request, now) && Sound(t.usage, env.clock)
    ensures ReserveOnce(t, c, request, env) == (Allowed(t.usage[c.reservationId].activeUntil), t.usage)
    ensures var (taken, t') := TakeOverReserved(t, c, now, now + CLAIM_LEASE_SECONDS);
            taken && Ready(t', c, request, env.clock) && t'.lifecycle[c.key].leaseExpiresAt == now + CLAIM_LEASE_SECONDS
  {
  }

  /** How taking over such a claim ends. */
  predicate EndsTakeOver(t': Tables, c: Claim, request: Request, now: nat, env: Env, outcome: Outcome) {
    if c.createdAt <= env.clock <= now + CLAIM_LEASE_SECONDS
    then outcome == Answer(request, env) && AfterCall(t', c, request, env)
    else outcome == OpenAiUnavailable
  }

  /** The claim of a provider that was started, over a reservation of this very request. */
  ghost predicate LeftStarted(t: Tables, c: Claim, request: Request, clock: nat) {
    && c.key in t.lifecycle && t.lifecycle[c.key].ProviderStarted? && t.lifecycle[c.key].reservationId == c.reservationId
    && t.lifecycle[c.key].startedAt <= clock && Bound(t, c) && Sound(t.usage, clock)
    && c.reservationId in t.usage && !t.usage[c.reservationId].status.Released?
    && SameReservation(t.usage[c.reservationId], c.fingerprint, request.subject, request.terms, request.reserved)
  }

  /** Recovered: settled, and charged in full unless it was charged before. */
  predicate RecoveredFrom(t: Tables, t': Tables, c: Claim, request: Request) {
    && c.reservationId in t.usage
    && var status := t.usage[c.reservationId].status;
    SettledWith(t', c, if status.Finalized? then status.actual else request.reserved)
  }

  /** How the recovery of a replayed claim ends. */
  ghost predicate EndsReplay(t: Tables, t': Tables, request: Request, now: nat, env: Env, found: Found, outcome: Outcome) {
    match found.row
    case Reserved(id, lease) =>
      var c := ClaimOf(request.key, found);
      if lease < now && id !in t.usage then EndsNewClaim(t.usage, t', request, now, env, outcome)
      else if Stranded(t, c, request, now) && t.usage[id].activeUntil > now then
        EndsTakeOver(t', c, request, now, env, outcome)
      else outcome == OpenAiUnavailable
    case ProviderStarted(_, lease, _) =>
      var c := ClaimOf(request.key, found);
      && outcome == OpenAiUnavailable
      && (if lease < now then LeftStarted(t, c, request, env.clock) ==> RecoveredFrom(t, t', c, request) else t' == t)
    case _ => outcome == OpenAiUnavailable && t' == t
  }

  /** A fresh id is not in any claim row. */
  lemma FreshIsUnreferenced(s: Shared, id: Id)
    requires SharedSound(s) && Fresh(s, id)
    ensures !Referenced(s.db, id)
  {
    forall key | key in s.db.lifecycle && !s.db.lifecycle[key].LegacyBlocked?
      ensures s.db.lifecycle[key].reservationId != id
    {
      assert RowSound(s, key);
    }
  }

  /** The key holds another request. */
  predicate HeldByAnother(t: Tables, request: Request) {
    request.key in t.claims && request.key in t.lifecycle
    && (t.claims[request.key].fingerprint != request.fingerprint || t.claims[request.key].terms != request.terms)
  }

  /** The claim row of this very request. */
  predicate HoldsRow(t: Tables, request: Request) {
    request.key in t.claims && request.key in t.lifecycle && !HeldByAnother(t, request)
  }

  /** The operation gets a new claim: no row, a settled one out of retention, or an expired one
    * that never got a usage reservation. */
  ghost predicate NeedsClaim(t: Tables, request: Request, now: nat) {
    || (request.key !in t.claims && request.key !in t.lifecycle)
    || (HoldsRow(t, request)
        && match t.lifecycle[request.key]
           case Settled(_, _, reuseAfter) => reuseAfter < now
           case Reserved(id, lease) => lease < now && id !in t.usage
           case _ => false)
  }

  /** The operation takes over an expired claim whose reservation is its own and still active. */
  ghost predicate TakesOver(t: Tables, request: Request, now: nat) {
    && HoldsRow(t, request) && t.lifecycle[request.key].Reserved? && t.lifecycle[request.key].leaseExpiresAt < now
    && var id := t.lifecycle[request.key].reservationId;
    && HeldIn(t.usage, id) && t.usage[id].activeUntil > now
    && SameReservation(t.usage[id], request.fingerprint, request.subject, request.terms, request.reserved)
  }

  /** The provider is called. */
  ghost predicate CallsProvider(t: Tables, request: Request, now: nat, env: Env) {
    || (NeedsClaim(t, request, now) && CallsWithNewClaim(t.usage, request, now, env))
    || (TakesOver(t, request, now) && t.claims[request.key].createdAt <= env.clock <= now + CLAIM_LEASE_SECONDS)
  }

  /** A provider that was started under an expired claim of this very request. */
  ghost predicate Recovers(t: Tables, request: Request, now: nat) {
    && HoldsRow(t, request) && t.lifecycle[request.key].ProviderStarted? && t.lifecycle[request.key].leaseExpiresAt < now
    && var id := t.lifecycle[request.key].reservationId;
    && id in t.usage
    && SameReservation(t.usage[id], request.fingerprint, request.subject, request.terms, request.reserved)
  }

  /** Everything an undisturbed run promises, by the tables it starts from. */
  ghost predicate Promised(t: Tables, t': Tables, request: Request, now: nat, env: Env, outcome: Outcome) {
    && (outcome.IdempotencyConflict? <==> HeldByAnother(t, request))
    && (outcome.UsageLimitReached? <==> NeedsClaim(t, request, now) && !Admits(t.usage, request, env))
    && (outcome.Completed? <==> CallsProvider(t, request, now, env) && env.provider.Answers? && Fits(request, env))
    && (outcome.Completed? ==> outcome.charged == Price(request, env))
    && (outcome.IdempotencyConflict? ==> t' == t)
    && (outcome.UsageLimitReached? ==> request.key !in t'.claims && request.key !in t'.lifecycle && t'.usage == t.usage)
    && (CallsProvider(t, request, now, env) ==> exists c: Claim :: c.key == request.key && AfterCall(t', c, request, env))
    && (Recovers(t, request, now) ==>
          exists c: Claim :: c.key == request.key && RecoveredFrom(t, t', c, request))
  }

  lemma ReplayIsPromised(s: Shared, t': Tables, request: Request, now: nat, env: Env, found: Found, outcome: Outcome)
    requires SharedSound(s) && now <= env.clock == s.clock && HoldsRow(s.db, request)
    requires FindLifecycle(s.db, request.key) == Some(found) && !Reservable(s.db, request, now)
    requires EndsReplay(s.db, t', request, now, env, found, outcome)
    ensures Promised(s.db, t', request, now, env, outcome)
  {
    assert RowSound(s, request.key);
    if !found.row.LegacyBlocked? {
      var c := ClaimOf(request.key, found);
      assert BirthSound(s, c.reservationId);
      if found.row.Reserved? && TakesOver(s.db, request, now) { assert Stranded(s.db, c, request, now); }
      if found.row.ProviderStarted? && Recovers(s.db, request, now) { assert LeftStarted(s.db, c, request, env.clock); }
    }
  }

  lemma ConflictIsPromised(t: Tables, request: Request, now: nat, env: Env)
    requires HeldByAnother(t, request)
    ensures Promised(t, t, request, now, env, IdempotencyConflict)
  {
  }

  lemma NewClaimIsPromised(t: Tables, t': Tables, request: Request, now: nat, env: Env, outcome: Outcome)
    requires Reservable(t, request, now) && EndsNewClaim(t.usage, t', request, now, env, outcome)
    ensures Promised(t, t', request, now, env, outcome)
  {
  }

  /** What reserveClaim answers over every reachable table: a new claim where the key is free
    * for this request, a conflict where it holds another, and otherwise the row itself. */
  lemma ReserveDecides(s: Shared, request: Request, now: nat, id: Id)
    requires SharedSound(s) && Fresh(s, id)
    ensures var c := Claim(request.key, request.fingerprint, request.terms, now, id);
            var (result, t') := ReserveClaim(s.db, c, now + CLAIM_LEASE_SECONDS, now + CLAIM_LEASE_SECONDS);
            && (result.FreshClaim? <==> Reservable(s.db, request, now))
            && (result.FreshClaim? ==>
                  result.claim == c && Claimed(t', c, request, s.clock) && t'.usage == s.db.usage
                  && t'.lifecycle[c.key].leaseExpiresAt == now + CLAIM_LEASE_SECONDS)
            && (result.Conflict? <==> HeldByAnother(s.db, request))
            && (result.Replayed? <==> HoldsRow(s.db, request) && !Reservable(s.db, request, now))
            && (result.Replayed? ==> FindLifecycle(s.db, request.key) == Some(result.found))
            && (!result.FreshClaim? ==> t' == s.db)
  {
    FreshIsUnreferenced(s, id);
    if Reservable(s.db, request, now) { ReservingClaims(s.db, request, now, id, s.clock); }
  }

  ghost function ChargeAndSettle(t: Tables, c: Claim, actual: Usage, clock: nat): (bool, Tables) {
    var (charged, usage) := Finalize(t.usage, c.reservationId, actual, clock);
    if charged then MarkSettled(t.(usage := usage), c, true, clock) else (false, t.(usage := usage))
  }

  /** finalizeAndSettle */
  method FinalizeAndSettle(repository: D1ManagedAiOperationClaimRepository, c: Claim, actual: Usage, env: Env,
                           ghost s: Shared, ghost i: nat, ghost a: Actor)
    returns (ok: bool, ghost choices: seq<Choice>, ghost s': Shared)
    requires s.db == repository.Contents() && s.clock == env.clock && a.Runner? && a.pc == Finalizing(c, actual)
    modifies repository, repository.usage
    ensures Traced(repository, s, i, a, choices, s', Stopped)
    ensures ok ==> SettledWith(repository.Contents(), c, actual)
    ensures (ok, repository.Contents()) == ChargeAndSettle(s.db, c, actual, env.clock)
  {
    ghost var choice := ChoiceOf(env, env.newId);
    NothingYet(s, i, a);
    ok := repository.usage.FinalizeActual(c.reservationId, actual, env.clock);
    OneMoreStep(s, i, a, [], s, a.pc, choice);
    choices := [] + [choice];
    s' := Act(s, i, a, choice).0;
    if ok {
      OneMoreStep(s, i, a, choices, s', ReadingSettlement(c), choice);
      choices := choices + [choice];
      ghost var settling := Settling(c, true, env.clock);
      OneMoreStep(s, i, a, choices, s', settling, choice);
      s' := Act(s', i, a.(pc := settling), choice).0;
      choices := choices + [choice];
      ok := repository.Settle(c, true, env.clock);
    }
  }

  /** The durable start: where it is refused, the reservation is released if it is an orphan. */
  method StartDurably(repository: D1ManagedAiOperationClaimRepository, c: Claim, env: Env,
                      ghost s: Shared, ghost i: nat, ghost a: Actor)
    returns (started: bool, ghost choices: seq<Choice>, ghost s': Shared)
    requires s.db == repository.Contents() && s.clock == env.clock && a.Runner? && a.pc == ReadingStart(c)
    modifies repository, repository.usage
    ensures Traced(repository, s, i, a, choices, s', if started then CallingProvider(c) else Stopped)
    ensures started <==> c.createdAt <= env.clock && MarkProviderStarted(s.db, c, env.clock).0
    ensures repository.Contents() == if started then MarkProviderStarted(s.db, c, env.clock).1
                                     else if env.clock < c.createdAt then s.db
                                     else ReleaseOrphaned(s.db, c, env.clock).1
  {
    ghost var choice := ChoiceOf(env, env.newId);
    NothingYet(s, i, a);
    OneMoreStep(s, i, a, [], s, a.pc, choice);
    ghost var starting := StartingProvider(c, env.clock);
    OneMoreStep(s, i, a, [] + [choice], s, starting, choice);
    choices := [] + [choice] + [choice];
    ghost var (s1, pc1) := Act(s, i, a.(pc := starting), choice);
    s' := s1;
    if env.clock < c.createdAt {
      return false, choices, s';
    }
    started := repository.StartProvider(c, env.clock);
    if !started {
      var _ := repository.ReleaseOrphan(c, env.clock);
      OneMoreStep(s, i, a, choices, s1, pc1, choice);
      choices, s' := choices + [choice], Act(s1, i, a.(pc := pc1), choice).0;
    }
  }

  lemma CallIsStep(s: Shared, i: nat, a: Actor, c: Claim, request: Request, env: Env) returns (s': Shared)
    requires a.Runner? && a.request == request && a.pc == CallingProvider(c)
    ensures Leads(s, i, a, [ChoiceOf(env, env.newId)], s', Finalizing(c, Price(request, env))) && s'.db == s.db
  {
    ActOnce(s, i, a, ChoiceOf(env, env.newId));
    s' := Act(s, i, a, ChoiceOf(env, env.newId)).0;
  }

  /** From the durable start of the provider to the end of executeReservedClaim. */
  method StartAndCall(repository: D1ManagedAiOperationClaimRepository, request: Request, c: Claim, env: Env,
                      ghost s: Shared, ghost i: nat, ghost a: Actor)
    returns (outcome: Outcome, ghost choices: seq<Choice>, ghost s': Shared)
    requires s.db == repository.Contents() && s.clock == env.clock
    requires a.Runner? && a.request == request && a.pc == ReadingStart(c)
    modifies repository, repository.usage
    ensures Traced(repository, s, i, a, choices, s', Stopped)
    ensures outcome.Completed? ==> ChargedFor(request, env, outcome.charged) && SettledWith(repository.Contents(), c, outcome.charged)
    ensures Ready(s.db, c, request, env.clock) ==>
              if InTime(s.db, c, env.clock)
              then outcome == Answer(request, env) && AfterCall(repository.Contents(), c, request, env)
              else outcome == OpenAiUnavailable && repository.Contents() == s.db
  {
    if Ready(s.db, c, request, env.clock) { CallSettles(s.db, c, request, env); }
    var started: bool;
    started, choices, s' := StartDurably(repository, c, env, s, i, a);
    if !started {
      return OpenAiUnavailable, choices, s';
    }
    // A provider that fails, and a result whose billing cannot be trusted, cost it all.
    var actual := if env.provider.Answers? && env.provider.billed.Some? then env.provider.billed.value
                  else request.reserved;
    ghost var s2 := CallIsStep(s', i, a.(pc := CallingProvider(c)), c, request, env);
    LeadsOn(s, i, a, choices, s', CallingProvider(c), [ChoiceOf(env, env.newId)], s2, Finalizing(c, actual));
    choices := choices + [ChoiceOf(env, env.newId)];
    ghost var more: seq<Choice>;
    var ok: bool;
    ok, more, s' := FinalizeAndSettle(repository, c, actual, env, s2, i, a.(pc := Finalizing(c, actual)));
    LeadsOn(s, i, a, choices, s2, Finalizing(c, actual), more, s', Stopped);
    choices := choices + more;
    outcome := if ok && env.provider.Answers? then Completed(actual) else OpenAiUnavailable;
  }

  /** executeReservedClaim of a claim whose reservation is not verified yet. */
  method ExecuteReserved(repository: D1ManagedAiOperationClaimRepository, request: Request, c: Claim, env: Env,
                         ghost s: Shared, ghost i: nat, ghost a: Actor)
    returns (outcome: Outcome, ghost choices: seq<Choice>, ghost s': Shared)
    requires s.db == repository.Contents() && s.clock == env.clock
    requires a.Runner? && a.request == request && a.pc == ReservingUsage(c)
    modifies repository, repository.usage
    ensures Traced(repository, s, i, a, choices, s', Stopped)
    ensures outcome.Completed? ==> ChargedFor(request, env, outcome.charged) && SettledWith(repository.Contents(), c, outcome.charged)
    ensures Claimed(s.db, c, request, env.clock) && c.key == request.key
            && s.db.lifecycle[c.key].leaseExpiresAt == c.createdAt + CLAIM_LEASE_SECONDS ==>
              EndsNewClaim(s.db.usage, repository.Contents(), request, c.createdAt, env, outcome)
  {
    if Claimed(s.db, c, request, env.clock) { ReservingReadies(s.db, c, request, env); }
    ghost var choice := ChoiceOf(env, env.newId);
    NothingYet(s, i, a);
    OneMoreStep(s, i, a, [], s, a.pc, choice);
    choices := [] + [choice];
    ghost var (s1, pc1) := Act(s, i, a, choice);
    s' := s1;
    var decision := repository.usage.ReserveNamed(c.reservationId, c.fingerprint, request.subject, request.terms,
                                                  request.reserved, env.clock, CLAIM_LEASE_SECONDS, env.otherLimits);
    match decision {
      case Failed => outcome := OpenAiUnavailable;
      case Denied =>
        var abandoned := repository.Abandon(c);
        OneMoreStep(s, i, a, choices, s1, pc1, choice);
        choices, s' := choices + [choice], Act(s1, i, a.(pc := pc1), choice).0;
        outcome := if abandoned then UsageLimitReached else OpenAiUnavailable;
      case Allowed(_) =>
        ghost var more: seq<Choice>;
        outcome, more, s' := StartAndCall(repository, request, c, env, s1, i, a.(pc := pc1));
        LeadsOn(s, i, a, choices, s1, pc1, more, s', Stopped);
        choices := choices + more;
    }
  }

  /** verifyReservation, and what follows it while recovering a started provider. */
  method VerifyAndSettle(repository: D1ManagedAiOperationClaimRepository, request: Request, c: Claim, held: bool, env: Env,
                         ghost s: Shared, ghost i: nat, ghost a: Actor)
    returns (ghost choices: seq<Choice>, ghost s': Shared)
    requires s.db == repository.Contents() && s.clock == env.clock && a.Runner? && a.request == request
    requires a.pc == Verifying(c, if held then ThenFinalize else ThenSettle(true))
    modifies repository, repository.usage
    ensures Traced(repository, s, i, a, choices, s', Stopped)
    ensures LeftStarted(s.db, c, request, env.clock) && held == HeldIn(s.db.usage, c.reservationId) ==>
              RecoveredFrom(s.db, repository.Contents(), c, request)
  {
    if LeftStarted(s.db, c, request, env.clock) && HeldIn(s.db.usage, c.reservationId) {
      FreshFinalizeIsNeverRefused(s.db.usage, c.reservationId, request.reserved, env.clock);
    }
    ghost var choice := ChoiceOf(env, env.newId);
    NothingYet(s, i, a);
    OneMoreStep(s, i, a, [], s, a.pc, choice);
    choices := [] + [choice];
    ghost var (s1, pc1) := Act(s, i, a, choice);
    s' := s1;
    var decision := repository.usage.ReserveNamed(c.reservationId, c.fingerprint, request.subject, request.terms,
                                                  request.reserved, env.clock, CLAIM_LEASE_SECONDS, env.otherLimits);
    if !decision.Allowed? {
      return choices, s';
    }
    if held {
      ghost var more: seq<Choice>;
      var ok: bool;
      ok, more, s' := FinalizeAndSettle(repository, c, request.reserved, env, s1, i, a.(pc := pc1));
      LeadsOn(s, i, a, choices, s1, pc1, more, s', Stopped);
      choices := choices + more;
    } else {
      OneMoreStep(s, i, a, choices, s1, pc1, choice);
      ghost var settling := Settling(c, true, env.clock);
      OneMoreStep(s, i, a, choices + [choice], s1, settling, choice);
      choices, s' := choices + [choice] + [choice], Act(s1, i, a.(pc := settling), choice).0;
      var _ := repository.Settle(c, true, env.clock);
    }
  }

  /** recoverProviderStarted: charge the whole reservation if nobody has, and settle. */
  method RecoverStarted(repository: D1ManagedAiOperationClaimRepository, request: Request, c: Claim, env: Env,
                        ghost s: Shared, ghost i: nat, ghost a: Actor)
    returns (ghost choices: seq<Choice>, ghost s': Shared)
    requires s.db == repository.Contents() && s.clock == env.clock
    requires a.Runner? && a.request == request && a.pc == FindingStarted(c)
    modifies repository, repository.usage
    ensures Traced(repository, s, i, a, choices, s', Stopped)
    ensures LeftStarted(s.db, c, request, env.clock) ==> RecoveredFrom(s.db, repository.Contents(), c, request)
  {
    ghost var choice := ChoiceOf(env, env.newId);
    NothingYet(s, i, a);
    OneMoreStep(s, i, a, [], s, a.pc, choice);
    choices := [] + [choice];
    ghost var pc1 := Act(s, i, a, choice).1;
    s' := s;
    var persisted := repository.usage.FindReservation(c.reservationId);
    if persisted.None?
       || !SameReservation(persisted.value, c.fingerprint, request.subject, request.terms, request.reserved)
       || persisted.value.status.Released? {
      return choices, s';
    }
    ghost var more: seq<Choice>;
    more, s' := VerifyAndSettle(repository, request, c, persisted.value.status.Held?, env, s, i, a.(pc := pc1));
    LeadsOn(s, i, a, choices, s, pc1, more, s', Stopped);
    choices := choices + more;
  }

  lemma VerifyIsStep(s: Shared, i: nat, a: Actor, c: Claim, request: Request, env: Env)
    requires a.Runner? && a.request == request && a.pc == Verifying(c, ThenTakeOver) && s.clock == env.clock
    ensures var (decision, usage) := ReserveOnce(s.db, c, request, env);
            Leads(s, i, a, [ChoiceOf(env, env.newId)], WithUsage(s, usage), if decision.Allowed? then TakingOver(c) else Stopped)
  {
    ActOnce(s, i, a, ChoiceOf(env, env.newId));
  }

  lemma TakeOverIsStep(s: Shared, i: nat, a: Actor, c: Claim, env: Env)
    requires a.Runner? && a.pc == TakingOver(c)
    ensures var (taken, db) := TakeOverReserved(s.db, c, a.now, a.now + CLAIM_LEASE_SECONDS);
            Leads(s, i, a, [ChoiceOf(env, env.newId)], s.(db := db), if taken then ReadingStart(c) else Stopped)
  {
    ActOnce(s, i, a, ChoiceOf(env, env.newId));
  }

  /** Taking over a reserved claim whose reservation is still active. */
  method TakeOverVerified(repository: D1ManagedAiOperationClaimRepository, request: Request, now: nat, c: Claim, env: Env,
                          ghost s: Shared, ghost i: nat, ghost a: Actor)
    returns (taken: bool, ghost choices: seq<Choice>, ghost s': Shared)
    requires s.db == repository.Contents() && s.clock == env.clock
    requires a.Runner? && a.request == request && a.now == now && a.pc == Verifying(c, ThenTakeOver)
    modifies repository, repository.usage
    ensures Traced(repository, s, i, a, choices, s', if taken then ReadingStart(c) else Stopped)
    ensures Stranded(s.db, c, request, now) && Sound(s.db.usage, env.clock) ==>
              && taken && Ready(repository.Contents(), c, request, env.clock)
              && repository.Contents().lifecycle[c.key].leaseExpiresAt == now + CLAIM_LEASE_SECONDS
  {
    if Stranded(s.db, c, request, now) && Sound(s.db.usage, env.clock) { TakingOverReadies(s.db, c, request, now, env); }
    ghost var choice := ChoiceOf(env, env.newId);
    ghost var s1 := WithUsage(s, ReserveOnce(s.db, c, request, env).1);
    VerifyIsStep(s, i, a, c, request, env);
    choices, s' := [choice], s1;
    var decision := repository.usage.ReserveNamed(c.reservationId, c.fingerprint, request.subject, request.terms,
                                                  request.reserved, env.clock, CLAIM_LEASE_SECONDS, env.otherLimits);
    if !decision.Allowed? {
      return false, choices, s';
    }
    TakeOverIsStep(s1, i, a.(pc := TakingOver(c)), c, env);
    taken := repository.TakeOver(c, now, now + CLAIM_LEASE_SECONDS);
    ghost var s2, pc2 := s1.(db := repository.Contents()), if taken then ReadingStart(c) else Stopped;
    LeadsOn(s, i, a, [choice], s1, TakingOver(c), [choice], s2, pc2);
    choices, s' := [choice] + [choice], s2;
  }

  /** Taking it over and going on with it. */
  method TakeOverAndCall(repository: D1ManagedAiOperationClaimRepository, request: Request, now: nat, c: Claim, env: Env,
                         ghost s: Shared, ghost i: nat, ghost a: Actor)
    returns (outcome: Outcome, ghost choices: seq<Choice>, ghost s': Shared)
    requires s.db == repository.Contents() && s.clock == env.clock
    requires a.Runner? && a.request == request && a.now == now && a.pc == Verifying(c, ThenTakeOver)
    modifies repository, repository.usage
    ensures Traced(repository, s, i, a, choices, s', Stopped)
    ensures outcome.Completed? ==> ChargedFor(request, env, outcome.charged) && SettledWith(repository.Contents(), c, outcome.charged)
    ensures Stranded(s.db, c, request, now) && Sound(s.db.usage, env.clock) ==>
              EndsTakeOver(repository.Contents(), c, request, now, env, outcome)
  {
    var taken: bool;
    taken, choices, s' := TakeOverVerified(repository, request, now, c, env, s, i, a);
    if !taken {
      return OpenAiUnavailable, choices, s';
    }
    ghost var s1 := s';
    ghost var more: seq<Choice>;
    outcome, more, s' := StartAndCall(repository, request, c, env, s1, i, a.(pc := ReadingStart(c)));
    LeadsOn(s, i, a, choices, s1, ReadingStart(c), more, s', Stopped);
    choices := choices + more;
  }

  /** The reservation is already charged: verify it and settle the claim. */
  method SettleCharged(repository: D1ManagedAiOperationClaimRepository, request: Request, now: nat, c: Claim, env: Env,
                       ghost s: Shared, ghost i: nat, ghost a: Actor)
    returns (ghost choices: seq<Choice>, ghost s': Shared)
    requires s.db == repository.Contents() && s.clock == env.clock
    requires a.Runner? && a.request == request && a.now == now && a.pc == Verifying(c, ThenSettle(false))
    modifies repository, repository.usage
    ensures Traced(repository, s, i, a, choices, s', Stopped)
  {
    ghost var choice := ChoiceOf(env, env.newId);
    NothingYet(s, i, a);
    OneMoreStep(s, i, a, [], s, a.pc, choice);
    choices := [] + [choice];
    ghost var (s1, pc1) := Act(s, i, a, choice);
    s' := s1;
    var decision := repository.usage.ReserveNamed(c.reservationId, c.fingerprint, request.subject, request.terms,
                                                  request.reserved, env.clock, CLAIM_LEASE_SECONDS, env.otherLimits);
    if decision.Allowed? {
      var _ := repository.Settle(c, false, now);
      OneMoreStep(s, i, a, choices, s1, pc1, choice);
      choices, s' := choices + [choice], Act(s1, i, a.(pc := pc1), choice).0;
    }
  }

  /** reserveClaim, with a reservation id of its own. */
  method ReserveNew(repository: D1ManagedAiOperationClaimRepository, request: Request, now: nat, id: Id, again: bool, env: Env,
                    ghost s: Shared, ghost i: nat, ghost a: Actor)
    returns (result: ReserveClaimResult, ghost choices: seq<Choice>, ghost s': Shared, ghost pc: Pc)
    requires s.db == repository.Contents() && s.clock == env.clock && Fresh(s, id)
    requires a == Runner(request, now, Looking(again))
    modifies repository, repository.usage
    ensures Traced(repository, s, i, a, choices, s', pc) && s'.clock == s.clock
    ensures OnResult(a, again, result, pc) && !result.UnexpectedRowCount?
    ensures (result, repository.Contents()) == ReserveNow(s, a, id)
    ensures result.FreshClaim? ==> result.claim == Claim(request.key, request.fingerprint, request.terms, now, id)
    ensures !result.FreshClaim? ==> s' == s
  {
    var lease := now + CLAIM_LEASE_SECONDS;
    choices, s', pc := ReserveIsSteps(s, i, a, again, ChoiceOf(env, id));
    result := repository.ReserveOrReplay(Claim(request.key, request.fingerprint, request.terms, now, id), lease, lease);
  }

  /** reserveClaim once more, after a claim without a reservation was abandoned. */
  method ReserveAgain(repository: D1ManagedAiOperationClaimRepository, request: Request, now: nat, env: Env,
                      ghost s: Shared, ghost i: nat, ghost a: Actor)
    returns (outcome: Outcome, ghost choices: seq<Choice>, ghost s': Shared)
    requires s.db == repository.Contents() && s.clock == env.clock && Fresh(s, env.nextId)
    requires a.Runner? && a.request == request && a.now == now && a.pc == Looking(true)
    modifies repository, repository.usage
    ensures Traced(repository, s, i, a, choices, s', Stopped)
    ensures outcome.Completed? ==> SomeClaimSettled(repository.Contents(), request, env, outcome.charged)
    ensures Free(s.db, request, now, env.nextId, env.clock) ==>
              EndsNewClaim(s.db.usage, repository.Contents(), request, now, env, outcome)
  {
    if Free(s.db, request, now, env.nextId, env.clock) {
      ReservingClaims(s.db, request, now, env.nextId, env.clock);
    }
    var result: ReserveClaimResult;
    ghost var pc: Pc;
    result, choices, s', pc := ReserveNew(repository, request, now, env.nextId, true, env, s, i, a);
    if !result.FreshClaim? {
      return if result.Conflict? then IdempotencyConflict else OpenAiUnavailable, choices, s';
    }
    ghost var s1 := s';
    ghost var more: seq<Choice>;
    outcome, more, s' := ExecuteReserved(repository, request, result.claim, env, s1, i, a.(pc := pc));
    LeadsOn(s, i, a, choices, s1, pc, more, s', Stopped);
    choices := choices + more;
  }

  /** recoverReplayedClaim of a reserved claim whose lease has expired, and what follows. */
  method RecoverReserved(repository: D1ManagedAiOperationClaimRepository, request: Request, now: nat, c: Claim, env: Env,
                         ghost s: Shared, ghost i: nat, ghost a: Actor)
    returns (outcome: Outcome, ghost choices: seq<Choice>, ghost s': Shared)
    requires s.db == repository.Contents() && s.clock == env.clock && Fresh(s, env.nextId) && c.key == request.key
    requires a.Runner? && a.request == request && a.now == now && a.pc == FindingReserved(c)
    modifies repository, repository.usage
    ensures Traced(repository, s, i, a, choices, s', Stopped)
    ensures outcome.Completed? ==> SomeClaimSettled(repository.Contents(), request, env, outcome.charged)
    ensures Expired(s.db, c, now, env.nextId, env.clock) ==>
              if c.reservationId !in s.db.usage then
                EndsNewClaim(s.db.usage, repository.Contents(), request, now, env, outcome)
              else if Stranded(s.db, c, request, now) && s.db.usage[c.reservationId].activeUntil > now then
                EndsTakeOver(repository.Contents(), c, request, now, env, outcome)
              else outcome == OpenAiUnavailable
  {
    if Expired(s.db, c, now, env.nextId, env.clock) {
      AbandoningFrees(s.db, c, request, now, env.nextId, env.clock);
    }
    ghost var choice := ChoiceOf(env, env.newId);
    NothingYet(s, i, a);
    OneMoreStep(s, i, a, [], s, a.pc, choice);
    choices := [] + [choice];
    ghost var pc1 := Act(s, i, a, choice).1;
    s' := s;
    ghost var more: seq<Choice>;
    var persisted := repository.usage.FindReservation(c.reservationId);
    if persisted.None? {
      var abandoned := repository.Abandon(c);
      OneMoreStep(s, i, a, choices, s, pc1, choice);
      ghost var (s2, pc2) := Act(s, i, a.(pc := pc1), choice);
      choices, s' := choices + [choice], s2;
      if !abandoned {
        return OpenAiUnavailable, choices, s';
      }
      outcome, more, s' := ReserveAgain(repository, request, now, env, s2, i, a.(pc := pc2));
      LeadsOn(s, i, a, choices, s2, pc2, more, s', Stopped);
      choices := choices + more;
      return outcome, choices, s';
    }
    var r := persisted.value;
    if !SameReservation(r, c.fingerprint, request.subject, request.terms, request.reserved) || r.status.Released? {
      return OpenAiUnavailable, choices, s';
    }
    if r.status.Finalized? {
      more, s' := SettleCharged(repository, request, now, c, env, s, i, a.(pc := pc1));
      outcome := OpenAiUnavailable;
    } else if r.activeUntil <= now {
      return OpenAiUnavailable, choices, s';
    } else {
      outcome, more, s' := TakeOverAndCall(repository, request, now, c, env, s, i, a.(pc := pc1));
    }
    LeadsOn(s, i, a, choices, s, pc1, more, s', Stopped);
    choices := choices + more;
  }

  /** recoverReplayedClaim */
  method RecoverReplayed(repository: D1ManagedAiOperationClaimRepository, request: Request, now: nat, found: Found, env: Env,
                         ghost s: Shared, ghost i: nat, ghost a: Actor)
    returns (outcome: Outcome, ghost choices: seq<Choice>, ghost s': Shared)
    requires s.db == repository.Contents() && s.clock == env.clock && Fresh(s, env.nextId)
    requires a.Runner? && a.request == request && a.now == now && a.pc == OnReplay(a, found)
    modifies repository, repository.usage
    ensures Traced(repository, s, i, a, choices, s', Stopped)
    ensures outcome.Completed? ==> SomeClaimSettled(repository.Contents(), request, env, outcome.charged)
    ensures SharedSound(s) && now <= env.clock && FindLifecycle(s.db, request.key) == Some(found) ==>
              EndsReplay(s.db, repository.Contents(), request, now, env, found, outcome)
  {
    NothingYet(s, i, a);
    choices, s' := [], s;
    if SharedSound(s) { FreshIsUnreferenced(s, env.nextId); }
    match found.row {
      case ProviderStarted(_, lease, _) =>
        if lease < now {
          choices, s' := RecoverStarted(repository, request, ClaimOf(request.key, found), env, s, i, a);
        }
        outcome := OpenAiUnavailable;
      case Reserved(_, lease) =>
        if lease >= now {
          return OpenAiUnavailable, choices, s';
        }
        outcome, choices, s' := RecoverReserved(repository, request, now, ClaimOf(request.key, found), env, s, i, a);
      case _ => outcome := OpenAiUnavailable;
    }
  }

  /** How an operation ends, by what reserveClaim answered over `t`. */
  ghost predicate EndsAs(s: Shared, t': Tables, request: Request, now: nat, env: Env, result: ReserveClaimResult, outcome: Outcome) {
    match result
    case FreshClaim(c) =>
      Claimed(s.db, c, request, env.clock) && c.key == request.key && c.createdAt == now
      && s.db.lifecycle[c.key].leaseExpiresAt == now + CLAIM_LEASE_SECONDS ==>
        EndsNewClaim(s.db.usage, t', request, now, env, outcome)
    case Replayed(found) =>
      SharedSound(s) && now <= env.clock && FindLifecycle(s.db, request.key) == Some(found) ==>
        EndsReplay(s.db, t', request, now, env, found, outcome)
    case Conflict => outcome == IdempotencyConflict && t' == s.db
    case _ => outcome == OpenAiUnavailable && t' == s.db
  }

  /** What follows reserveClaim. */
  method Proceed(repository: D1ManagedAiOperationClaimRepository, request: Request, now: nat, result: ReserveClaimResult, env: Env,
                 ghost s: Shared, ghost i: nat, ghost a: Actor)
    returns (outcome: Outcome, ghost choices: seq<Choice>, ghost s': Shared)
    requires s.db == repository.Contents() && s.clock == env.clock && (result.Replayed? ==> Fresh(s, env.nextId))
    requires a.Runner? && a.request == request && a.now == now
    requires OnResult(a, false, result, a.pc) && !result.UnexpectedRowCount?
    requires result.FreshClaim? ==> result.claim.key == request.key
    modifies repository, repository.usage
    ensures Traced(repository, s, i, a, choices, s', Stopped)
    ensures outcome.Completed? ==> SomeClaimSettled(repository.Contents(), request, env, outcome.charged)
    ensures EndsAs(s, repository.Contents(), request, now, env, result, outcome)
  {
    NothingYet(s, i, a);
    choices, s' := [], s;
    match result {
      case FreshClaim(c) => outcome, choices, s' := ExecuteReserved(repository, request, c, env, s, i, a);
      case Replayed(found) => outcome, choices, s' := RecoverReplayed(repository, request, now, found, env, s, i, a);
      case Conflict => outcome := IdempotencyConflict;
      case _ => outcome := OpenAiUnavailable;
    }
  }

  lemma PromiseKept(s: Shared, s1: Shared, t': Tables, request: Request, now: nat, env: Env,
                    result: ReserveClaimResult, outcome: Outcome)
    requires Fresh(s, env.newId) && env.clock == s.clock
    requires (result, s1.db) == ReserveNow(s, Runner(request, now, Looking(false)), env.newId)
    requires !result.FreshClaim? ==> s1 == s
    requires EndsAs(s1, t', request, now, env, result, outcome)
    ensures SharedSound(s) && now <= env.clock ==> Promised(s.db, t', request, now, env, outcome)
  {
    if SharedSound(s) && now <= env.clock {
      ReserveDecides(s, request, now, env.newId);
      match result {
        case FreshClaim(_) => NewClaimIsPromised(s.db, t', request, now, env, outcome);
        case Replayed(found) => ReplayIsPromised(s, t', request, now, env, found, outcome);
        case _ => ConflictIsPromised(s.db, request, now, env);
      }
    }
  }

  /** runJudgeManagedStructuredAiOperation after its reconciliation. Uninterrupted, it is a
    * sequence of steps of one runner; if it returns the provider's result, the claim of this
    * request is settled and charged with what was billed, or with everything; and from every
    * reachable state its answer and what it leaves are those the tables promise. */
  method RunOperation(repository: D1ManagedAiOperationClaimRepository, request: Request, now: nat, env: Env,
                      ghost s: Shared, ghost i: nat)
    returns (outcome: Outcome, ghost choices: seq<Choice>, ghost s': Shared)
    requires s.db == repository.Contents() && s.clock == env.clock
    requires Fresh(s, env.newId) && Fresh(s, env.nextId) && env.newId != env.nextId
    modifies repository, repository.usage
    ensures Traced(repository, s, i, Runner(request, now, Looking(false)), choices, s', Stopped)
    ensures outcome.Completed? ==> SomeClaimSettled(repository.Contents(), request, env, outcome.charged)
    ensures SharedSound(s) && now <= env.clock ==> Promised(s.db, repository.Contents(), request, now, env, outcome)
  {
    ghost var a := Runner(request, now, Looking(false));
    var result: ReserveClaimResult;
    ghost var s1: Shared, pc: Pc;
    result, choices, s1, pc := ReserveNew(repository, request, now, env.newId, false, env, s, i, a);
    ghost var more: seq<Choice>;
    outcome, more, s' := Proceed(repository, request, now, result, env, s1, i, a.(pc := pc));
    LeadsOn(s, i, a, choices, s1, pc, more, s', Stopped);
    choices := choices + more;
    PromiseKept(s, s1, repository.Contents(), request, now, env, result, outcome);
  }

  // ----- The pass over one row is a few steps -----

  /** The reconciler's row loop, uninterrupted, is what the atomic steps of its row do. */
  lemma RowIsSteps(s: Shared, i: nat, row: StaleRow, now: nat, choice: Choice)
    returns (choices: seq<Choice>, s': Shared)
    requires Lists(s.db, row, now)
    ensures Leads(s, i, Reconciler(now, RowFinding(row)), choices, s', Stopped)
    ensures s'.db == ReconcileRow(s.db, row, now).1
  {
    var a := Reconciler(now, RowFinding(row));
    var (s1, pc1) := Act(s, i, a, choice);
    ActOnce(s, i, a, choice);
    choices, s' := [choice], s1;
    if pc1.RowFinalizing? {
      var (s2, pc2) := Act(s1, i, Reconciler(now, pc1), choice);
      OneMoreStep(s, i, a, [choice], s1, pc1, choice);
      choices, s' := [choice] + [choice], s2;
      if pc2.Settling? {
        OneMoreStep(s, i, a, choices, s2, pc2, choice);
        choices, s' := choices + [choice], Act(s2, i, Reconciler(now, pc2), choice).0;
      }
    } else if !pc1.Stopped? {
      OneMoreStep(s, i, a, [choice], s1, pc1, choice);
      choices, s' := [choice] + [choice], Act(s1, i, Reconciler(now, pc1), choice).0;
    }
  }

  // ----- Every such sequence is a schedule -----

  /** The steps of one actor are moves of the whole system: what RunOperation does belongs to
    * a run, and everything proved about runs holds of it. */
  lemma {:induction false} MovesAreSteps(w0: World, schedule: seq<Action>, i: nat, choices: seq<Choice>)
    returns (longer: seq<Action>)
    requires Initial(w0) && i in Run(w0, schedule).actors
    ensures var w := Run(w0, schedule);
            var (s', pc) := ActAll(w.shared, i, w.actors[i], choices);
            Run(w0, longer) == World(s', w.actors[i := w.actors[i].(pc := pc)])
    ensures WorldSound(Run(w0, longer))
    decreases |choices|
  {
    var w := Run(w0, schedule);
    if choices == [] {
      longer := schedule;
      assert w.actors[i := w.actors[i].(pc := w.actors[i].pc)] == w.actors;
      EveryRunIsSound(w0, schedule);
    } else {
      var next := schedule + [Move(i, choices[0])];
      assert next[..|schedule|] == schedule;
      longer := MovesAreSteps(w0, next, i, choices[1..]);
      var w1 := Run(w0, next);
      assert w1.actors[i] == w.actors[i].(pc := Act(w.shared, i, w.actors[i], choices[0]).1);
    }
  }
}
