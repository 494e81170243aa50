/** startManagedCall: acquire a start claim, a reservation, an ownership row and a provider
  * call, and undo on every other exit whatever was acquired, while other requests go on. */
module StartSaga {
  import opened Basics
  import opened UsageLedger
  import opened UsageLimiter
  import opened RealtimeUsage
  import opened ManagedRealtimeCalls
  import RealtimeCall
  import RealtimeCallTheorems

  datatype Request = Request(
    startKey: Id, fingerprint: Id, managedCallId: Id, owner: Id, subject: Subject,
    createdAt: nat, reservationId: Id, reservationFingerprint: Id, terms: Id)

  // What happens to a remote call: it takes effect and answers, only throws, or takes
  // effect and throws.
  datatype Fault = Works | LostBefore | LostAfter

  // What a start request that was not answered with a call has done to the controller of
  // this reservation: the state it stored, and whether it then terminated that call itself.
  datatype Effect = Effect(stored: RealtimeCall.Stored, ends: bool, hangsUp: bool, at: nat)

  // What the call controller answers to /start. A limit refusal comes before the
  // lifecycle is asked for anything.
  datatype StartReply =
    | Started(responseParses: bool, callId: Id, sideband: UsageState)
    | LimitRefused
    | NotStarted(effect: Effect)
    | StartThrew(effect: Effect)

  // What other requests do before each step of this one; `usage` and `claim` are undo steps.
  datatype Others = Others(
    reserve: seq<Call>, create: seq<Call>, start: seq<Call>,
    controller: seq<Call>, ownership: seq<Call>, usage: seq<Call>, claim: seq<Call>)

  // Everything the outside world decides. `later` is the clock read in the catch block,
  // None where it cannot be parsed; `hangsUp` says whether the provider ends a live call.
  datatype Plan = Plan(
    claim: Fault, reserve: Fault, reserveAt: nat, otherLimits: bool, create: Fault,
    digestWorks: bool, start: StartReply, later: Option<nat>,
    undoController: Fault, hangsUp: bool, undoOwnership: Fault, undoUsage: Fault, undoAt: nat, undoClaim: Fault,
    others: Others)

  datatype Undo = TerminateController | TerminateOwnership | ReleaseUsage | ReleaseClaim

  datatype World = World(tables: Tables, controller: RealtimeCall.Stored, undone: seq<Undo>)

  datatype Response = CallCreated | AlreadyClaimed | KeyReused | LimitReached | Unavailable | StartRefused

  function ClaimFor(q: Request): StartClaim {
    StartClaim(q.startKey, q.fingerprint, q.managedCallId, q.owner, q.createdAt, q.createdAt + RESERVATION_TTL_SECONDS)
  }

  function OwnershipFor(q: Request): Ownership {
    Ownership(q.managedCallId, q.reservationId, q.owner, q.subject.holder, q.createdAt, q.createdAt + RESERVATION_TTL_SECONDS)
  }

  /** Tables after a call that may be lost. */
  function Lossy(before: Tables, after: Tables, fault: Fault): Tables {
    if fault.LostBefore? then before else after
  }

  /** Other requests run while this one waits. */
  ghost function Elapse(w: World, others: seq<Call>): World {
    w.(tables := ManagedRealtimeCalls.Replay(w.tables, others).0)
  }

  // ----- Undoing -----

  /** A termination, by the lifecycle's own code, of whatever the controller holds. */
  ghost function Ended(w: World, hangsUp: bool, at: nat): World {
    var (_, stored, usage) := RealtimeCall.Terminated(w.controller, w.tables.usage, hangsUp, at);
    w.(controller := stored, tables := w.tables.(usage := usage))
  }

  ghost function StopController(w0: World, q: Request, p: Plan): World {
    var w := Elapse(w0, p.others.controller);
    var tried := w.(undone := w.undone + [TerminateController]);
    if p.undoController.LostBefore? then tried else Ended(tried, p.hangsUp, p.undoAt)
  }

  ghost function StopOwnership(w0: World, q: Request, p: Plan, at: nat): World {
    var w := Elapse(w0, p.others.ownership);
    w.(undone := w.undone + [TerminateOwnership],
       tables := Lossy(w.tables, TerminateOwned(w.tables, q.managedCallId, q.owner, at).1, p.undoOwnership))
  }

  ghost function GiveBackUsage(w0: World, q: Request, p: Plan): World {
    var w := Elapse(w0, p.others.usage);
    var usage := Release(w.tables.usage, q.reservationId, p.undoAt).1;
    w.(undone := w.undone + [ReleaseUsage], tables := Lossy(w.tables, w.tables.(usage := usage), p.undoUsage))
  }

  ghost function GiveBackClaim(w0: World, q: Request, p: Plan): World {
    var w := Elapse(w0, p.others.claim);
    w.(undone := w.undone + [ReleaseClaim],
       tables := Lossy(w.tables, ReleaseStart(w.tables, ClaimFor(q)).1, p.undoClaim))
  }

  /** cleanupStart */
  ghost function Cleanup(w: World, q: Request, p: Plan, withController: bool, at: nat): World {
    GiveBackUsage(StopOwnership(if withController then StopController(w, q, p) else w, q, p, at), q, p)
  }

  function Later(p: Plan): nat {
    if p.later.Some? then p.later.value else 0
  }

  // ----- Acquiring -----

  ghost function Reach(w: World, effect: Effect): World {
    var reached := w.(controller := effect.stored);
    if effect.ends then Ended(reached, effect.hangsUp, effect.at) else reached
  }

  /** Once the start request has been answered, or has failed. */
  ghost function Answered(w: World, q: Request, p: Plan): World {
    match p.start
    case Started(_, callId, sideband) => w.(controller := RealtimeCall.Active(callId, q.reservationId, sideband))
    case LimitRefused => w
    case NotStarted(effect) => Reach(w, effect)
    case StartThrew(effect) => Reach(w, effect)
  }

  ghost function StartStage(w: World, q: Request, p: Plan): (Response, World) {
    if !p.digestWorks then (Unavailable, GiveBackClaim(Cleanup(w, q, p, false, Later(p)), q, p))
    else
      var next := Answered(w, q, p);
      if p.start.Started? && p.start.responseParses then (CallCreated, next)
      else if p.start.LimitRefused? || p.start.NotStarted? then
        (StartRefused, GiveBackClaim(Cleanup(next, q, p, p.start.NotStarted?, q.createdAt), q, p))
      else (Unavailable, GiveBackClaim(Cleanup(next, q, p, true, Later(p)), q, p))
  }

  ghost function CreateStage(w: World, q: Request, p: Plan): (Response, World) {
    var (created, tables) := Create(w.tables, OwnershipFor(q));
    var next := w.(tables := Lossy(w.tables, tables, p.create));
    if !p.create.Works? then
      (Unavailable, GiveBackClaim(GiveBackUsage(StopOwnership(next, q, p, Later(p)), q, p), q, p))
    else if !created then (Unavailable, GiveBackClaim(GiveBackUsage(next, q, p), q, p))
    else StartStage(Elapse(next, p.others.start), q, p)
  }

  ghost function ReserveFor(w: World, q: Request, p: Plan): (ReserveOutcome, Ledger) {
    ReserveWithId(w.tables.usage, q.reservationId, q.reservationFingerprint, q.subject, q.terms, RESERVED,
                  p.reserveAt, RESERVATION_TTL_SECONDS, p.otherLimits)
  }

  ghost function ReserveStage(w: World, q: Request, p: Plan): (Response, World) {
    var (outcome, usage) := ReserveFor(w, q, p);
    var next := w.(tables := Lossy(w.tables, w.tables.(usage := usage), p.reserve));
    if !p.reserve.Works? || outcome.Failed? then (Unavailable, GiveBackClaim(next, q, p))
    else if outcome.Denied? then (LimitReached, GiveBackClaim(next, q, p))
    else CreateStage(Elapse(next, p.others.create), q, p)
  }

  ghost function StartManagedCall(w: World, q: Request, p: Plan): (Response, World) {
    var (claimed, tables) := ClaimStart(w.tables, ClaimFor(q));
    var next := w.(tables := Lossy(w.tables, tables, p.claim));
    if !p.claim.Works? then (Unavailable, next)
    else match claimed
      case Replayed => (AlreadyClaimed, next)
      case InConflict => (KeyReused, next)
      case ClaimRejected => (Unavailable, next)
      case Claimed => ReserveStage(Elapse(next, p.others.reserve), q, p)
  }

  // ----- What is left behind -----

  predicate HoldsClaim(t: Tables, q: Request) {
    q.startKey in t.claims && t.claims[q.startKey].managedCallId == q.managedCallId
  }

  predicate HoldsUsage(t: Tables, q: Request) {
    q.reservationId in t.usage && t.usage[q.reservationId].status.Held?
  }

  predicate LostUsage(t: Tables, q: Request) {
    q.reservationId in t.usage && t.usage[q.reservationId].status.Released?
  }

  predicate HoldsCall(t: Tables, q: Request) {
    CallIsActive(t.calls, q.managedCallId)
  }

  /** The ids of this request are new, and so is the controller named by its reservation. */
  predicate Fresh(w: World, q: Request) {
    && !HoldsClaim(w.tables, q) && q.managedCallId !in w.tables.calls && q.reservationId !in w.tables.usage
    && w.controller.Empty? && w.undone == []
  }

  // ----- Other requests -----

  /** Other requests have ids of their own; they may well use the same start key. */
  predicate Foreign(call: Call, q: Request) {
    match call
    case ClaimCall(c) => c.managedCallId != q.managedCallId
    case ReleaseCall(c) => c.managedCallId != q.managedCallId
    case CreateCall(o) => o.managedCallId != q.managedCallId && o.reservationId != q.reservationId
    case TerminateCall(id, _, _) => id != q.managedCallId
    case UsageCall(op, _) => op.id != q.reservationId
  }

  predicate AllForeign(calls: seq<Call>, q: Request) {
    forall i | 0 <= i < |calls| :: Foreign(calls[i], q)
  }

  /** The effect of a start request concerns the reservation it names. */
  predicate About(effect: Effect, q: Request) {
    effect.stored.Empty? || (!effect.stored.SettledCall? && effect.stored.reservationId == q.reservationId)
  }

  /** Nobody else uses this request's own ids. */
  predicate Genuine(q: Request, p: Plan) {
    && AllForeign(p.others.reserve, q) && AllForeign(p.others.create, q) && AllForeign(p.others.start, q)
    && AllForeign(p.others.controller, q) && AllForeign(p.others.ownership, q)
    && AllForeign(p.others.usage, q) && AllForeign(p.others.claim, q)
    && (p.start.NotStarted? || p.start.StartThrew? ==> About(p.start.effect, q))
  }

  /** No other claim of the key is made so late that this request's claim has expired. */
  predicate BeforeExpiry(calls: seq<Call>, q: Request) {
    forall i | 0 <= i < |calls| && calls[i].ClaimCall? && calls[i].claim.startKey == q.startKey ::
      calls[i].claim.createdAt <= ClaimFor(q).expiresAt
  }

  predicate InTime(q: Request, p: Plan) {
    && BeforeExpiry(p.others.reserve, q) && BeforeExpiry(p.others.create, q) && BeforeExpiry(p.others.start, q)
    && BeforeExpiry(p.others.controller, q) && BeforeExpiry(p.others.ownership, q)
    && BeforeExpiry(p.others.usage, q) && BeforeExpiry(p.others.claim, q)
  }

  predicate SameCall(t: Tables, t': Tables, q: Request) {
    && (q.managedCallId in t.calls <==> q.managedCallId in t'.calls)
    && (q.managedCallId in t.calls ==> t'.calls[q.managedCallId] == t.calls[q.managedCallId])
    && (ReservationOwned(t.calls, q.reservationId) <==> ReservationOwned(t'.calls, q.reservationId))
  }

  predicate SameUsage(t: Tables, t': Tables, q: Request) {
    && (q.reservationId in t.usage <==> q.reservationId in t'.usage)
    && (q.reservationId in t.usage ==> t'.usage[q.reservationId] == t.usage[q.reservationId])
  }

  /** This request's claim can be overtaken, but nobody else writes one for it. */
  predicate ClaimKept(t: Tables, t': Tables, q: Request) {
    HoldsClaim(t', q) ==> HoldsClaim(t, q) && t'.claims[q.startKey] == t.claims[q.startKey]
  }

  predicate OwnClaim(t: Tables, q: Request) {
    HoldsClaim(t, q) ==> t.claims[q.startKey] == ClaimFor(q)
  }

  lemma ForeignCall(t: Tables, call: Call, q: Request)
    requires Foreign(call, q)
    ensures var t' := After(t, call); SameCall(t, t', q) && SameUsage(t, t', q) && ClaimKept(t, t', q)
  {
    var t' := After(t, call);
    match call {
      case CreateCall(o) =>
        if t' != t && ReservationOwned(t.calls, q.reservationId) {
          var id :| id in t.calls && t.calls[id].reservationId == q.reservationId;
          assert t'.calls[id] == t.calls[id];
        }
      case TerminateCall(id, owner, at) =>
        assert forall other | other in t.calls :: other in t'.calls && t'.calls[other].reservationId == t.calls[other].reservationId;
      case _ =>
    }
  }

  lemma {:induction false} OthersLeaveMine(t: Tables, calls: seq<Call>, q: Request)
    requires AllForeign(calls, q)
    ensures var t' := ManagedRealtimeCalls.Replay(t, calls).0;
            SameCall(t, t', q) && SameUsage(t, t', q) && ClaimKept(t, t', q)
    decreases |calls|
  {
    if calls != [] {
      OthersLeaveMine(t, calls[..|calls|-1], q);
      ForeignCall(ManagedRealtimeCalls.Replay(t, calls[..|calls|-1]).0, calls[|calls|-1], q);
    }
  }

  /** A claim that has not expired is not overtaken. */
  lemma {:induction false} OthersLeaveClaim(t: Tables, calls: seq<Call>, q: Request)
    requires AllForeign(calls, q) && BeforeExpiry(calls, q)
    requires HoldsClaim(t, q) && OwnClaim(t, q)
    ensures HoldsClaim(ManagedRealtimeCalls.Replay(t, calls).0, q)
    decreases |calls|
  {
    if calls != [] {
      OthersLeaveClaim(t, calls[..|calls|-1], q);
      OthersLeaveMine(t, calls[..|calls|-1], q);
      var last := calls[|calls|-1];
      assert Foreign(last, q);
    }
  }

  // ----- How far a run gets -----

  ghost function AtReserve(w: World, q: Request, p: Plan): World {
    Elapse(w.(tables := ClaimStart(w.tables, ClaimFor(q)).1), p.others.reserve)
  }

  ghost function AtCreate(w: World, q: Request, p: Plan): World {
    var x := AtReserve(w, q, p);
    Elapse(x.(tables := x.tables.(usage := ReserveFor(x, q, p).1)), p.others.create)
  }

  ghost function AtStart(w: World, q: Request, p: Plan): World {
    var x := AtCreate(w, q, p);
    Elapse(x.(tables := Create(x.tables, OwnershipFor(q)).1), p.others.start)
  }

  predicate ClaimCommits(w: World, q: Request) {
    ClaimStart(w.tables, ClaimFor(q)).0.Claimed?
  }

  ghost predicate ReserveCommits(w: World, q: Request, p: Plan) {
    ReserveFor(AtReserve(w, q, p), q, p).0.Allowed?
  }

  /** The row demands a reservation of exactly the request's second that no other row has. */
  predicate RowCommits(w: World, q: Request, p: Plan) {
    p.reserveAt == q.createdAt && !ReservationOwned(w.tables.calls, q.reservationId)
  }

  /** The claim and the reservation are acquired, and their answers arrive. */
  ghost predicate Reserves(w: World, q: Request, p: Plan) {
    p.claim.Works? && ClaimCommits(w, q) && p.reserve.Works? && ReserveCommits(w, q, p)
  }

  ghost predicate CreatesRow(w: World, q: Request, p: Plan) {
    Reserves(w, q, p) && !p.create.LostBefore? && RowCommits(w, q, p)
  }

  /** The run gets as far as sending the start request. */
  ghost predicate Sends(w: World, q: Request, p: Plan) {
    CreatesRow(w, q, p) && p.create.Works? && p.digestWorks
  }

  predicate LeavesCall(start: StartReply) {
    match start
    case Started(_, _, _) => true
    case LimitRefused => false
    case NotStarted(effect) => effect.stored.Active? && !(effect.ends && effect.hangsUp)
    case StartThrew(effect) => effect.stored.Active? && !(effect.ends && effect.hangsUp)
  }

  /** The exit of a refused start terminates at the request's own epoch. */
  ghost predicate RefusedExit(w: World, q: Request, p: Plan) {
    Sends(w, q, p) && (p.start.LimitRefused? || p.start.NotStarted?)
  }

  ghost function UndoAt(w: World, q: Request, p: Plan): nat {
    if RefusedExit(w, q, p) then q.createdAt else Later(p)
  }

  predicate Bound(s: RealtimeCall.Stored, q: Request) {
    s.Empty? || s.SettledCall? || s.reservationId == q.reservationId
  }

  predicate Reserved(t: Tables, q: Request, p: Plan) {
    && q.reservationId in t.usage
    && var r := t.usage[q.reservationId];
    && r.status.Held? && r.subject == q.subject && r.estimated == RESERVED
    && r.reservedAt == p.reserveAt && r.activeUntil == p.reserveAt + RESERVATION_TTL_SECONDS
  }

  /** Perhaps no longer held, but the reservation this run made. */
  predicate OwnUsage(t: Tables, q: Request, p: Plan) {
    q.reservationId in t.usage && t.usage[q.reservationId].reservedAt == p.reserveAt
  }

  predicate OwnRow(t: Tables, q: Request) {
    q.managedCallId in t.calls ==>
      && t.calls[q.managedCallId].owner == q.owner && t.calls[q.managedCallId].createdAt == q.createdAt
      && t.calls[q.managedCallId].terminatedAt.None?
  }

  lemma UsageAcquired(w: World, q: Request, p: Plan)
    requires Fresh(w, q) && Genuine(q, p) && ClaimCommits(w, q) && ReserveCommits(w, q, p)
    ensures var x := AtCreate(w, q, p);
            && Reserved(x.tables, q, p) && q.managedCallId !in x.tables.calls && OwnClaim(x.tables, q)
            && (InTime(q, p) ==> HoldsClaim(x.tables, q)) && x.controller.Empty? && x.undone == []
            && (ReservationOwned(x.tables.calls, q.reservationId) <==> ReservationOwned(w.tables.calls, q.reservationId))
  {
    var claimed := ClaimStart(w.tables, ClaimFor(q)).1;
    OthersLeaveMine(claimed, p.others.reserve, q);
    var x := AtReserve(w, q, p);
    var reserved := x.tables.(usage := ReserveFor(x, q, p).1);
    OthersLeaveMine(reserved, p.others.create, q);
    if InTime(q, p) {
      OthersLeaveClaim(claimed, p.others.reserve, q);
      OthersLeaveClaim(reserved, p.others.create, q);
    }
  }

  lemma RowAcquired(w: World, q: Request, p: Plan)
    requires Fresh(w, q) && Genuine(q, p) && ClaimCommits(w, q) && ReserveCommits(w, q, p)
    ensures Create(AtCreate(w, q, p).tables, OwnershipFor(q)).0 <==> RowCommits(w, q, p)
    ensures var x := AtStart(w, q, p);
            && Reserved(x.tables, q, p) && OwnRow(x.tables, q) && OwnClaim(x.tables, q)
            && (q.managedCallId in x.tables.calls <==> RowCommits(w, q, p))
            && (InTime(q, p) ==> HoldsClaim(x.tables, q)) && x.controller.Empty? && x.undone == []
  {
    UsageAcquired(w, q, p);
    var created := Create(AtCreate(w, q, p).tables, OwnershipFor(q)).1;
    OthersLeaveMine(created, p.others.start, q);
    if InTime(q, p) { OthersLeaveClaim(created, p.others.start, q); }
  }

  // ----- What each undo leaves -----

  predicate UsageAged(t: Tables, t': Tables, q: Request) {
    q.reservationId in t.usage ==>
      && q.reservationId in t'.usage
      && t'.usage[q.reservationId] == t.usage[q.reservationId].(status := t'.usage[q.reservationId].status)
      && (t.usage[q.reservationId].status.Held? || t'.usage[q.reservationId] == t.usage[q.reservationId])
  }

  lemma EndedLeaves(w: World, q: Request, hangsUp: bool, at: nat)
    requires Bound(w.controller, q)
    ensures var w' := Ended(w, hangsUp, at);
            && w' == w.(controller := w'.controller, tables := w.tables.(usage := w'.tables.usage))
            && UsageAged(w.tables, w'.tables, q) && Bound(w'.controller, q)
            && (w'.controller.Active? <==> w.controller.Active? && !hangsUp)
            && (w'.controller.Active? ==> w' == w)
  {
  }

  lemma ControllerStopped(w: World, q: Request, p: Plan)
    requires Genuine(q, p) && Bound(w.controller, q)
    ensures var w' := StopController(w, q, p);
            && SameCall(w.tables, w'.tables, q) && ClaimKept(w.tables, w'.tables, q) && UsageAged(w.tables, w'.tables, q)
            && (w'.controller.Active? <==> w.controller.Active? && (p.undoController.LostBefore? || !p.hangsUp))
            && (w'.controller.Active? ==> SameUsage(w.tables, w'.tables, q))
            && w'.undone == w.undone + [TerminateController]
  {
    OthersLeaveMine(w.tables, p.others.controller, q);
    var x := Elapse(w, p.others.controller);
    EndedLeaves(x.(undone := x.undone + [TerminateController]), q, p.hangsUp, p.undoAt);
  }

  lemma OwnershipStopped(w: World, q: Request, p: Plan, at: nat)
    requires Genuine(q, p) && OwnRow(w.tables, q)
    ensures var w' := StopOwnership(w, q, p, at);
            && SameUsage(w.tables, w'.tables, q) && ClaimKept(w.tables, w'.tables, q) && w'.controller == w.controller
            && (HoldsCall(w'.tables, q) <==> HoldsCall(w.tables, q) && (p.undoOwnership.LostBefore? || at < q.createdAt))
            && w'.undone == w.undone + [TerminateOwnership]
  {
    OthersLeaveMine(w.tables, p.others.ownership, q);
  }

  lemma UsageGivenBack(w: World, q: Request, p: Plan)
    requires Genuine(q, p) && OwnUsage(w.tables, q, p)
    ensures var w' := GiveBackUsage(w, q, p);
            var given := !p.undoUsage.LostBefore? && p.undoAt >= p.reserveAt;
            && SameCall(w.tables, w'.tables, q) && ClaimKept(w.tables, w'.tables, q) && w'.controller == w.controller
            && UsageAged(w.tables, w'.tables, q)
            && (HoldsUsage(w'.tables, q) <==> HoldsUsage(w.tables, q) && !given)
            && (LostUsage(w'.tables, q) <==> LostUsage(w.tables, q) || (HoldsUsage(w.tables, q) && given))
            && w'.undone == w.undone + [ReleaseUsage]
  {
    OthersLeaveMine(w.tables, p.others.usage, q);
  }

  lemma ClaimGivenBack(w: World, q: Request, p: Plan)
    requires Genuine(q, p) && OwnClaim(w.tables, q)
    ensures var w' := GiveBackClaim(w, q, p);
            && SameCall(w.tables, w'.tables, q) && SameUsage(w.tables, w'.tables, q) && w'.controller == w.controller
            && (HoldsClaim(w'.tables, q) ==> HoldsClaim(w.tables, q) && (p.undoClaim.LostBefore? || HoldsCall(w'.tables, q)))
            && (BeforeExpiry(p.others.claim, q) && HoldsClaim(w.tables, q) ==>
                  (HoldsClaim(w'.tables, q) <==> p.undoClaim.LostBefore? || HoldsCall(w'.tables, q)))
            && w'.undone == w.undone + [ReleaseClaim]
  {
    OthersLeaveMine(w.tables, p.others.claim, q);
    if BeforeExpiry(p.others.claim, q) && HoldsClaim(w.tables, q) { OthersLeaveClaim(w.tables, p.others.claim, q); }
  }

  // ----- Every exit after the reservation -----

  ghost function Unwound(w: World, q: Request, p: Plan, withController: bool, withRow: bool, at: nat): World
    requires withController ==> withRow
  {
    GiveBackClaim(if withRow then Cleanup(w, q, p, withController, at) else GiveBackUsage(w, q, p), q, p)
  }

  /** What is left when everything has been tried. */
  lemma UnwoundLeaves(w: World, q: Request, p: Plan, withController: bool, withRow: bool, at: nat)
    requires withController ==> withRow
    requires Genuine(q, p) && Bound(w.controller, q) && OwnRow(w.tables, q) && OwnClaim(w.tables, q) && OwnUsage(w.tables, q, p)
    ensures var w' := Unwound(w, q, p, withController, withRow, at);
            var given := !p.undoUsage.LostBefore? && p.undoAt >= p.reserveAt;
            && (w'.controller.Active? <==> w.controller.Active? && !(withController && !p.undoController.LostBefore? && p.hangsUp))
            && (HoldsCall(w'.tables, q) <==>
                  HoldsCall(w.tables, q) && !(withRow && !p.undoOwnership.LostBefore? && at >= q.createdAt))
            && (HoldsUsage(w'.tables, q) ==> !given)
            && (w'.controller.Active? && HoldsUsage(w.tables, q) ==> (LostUsage(w'.tables, q) <==> given))
            && (HoldsClaim(w'.tables, q) ==> p.undoClaim.LostBefore? || HoldsCall(w'.tables, q))
  {
    var w1 := if withController then StopController(w, q, p) else w;
    if withController { ControllerStopped(w, q, p); }
    var w2 := if withRow then StopOwnership(w1, q, p, at) else w1;
    if withRow { OwnershipStopped(w1, q, p, at); }
    UsageGivenBack(w2, q, p);
    ClaimGivenBack(GiveBackUsage(w2, q, p), q, p);
  }

  /** A claim that is not overtaken outlives the undo calls exactly with the row. */
  lemma UnwoundClaim(w: World, q: Request, p: Plan, withController: bool, withRow: bool, at: nat)
    requires withController ==> withRow
    requires Genuine(q, p) && InTime(q, p) && Bound(w.controller, q) && OwnRow(w.tables, q)
    requires OwnClaim(w.tables, q) && HoldsClaim(w.tables, q) && OwnUsage(w.tables, q, p)
    ensures var w' := Unwound(w, q, p, withController, withRow, at);
            HoldsClaim(w'.tables, q) <==> p.undoClaim.LostBefore? || HoldsCall(w'.tables, q)
  {
    OthersLeaveClaim(w.tables, p.others.controller, q);
    var w1 := if withController then StopController(w, q, p) else w;
    if withController { ControllerStopped(w, q, p); }
    OthersLeaveClaim(w1.tables, p.others.ownership, q);
    var w2 := if withRow then StopOwnership(w1, q, p, at) else w1;
    if withRow { OwnershipStopped(w1, q, p, at); }
    OthersLeaveClaim(w2.tables, p.others.usage, q);
    UsageGivenBack(w2, q, p);
    ClaimGivenBack(GiveBackUsage(w2, q, p), q, p);
  }

  ghost predicate StopsController(w: World, q: Request, p: Plan) {
    Sends(w, q, p) && !p.start.LimitRefused?
  }

  ghost predicate StopsOwnership(w: World, q: Request, p: Plan) {
    Reserves(w, q, p) && (!p.create.Works? || RowCommits(w, q, p))
  }

  /** Where the undo calls of a failed run begin. */
  ghost function Unfinished(w: World, q: Request, p: Plan): World {
    var c := AtCreate(w, q, p);
    if Sends(w, q, p) then Answered(AtStart(w, q, p), q, p)
    else if p.create.Works? && RowCommits(w, q, p) then AtStart(w, q, p)
    else c.(tables := Lossy(c.tables, Create(c.tables, OwnershipFor(q)).1, p.create))
  }

  lemma EveryExit(w: World, q: Request, p: Plan)
    requires Fresh(w, q) && Genuine(q, p) && Reserves(w, q, p)
    ensures var (r, w') := StartManagedCall(w, q, p);
            if Sends(w, q, p) && p.start.Started? && p.start.responseParses then r.CallCreated? && w' == Unfinished(w, q, p)
            else
              && !r.CallCreated?
              && w' == Unwound(Unfinished(w, q, p), q, p, StopsController(w, q, p), StopsOwnership(w, q, p), UndoAt(w, q, p))
  {
    RowAcquired(w, q, p);
    assert StartManagedCall(w, q, p) == CreateStage(AtCreate(w, q, p), q, p);
    if p.create.Works? && RowCommits(w, q, p) {
      assert CreateStage(AtCreate(w, q, p), q, p) == StartStage(AtStart(w, q, p), q, p);
    }
  }

  lemma AnsweredLeaves(w: World, q: Request, p: Plan)
    requires Genuine(q, p) && w.controller.Empty? && HoldsUsage(w.tables, q)
    ensures var x := Answered(w, q, p);
            && x == w.(controller := x.controller, tables := w.tables.(usage := x.tables.usage))
            && UsageAged(w.tables, x.tables, q) && Bound(x.controller, q)
            && (x.controller.Active? <==> LeavesCall(p.start))
            && (x.controller.Active? ==> HoldsUsage(x.tables, q))
  {
    if p.start.NotStarted? || p.start.StartThrew? {
      EndedLeaves(w.(controller := p.start.effect.stored), q, p.start.effect.hangsUp, p.start.effect.at);
    }
  }

  lemma UnfinishedHolds(w: World, q: Request, p: Plan)
    requires Fresh(w, q) && Genuine(q, p) && Reserves(w, q, p)
    ensures var x := Unfinished(w, q, p);
            && Bound(x.controller, q) && OwnRow(x.tables, q) && OwnClaim(x.tables, q) && OwnUsage(x.tables, q, p)
            && x.undone == [] && (HoldsCall(x.tables, q) <==> CreatesRow(w, q, p))
            && (x.controller.Active? <==> Sends(w, q, p) && LeavesCall(p.start))
            && (x.controller.Active? ==> HoldsUsage(x.tables, q))
            && (InTime(q, p) ==> HoldsClaim(x.tables, q))
  {
    UsageAcquired(w, q, p);
    RowAcquired(w, q, p);
    if Sends(w, q, p) { AnsweredLeaves(AtStart(w, q, p), q, p); }
  }

  /** A run that ends before its reservation is answered for undoes at most its claim. */
  lemma EarlyExit(w: World, q: Request, p: Plan)
    requires Fresh(w, q) && Genuine(q, p) && !Reserves(w, q, p)
    ensures var (r, w') := StartManagedCall(w, q, p);
            && !r.CallCreated? && w'.controller.Empty? && !HoldsCall(w'.tables, q) && !LostUsage(w'.tables, q)
            && (HoldsUsage(w'.tables, q) <==>
                  p.claim.Works? && ClaimCommits(w, q) && p.reserve.LostAfter? && ReserveCommits(w, q, p))
            && w'.undone == (if p.claim.Works? && ClaimCommits(w, q) then [ReleaseClaim] else [])
            && (HoldsClaim(w'.tables, q) ==> ClaimCommits(w, q) && (p.claim.LostAfter? || (p.claim.Works? && p.undoClaim.LostBefore?)))
            && (InTime(q, p) && ClaimCommits(w, q) && (p.claim.LostAfter? || (p.claim.Works? && p.undoClaim.LostBefore?)) ==>
                  HoldsClaim(w'.tables, q))
  {
    if p.claim.Works? && ClaimCommits(w, q) {
      var claimed := ClaimStart(w.tables, ClaimFor(q)).1;
      OthersLeaveMine(claimed, p.others.reserve, q);
      if InTime(q, p) { OthersLeaveClaim(claimed, p.others.reserve, q); }
      var x := AtReserve(w, q, p);
      var (outcome, usage) := ReserveFor(x, q, p);
      ClaimGivenBack(x.(tables := Lossy(x.tables, x.tables.(usage := usage), p.reserve)), q, p);
    }
  }

  // ----- What a run guarantees -----

  /** A run answers 201 if and only if every step works. The row step demands that handler
    * and limiter read the same clock second, however short the time between them. */
  lemma CreatedIff(w: World, q: Request, p: Plan)
    requires Fresh(w, q) && Genuine(q, p)
    ensures var (r, w') := StartManagedCall(w, q, p);
            && (r.CallCreated? <==> Sends(w, q, p) && p.start.Started? && p.start.responseParses)
            && (r.CallCreated? ==>
                  && p.reserveAt == q.createdAt && w'.controller.Active? && w'.undone == []
                  && HoldsUsage(w'.tables, q) && HoldsCall(w'.tables, q) && (InTime(q, p) ==> HoldsClaim(w'.tables, q)))
  {
    if Reserves(w, q, p) {
      EveryExit(w, q, p);
      UnfinishedHolds(w, q, p);
    } else {
      EarlyExit(w, q, p);
    }
  }

  /** Exactly when a run answers that the start was claimed before, that its key belongs to
    * another request, that the usage limit is reached, or that the controller refused. */
  lemma RefusalsIff(w: World, q: Request, p: Plan)
    requires Fresh(w, q) && Genuine(q, p)
    ensures var (r, _) := StartManagedCall(w, q, p);
            var held := q.startKey in w.tables.claims && w.tables.claims[q.startKey].expiresAt >= q.createdAt;
            var same := held && w.tables.claims[q.startKey].owner == q.owner
                        && w.tables.claims[q.startKey].fingerprint == q.fingerprint;
            && (ClaimCommits(w, q) <==> !held)
            && (r.AlreadyClaimed? <==> p.claim.Works? && same)
            && (r.KeyReused? <==> p.claim.Works? && held && !same)
            && (r.LimitReached? <==> p.claim.Works? && !held && p.reserve.Works? && ReserveFor(AtReserve(w, q, p), q, p).0.Denied?)
            && (r.StartRefused? <==> RefusedExit(w, q, p))
  {
    ClaimDecides(w.tables, ClaimFor(q));
    if Reserves(w, q, p) {
      EveryExit(w, q, p);
      RowAcquired(w, q, p);
      assert StartManagedCall(w, q, p) == CreateStage(AtCreate(w, q, p), q, p);
    }
  }

  /** What the limiter admits for a new reservation: the request's other limits and the cost of
    * 24 hours allow it, no counted row is newer, and no held row has its fingerprint. */
  lemma ReserveCommitsIff(w: World, q: Request, p: Plan)
    requires Fresh(w, q) && Genuine(q, p) && ClaimCommits(w, q)
    ensures var rows := AtReserve(w, q, p).tables.usage;
            ReserveCommits(w, q, p) <==>
              && p.otherLimits && RollingCost(rows, p.reserveAt) + 12_000_000 <= 25_000_000
              && (forall id | id in rows && !rows[id].status.Released? :: rows[id].reservedAt <= p.reserveAt)
              && (forall id | id in rows && rows[id].status.Held? :: rows[id].fingerprint != q.reservationFingerprint)
  {
    OthersLeaveMine(ClaimStart(w.tables, ClaimFor(q)).1, p.others.reserve, q);
  }

  const UNDO_ORDER: seq<Undo> := [TerminateController, TerminateOwnership, ReleaseUsage, ReleaseClaim]

  lemma OrderFrom(k: nat)
    requires k <= 4
    ensures |UNDO_ORDER[k..]| == 4 - k
    ensures TerminateController in UNDO_ORDER[k..] <==> k == 0
    ensures TerminateOwnership in UNDO_ORDER[k..] <==> k <= 1
    ensures ReleaseUsage in UNDO_ORDER[k..] <==> k <= 2
    ensures ReleaseClaim in UNDO_ORDER[k..] <==> k <= 3
  {
    assert UNDO_ORDER[0] == TerminateController && UNDO_ORDER[1] == TerminateOwnership;
    assert UNDO_ORDER[2] == ReleaseUsage && UNDO_ORDER[3] == ReleaseClaim;
  }

  /** Whatever fails, every exit but 201 tries to undo all it may have acquired, in the
    * reverse order of acquisition: the controller as soon as a start request was sent and
    * not refused by the limit, the row, the reservation, and the claim last. */
  lemma SagaAttemptsEveryUndo(w: World, q: Request, p: Plan)
    requires Fresh(w, q) && Genuine(q, p)
    ensures var (r, w') := StartManagedCall(w, q, p);
            !r.CallCreated? ==>
              && |w'.undone| <= 4 && w'.undone == UNDO_ORDER[4 - |w'.undone|..]
              && (TerminateController in w'.undone <==> Sends(w, q, p) && !p.start.LimitRefused?)
              && (TerminateOwnership in w'.undone <==> Reserves(w, q, p) && (!p.create.Works? || RowCommits(w, q, p)))
              && (ReleaseUsage in w'.undone <==> Reserves(w, q, p))
              && (ReleaseClaim in w'.undone <==> p.claim.Works? && ClaimCommits(w, q))
  {
    if Reserves(w, q, p) {
      EveryExit(w, q, p);
      UnfinishedHolds(w, q, p);
      UnwoundUndoes(Unfinished(w, q, p), q, p, StopsController(w, q, p), StopsOwnership(w, q, p), UndoAt(w, q, p));
      OrderFrom(if StopsController(w, q, p) then 0 else if StopsOwnership(w, q, p) then 1 else 2);
    } else {
      EarlyExit(w, q, p);
      OrderFrom(3);
      OrderFrom(4);
      assert UNDO_ORDER[3..] == [ReleaseClaim] && UNDO_ORDER[4..] == [];
    }
  }

  lemma UnwoundUndoes(w: World, q: Request, p: Plan, withController: bool, withRow: bool, at: nat)
    requires (withController ==> withRow) && w.undone == []
    ensures Unwound(w, q, p, withController, withRow, at).undone
            == UNDO_ORDER[if withController then 0 else if withRow then 1 else 2..]
  {
    var undone := Unwound(w, q, p, withController, withRow, at).undone;
    assert undone == (if withController then [TerminateController] else []) + (if withRow then [TerminateOwnership] else [])
                     + [ReleaseUsage] + [ReleaseClaim];
  }

  /** Exactly when a failed run leaves its row active: the row was created, and its
    * termination is lost or carries an epoch before the creation, as epoch 0 for a clock
    * that cannot be read. */
  lemma RowSurvivesIff(w: World, q: Request, p: Plan)
    requires Fresh(w, q) && Genuine(q, p)
    ensures var (r, w') := StartManagedCall(w, q, p);
            !r.CallCreated? ==>
              (HoldsCall(w'.tables, q) <==>
                 CreatesRow(w, q, p)
                 && (p.undoOwnership.LostBefore? || (!RefusedExit(w, q, p) && Later(p) < q.createdAt)))
  {
    if Reserves(w, q, p) {
      EveryExit(w, q, p);
      UnfinishedHolds(w, q, p);
      UnwoundLeaves(Unfinished(w, q, p), q, p, StopsController(w, q, p), StopsOwnership(w, q, p), UndoAt(w, q, p));
    } else {
      EarlyExit(w, q, p);
    }
  }

  /** Why the order matters: a failed run leaves its claim only if the claim or its release
    * was lost, or the row is still active; and in those cases it does leave it, unless the
    * claim expired meanwhile and another request of the key took over. */
  lemma ClaimSurvivesIff(w: World, q: Request, p: Plan)
    requires Fresh(w, q) && Genuine(q, p)
    ensures var (r, w') := StartManagedCall(w, q, p);
            var kept := ClaimCommits(w, q)
                        && (p.claim.LostAfter? || (p.claim.Works? && (p.undoClaim.LostBefore? || HoldsCall(w'.tables, q))));
            !r.CallCreated? ==>
              && (HoldsClaim(w'.tables, q) ==> kept)
              && (InTime(q, p) && kept ==> HoldsClaim(w'.tables, q))
  {
    if Reserves(w, q, p) {
      EveryExit(w, q, p);
      UnfinishedHolds(w, q, p);
      UnwoundLeaves(Unfinished(w, q, p), q, p, StopsController(w, q, p), StopsOwnership(w, q, p), UndoAt(w, q, p));
      if InTime(q, p) {
        UnwoundClaim(Unfinished(w, q, p), q, p, StopsController(w, q, p), StopsOwnership(w, q, p), UndoAt(w, q, p));
      }
    } else {
      EarlyExit(w, q, p);
    }
  }

  /** Every undo call takes effect, at clock readings no earlier than what they undo. */
  predicate UndoesWork(q: Request, p: Plan) {
    && !p.undoController.LostBefore? && p.hangsUp && !p.undoOwnership.LostBefore?
    && !p.undoUsage.LostBefore? && !p.undoClaim.LostBefore?
    && p.later.Some? && p.later.value >= q.createdAt && p.undoAt >= p.reserveAt
  }

  /** Compensation: when the undo calls work, a run without a 201 leaves no live call and no
    * active row, its claim only where the claim committed without an answer, and its
    * reservation held exactly where the reservation did. */
  lemma SagaCompensates(w: World, q: Request, p: Plan)
    requires Fresh(w, q) && Genuine(q, p) && UndoesWork(q, p)
    ensures var (r, w') := StartManagedCall(w, q, p);
            !r.CallCreated? ==>
              && !HoldsCall(w'.tables, q) && !w'.controller.Active?
              && (HoldsClaim(w'.tables, q) ==> p.claim.LostAfter? && ClaimCommits(w, q))
              && (InTime(q, p) && p.claim.LostAfter? && ClaimCommits(w, q) ==> HoldsClaim(w'.tables, q))
              && (HoldsUsage(w'.tables, q) <==>
                    p.claim.Works? && ClaimCommits(w, q) && p.reserve.LostAfter? && ReserveCommits(w, q, p))
  {
    RowSurvivesIff(w, q, p);
    ClaimSurvivesIff(w, q, p);
    if Reserves(w, q, p) {
      EveryExit(w, q, p);
      UnfinishedHolds(w, q, p);
      UnwoundLeaves(Unfinished(w, q, p), q, p, StopsController(w, q, p), StopsOwnership(w, q, p), UndoAt(w, q, p));
    } else {
      EarlyExit(w, q, p);
    }
  }

  /** Exactly when a failed run gives the reservation back from under a call that stays
    * live: the termination does not reach the controller or the provider, the release does
    * reach the limiter. From then on no termination settles that call. */
  lemma ReservationLostIff(w: World, q: Request, p: Plan)
    requires Fresh(w, q) && Genuine(q, p)
    ensures var (r, w') := StartManagedCall(w, q, p);
            var lost := w'.controller.Active? && LostUsage(w'.tables, q);
            !r.CallCreated? ==>
              && (lost <==> Sends(w, q, p) && LeavesCall(p.start) && (p.undoController.LostBefore? || !p.hangsUp)
                            && !p.undoUsage.LostBefore? && p.undoAt >= p.reserveAt)
              && (lost ==> forall hangsUp, at :: !Ended(w', hangsUp, at).controller.SettledCall?)
  {
    if Reserves(w, q, p) {
      EveryExit(w, q, p);
      UnfinishedHolds(w, q, p);
      UnwoundLeaves(Unfinished(w, q, p), q, p, StopsController(w, q, p), StopsOwnership(w, q, p), UndoAt(w, q, p));
    } else {
      EarlyExit(w, q, p);
    }
  }

  // ----- When the cleanup settles the call -----

  /** Other requests have read the clock by now. */
  predicate ReadBy(calls: seq<Call>, now: nat) {
    forall i | 0 <= i < |calls| && calls[i].UsageCall? :: calls[i].now <= now
  }

  lemma {:induction false} OthersKeepBudget(t: Tables, calls: seq<Call>, now: nat)
    requires UsageLedger.Sound(t.usage, now) && ReadBy(calls, now)
    ensures UsageLedger.Sound(ManagedRealtimeCalls.Replay(t, calls).0.usage, now)
    decreases |calls|
  {
    if calls != [] {
      OthersKeepBudget(t, calls[..|calls|-1], now);
      var last := calls[|calls|-1];
      if last.UsageCall? {
        ApplyKeepsBudget(ManagedRealtimeCalls.Replay(t, calls[..|calls|-1]).0.usage, last.op, last.now, now);
      }
    }
  }

  /** The call that the start reply leaves active, with what it has used. */
  function LeftActive(q: Request, start: StartReply): RealtimeCall.Stored
    requires LeavesCall(start)
  {
    match start
    case Started(_, callId, sideband) => RealtimeCall.Active(callId, q.reservationId, sideband)
    case NotStarted(effect) => effect.stored
    case StartThrew(effect) => effect.stored
  }

  /** Every ledger epoch of the run and of the others, up to the termination, is read by then. */
  predicate ReadBeforeStop(p: Plan) {
    && p.reserveAt <= p.undoAt && ReadBy(p.others.reserve, p.undoAt) && ReadBy(p.others.create, p.undoAt)
    && ReadBy(p.others.start, p.undoAt) && ReadBy(p.others.controller, p.undoAt)
  }

  lemma BudgetKept(w: World, q: Request, p: Plan)
    requires UsageLedger.Sound(w.tables.usage, p.undoAt) && ReadBeforeStop(p)
    ensures UsageLedger.Sound(AtStart(w, q, p).tables.usage, p.undoAt)
  {
    OthersKeepBudget(ClaimStart(w.tables, ClaimFor(q)).1, p.others.reserve, p.undoAt);
    var x := AtReserve(w, q, p);
    ReserveKeepsBudget(x.tables.usage, q.reservationId, q.reservationFingerprint, q.subject, q.terms, RESERVED,
                       p.reserveAt, RESERVATION_TTL_SECONDS, p.otherLimits, p.undoAt);
    OthersKeepBudget(x.tables.(usage := ReserveFor(x, q, p).1), p.others.create, p.undoAt);
    OthersKeepBudget(Create(AtCreate(w, q, p).tables, OwnershipFor(q)).1, p.others.start, p.undoAt);
  }

  /** The cleanup meets the call that the start left, over its reservation. */
  lemma LiveWhenStopped(w: World, q: Request, p: Plan)
    requires Fresh(w, q) && Genuine(q, p) && Sends(w, q, p) && LeavesCall(p.start)
    ensures var x := Elapse(Unfinished(w, q, p), p.others.controller);
            && x.controller == LeftActive(q, p.start) && x.controller.Active? && x.controller.reservationId == q.reservationId
            && x.tables == ManagedRealtimeCalls.Replay(AtStart(w, q, p).tables, p.others.controller).0
            && Reserved(x.tables, q, p)
  {
    RowAcquired(w, q, p);
    OthersLeaveMine(AtStart(w, q, p).tables, p.others.controller, q);
    assert Unfinished(w, q, p).tables == AtStart(w, q, p).tables;
  }

  ghost predicate SettledFor(w: World, q: Request, used: UsageState) {
    && w.controller.SettledCall? && q.reservationId in w.tables.usage
    && w.tables.usage[q.reservationId].status.Finalized?
    && ChargeFor(used) == Some(w.tables.usage[q.reservationId].status.actual)
  }

  lemma StopSettles(w: World, q: Request, p: Plan)
    requires Fresh(w, q) && Genuine(q, p) && Sends(w, q, p) && LeavesCall(p.start)
    requires !p.undoController.LostBefore? && p.hangsUp
    requires UsageLedger.Sound(w.tables.usage, p.undoAt) && ReadBeforeStop(p)
    requires Accurate(LeftActive(q, p.start).sideband)
    ensures var w1 := StopController(Unfinished(w, q, p), q, p);
            var used := LeftActive(q, p.start).sideband;
            if Chargeable(used) then SettledFor(w1, q, used)
            else w1.controller == RealtimeCall.HangupConfirmed(true, q.reservationId, used) && HoldsUsage(w1.tables, q)
  {
    LiveWhenStopped(w, q, p);
    BudgetKept(w, q, p);
    OthersKeepBudget(AtStart(w, q, p).tables, p.others.controller, p.undoAt);
    var live := Elapse(Unfinished(w, q, p), p.others.controller);
    RealtimeCallTheorems.TerminatedSettlesIff(live.controller, live.tables.usage, p.undoAt);
  }

  lemma UndoesAfterStop(w: World, q: Request, p: Plan, at: nat)
    requires Genuine(q, p) && OwnUsage(w.tables, q, p) && OwnRow(w.tables, q) && OwnClaim(w.tables, q)
    ensures var w' := GiveBackClaim(GiveBackUsage(StopOwnership(w, q, p, at), q, p), q, p);
            var given := !p.undoUsage.LostBefore? && p.undoAt >= p.reserveAt;
            && w'.controller == w.controller && UsageAged(w.tables, w'.tables, q)
            && (HoldsUsage(w.tables, q) && given ==> LostUsage(w'.tables, q))
  {
    var w2 := StopOwnership(w, q, p, at);
    OwnershipStopped(w, q, p, at);
    UsageGivenBack(w2, q, p);
    ClaimGivenBack(GiveBackUsage(w2, q, p), q, p);
  }

  /** A cleanup that reaches the controller and the provider settles the call it stops, with
    * the usage it had, if and only if that usage can be charged; otherwise the call stays
    * hung up and unpaid, and the release that follows takes its reservation away. */
  lemma CleanupSettlesIff(w: World, q: Request, p: Plan)
    requires Fresh(w, q) && Genuine(q, p) && Sends(w, q, p) && LeavesCall(p.start)
    requires !p.undoController.LostBefore? && p.hangsUp
    requires UsageLedger.Sound(w.tables.usage, p.undoAt) && ReadBeforeStop(p)
    requires Accurate(LeftActive(q, p.start).sideband)
    ensures var (r, w') := StartManagedCall(w, q, p);
            var used := LeftActive(q, p.start).sideband;
            !r.CallCreated? ==>
              if Chargeable(used) then SettledFor(w', q, used)
              else w'.controller == RealtimeCall.HangupConfirmed(true, q.reservationId, used)
                   && (!p.undoUsage.LostBefore? ==> LostUsage(w'.tables, q))
  {
    EveryExit(w, q, p);
    UnfinishedHolds(w, q, p);
    ControllerStopped(Unfinished(w, q, p), q, p);
    StopSettles(w, q, p);
    UndoesAfterStop(StopController(Unfinished(w, q, p), q, p), q, p, UndoAt(w, q, p));
  }

  // ----- Two runs from nothing -----

  const NOTHING := World(Tables(map[], map[], map[]), RealtimeCall.Empty, [])
  const REQUEST := Request(0, 0, 0, 0, Subject(0, 0), 5, 0, 0, 0)
  const NOBODY := Others([], [], [], [], [], [], [])

  // The call starts, its answer cannot be parsed, and the termination is lost.
  const UNREACHABLE := Plan(
    Works, Works, 5, true, Works, true, Started(false, 7, NO_USAGE), Some(6),
    LostBefore, true, Works, Works, 6, Works, NOBODY)

  // The row is created without an answer, and the clock cannot be read afterwards.
  const CLOCKLESS := Plan(
    Works, Works, 5, true, LostAfter, true, LimitRefused, None,
    Works, true, Works, Works, 6, Works, NOBODY)

  lemma ReservedFromNothing(p: Plan)
    requires p == UNREACHABLE || p == CLOCKLESS
    ensures Fresh(NOTHING, REQUEST) && Genuine(REQUEST, p) && CreatesRow(NOTHING, REQUEST, p)
  {
    var x := AtReserve(NOTHING, REQUEST, p);
    assert x.tables == Tables(map[0 := ClaimFor(REQUEST)], map[], map[]);
    assert RollingCost(x.tables.usage, p.reserveAt) == 0;
  }

  lemma RunsFromNothing()
    ensures var (r, w') := StartManagedCall(NOTHING, REQUEST, UNREACHABLE);
            !r.CallCreated? && w'.controller.Active? && LostUsage(w'.tables, REQUEST)
    ensures var (r, w') := StartManagedCall(NOTHING, REQUEST, CLOCKLESS);
            !r.CallCreated? && HoldsCall(w'.tables, REQUEST) && HoldsClaim(w'.tables, REQUEST)
  {
    ReservedFromNothing(UNREACHABLE);
    CreatedIff(NOTHING, REQUEST, UNREACHABLE);
    ReservationLostIff(NOTHING, REQUEST, UNREACHABLE);
    ReservedFromNothing(CLOCKLESS);
    CreatedIff(NOTHING, REQUEST, CLOCKLESS);
    RowSurvivesIff(NOTHING, REQUEST, CLOCKLESS);
    ClaimSurvivesIff(NOTHING, REQUEST, CLOCKLESS);
  }

  // ----- The handler itself -----

  /** One call of another request, on the same repositories. */
  method Serve(repository: D1ManagedRealtimeCallOwnershipRepository, call: Call)
    modifies repository, repository.usage
    ensures repository.Contents() == After(old(repository.Contents()), call)
  {
    match call {
      case ClaimCall(claim) =>
        var _ := repository.TryClaim(claim);
      case ReleaseCall(claim) =>
        var _ := repository.Release(claim);
      case CreateCall(ownership) =>
        var _ := repository.Insert(ownership);
      case TerminateCall(managedCallId, owner, at) =>
        var _ := repository.Terminate(managedCallId, owner, at);
      case UsageCall(op, now) =>
        Spend(repository.usage, op, now);
    }
  }

  method Spend(limiter: D1UsageLimiter, op: Op, now: nat)
    modifies limiter
    ensures limiter.rows == Apply(old(limiter.rows), op, now)
  {
    match op {
      case ReserveOp(id, fingerprint, subject, terms, usage, ttl, otherLimits) =>
        var _ := limiter.ReserveNamed(id, fingerprint, subject, terms, usage, now, ttl, otherLimits);
      case FinalizeOp(id, actual) =>
        var _ := limiter.FinalizeActual(id, actual, now);
      case FinalizeFullOp(id) =>
        var _ := limiter.FinalizeFullReservation(id, now);
      case ReleaseOp(id) =>
        var _ := limiter.ReleaseReservation(id, now);
      case ReconcilerReleaseOp(id) =>
        if id in limiter.rows && limiter.rows[id].status.Held? {
          limiter.rows := ReleaseAt(limiter.rows, id, now);
        }
    }
  }

  class JudgeManagedRealtimeStart {
    const calls: D1ManagedRealtimeCallOwnershipRepository
    const storage: RealtimeCall.JudgeRealtimeCallStorage
    var undone: seq<Undo>

    ghost function Contents(): World
      reads this, calls, calls.usage, storage
    {
      World(calls.Contents(), storage.state, undone)
    }

    constructor (repository: D1ManagedRealtimeCallOwnershipRepository, callStorage: RealtimeCall.JudgeRealtimeCallStorage)
      ensures calls == repository && storage == callStorage && undone == []
    {
      calls, storage, undone := repository, callStorage, [];
    }

    /** An await: others are served. */
    method Await(others: seq<Call>)
      modifies calls, calls.usage
      ensures Contents() == Elapse(old(Contents()), others)
    {
      for i := 0 to |others|
        invariant calls.Contents() == ManagedRealtimeCalls.Replay(old(calls.Contents()), others[..i]).0
      {
        Serve(calls, others[i]);
        assert others[..i+1][..i] == others[..i];
      }
      assert others[..|others|] == others;
    }

    method Terminate(hangsUp: bool, at: nat)
      modifies storage, calls.usage
      ensures Contents() == Ended(old(Contents()), hangsUp, at)
    {
      var lifecycle := new RealtimeCall.JudgeRealtimeCallLifecycle(storage, calls.usage);
      var _ := lifecycle.Terminate(hangsUp, at);
    }

    method UndoController(q: Request, p: Plan)
      modifies this, calls, calls.usage, storage
      ensures Contents() == StopController(old(Contents()), q, p)
    {
      Await(p.others.controller);
      undone := undone + [TerminateController];
      if !p.undoController.LostBefore? {
        Terminate(p.hangsUp, p.undoAt);
      }
    }

    method UndoOwnership(q: Request, p: Plan, at: nat)
      modifies this, calls, calls.usage
      ensures Contents() == StopOwnership(old(Contents()), q, p, at)
    {
      Await(p.others.ownership);
      undone := undone + [TerminateOwnership];
      if !p.undoOwnership.LostBefore? {
        var _ := calls.Terminate(q.managedCallId, q.owner, at);
      }
    }

    method UndoUsage(q: Request, p: Plan)
      modifies this, calls, calls.usage
      ensures Contents() == GiveBackUsage(old(Contents()), q, p)
    {
      Await(p.others.usage);
      undone := undone + [ReleaseUsage];
      if !p.undoUsage.LostBefore? {
        var _ := calls.usage.ReleaseReservation(q.reservationId, p.undoAt);
      }
    }

    method UndoClaim(q: Request, p: Plan)
      modifies this, calls, calls.usage
      ensures Contents() == GiveBackClaim(old(Contents()), q, p)
    {
      Await(p.others.claim);
      undone := undone + [ReleaseClaim];
      if !p.undoClaim.LostBefore? {
        var _ := calls.Release(ClaimFor(q));
      }
    }

    method CleanUp(q: Request, p: Plan, withController: bool, at: nat)
      modifies this, calls, calls.usage, storage
      ensures Contents() == Cleanup(old(Contents()), q, p, withController, at)
    {
      if withController {
        UndoController(q, p);
      }
      UndoOwnership(q, p, at);
      UndoUsage(q, p);
    }

    /** What the controller does with the start request. */
    method Deliver(q: Request, p: Plan)
      modifies calls.usage, storage
      ensures Contents() == Answered(old(Contents()), q, p)
    {
      match p.start {
        case Started(_, callId, sideband) =>
          storage.Put(RealtimeCall.Active(callId, q.reservationId, sideband));
        case LimitRefused =>
        case _ =>
          storage.Put(p.start.effect.stored);
          if p.start.effect.ends {
            Terminate(p.start.effect.hangsUp, p.start.effect.at);
          }
      }
    }

    /** The request to the call controller and what follows it. */
    method StartController(q: Request, p: Plan) returns (response: Response)
      modifies this, calls, calls.usage, storage
      ensures (response, Contents()) == StartStage(old(Contents()), q, p)
    {
      if !p.digestWorks {
        CleanUp(q, p, false, Later(p));
        UndoClaim(q, p);
        return Unavailable;
      }
      Deliver(q, p);
      if p.start.Started? && p.start.responseParses {
        return CallCreated;
      }
      if p.start.LimitRefused? || p.start.NotStarted? {
        CleanUp(q, p, p.start.NotStarted?, q.createdAt);
        response := StartRefused;
      } else {
        CleanUp(q, p, true, Later(p));
        response := Unavailable;
      }
      UndoClaim(q, p);
    }

    method CreateOwnership(q: Request, p: Plan) returns (response: Response)
      modifies this, calls, calls.usage, storage
      ensures (response, Contents()) == CreateStage(old(Contents()), q, p)
    {
      var created := false;
      if !p.create.LostBefore? {
        created := calls.Insert(OwnershipFor(q));
      }
      if !p.create.Works? {
        UndoOwnership(q, p, Later(p));
        UndoUsage(q, p);
        UndoClaim(q, p);
        return Unavailable;
      }
      if !created {
        UndoUsage(q, p);
        UndoClaim(q, p);
        return Unavailable;
      }
      Await(p.others.start);
      response := StartController(q, p);
    }

    method Start(q: Request, p: Plan) returns (response: Response)
      modifies this, calls, calls.usage, storage
      ensures (response, Contents()) == StartManagedCall(old(Contents()), q, p)
    {
      var claimed := ClaimRejected;
      if !p.claim.LostBefore? {
        claimed := calls.TryClaim(ClaimFor(q));
      }
      if !p.claim.Works? {
        return Unavailable;
      }
      if !claimed.Claimed? {
        return if claimed.Replayed? then AlreadyClaimed else if claimed.InConflict? then KeyReused else Unavailable;
      }
      Await(p.others.reserve);
      response := ReserveAndCreate(q, p);
    }

    method ReserveAndCreate(q: Request, p: Plan) returns (response: Response)
      modifies this, calls, calls.usage, storage
      ensures (response, Contents()) == ReserveStage(old(Contents()), q, p)
    {
      var outcome := Failed;
      if !p.reserve.LostBefore? {
        outcome := calls.usage.ReserveNamed(q.reservationId, q.reservationFingerprint, q.subject, q.terms, RESERVED,
                                            p.reserveAt, RESERVATION_TTL_SECONDS, p.otherLimits);
      }
      if !p.reserve.Works? || outcome.Failed? {
        UndoClaim(q, p);
        return Unavailable;
      }
      if outcome.Denied? {
        UndoClaim(q, p);
        return LimitReached;
      }
      Await(p.others.create);
      response := CreateOwnership(q, p);
    }
  }
}
