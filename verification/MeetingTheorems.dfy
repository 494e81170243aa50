/** What every sequence of coordinator requests guarantees. */
module MeetingTheorems {
  import opened Basics
  import opened MeetingCoordinator

  datatype Event =
    | TicketIssued(claims: Claims)
    | TicketConsumed(claims: Claims, now: int)
    | Revoked(sessionId: Id)
    | LeaseConfigured(sessionId: Id)

  datatype World = World(s: State, log: seq<Event>)

  datatype Action =
    | Issue(claims: Claims)
    | Consume(digest: Id, now: int)
    | PublishOne(publication: Publication)
    | Revoke(sessionId: Id)
    | Configure(meetingId: Id, lease: Lease, now: int)
    | Find(meetingId: Id, now: int)
    | Heartbeat(meetingId: Id, participantId: Id, sessionId: Id, heartbeatAt: int, now: int)
    | Clear(meetingId: Id, participantId: Id, sessionId: Id, now: int)
    | Timer(now: int)

  function Step(s: State, action: Action): (State, seq<Event>) {
    match action
    case Issue(c) =>
      var (reply, s') := IssueTicket(s, c);
      (s', if reply.Issued? then [TicketIssued(c)] else [])
    case Consume(digest, now) =>
      var (claims, s') := ConsumeTicket(s, digest, now);
      (s', if claims.Some? then [TicketConsumed(claims.value, now)] else [])
    case PublishOne(p) => (Publish(s, p).1, [])
    case Revoke(session) => (RevokeSession(s, session).1, [Revoked(session)])
    case Configure(meetingId, lease, now) =>
      var (reply, s') := ConfigureByok(s, meetingId, lease, now);
      (s', if reply.Configured? then [LeaseConfigured(lease.sessionId)] else [])
    case Find(meetingId, now) => (FindByok(s, meetingId, now).1, [])
    case Heartbeat(meetingId, p, session, at, now) => (HeartbeatByok(s, meetingId, p, session, at, now).1, [])
    case Clear(meetingId, p, session, now) => (ClearByok(s, meetingId, p, session, now).1, [])
    case Timer(now) =>
      (if s.expiryTimer.Some? && now >= s.expiryTimer.value then TimerFires(s) else s, [])
  }

  function Next(w: World, action: Action): World {
    var (s, events) := Step(w.s, action);
    World(s, w.log + events)
  }

  function Run(schedule: seq<Action>): World {
    if schedule == [] then World(EMPTY, []) else Next(Run(schedule[..|schedule|-1]), schedule[|schedule|-1])
  }

  // ----- Tickets -----

  predicate About(e: Event, digest: Id) {
    (e.TicketIssued? || e.TicketConsumed?) && e.claims.digest == digest
  }

  predicate NothingAbout(log: seq<Event>, i: nat, j: nat, digest: Id)
    requires i <= j <= |log|
  {
    forall k | i < k < j :: !About(log[k], digest)
  }

  predicate IssuedAt(log: seq<Event>, i: nat, j: nat, c: Claims)
    requires i < j <= |log|
  {
    log[i] == TicketIssued(c) && NothingAbout(log, i, j, c.digest)
  }

  /** A stored ticket is the last thing that was said about its digest. */
  ghost predicate TicketsSound(w: World) {
    && (forall d | d in w.s.tickets ::
          w.s.tickets[d].digest == d && w.s.tickets[d].sessionId !in w.s.revoked
          && w.s.meetingId == Some(w.s.tickets[d].meetingId)
          && exists i | 0 <= i < |w.log| :: IssuedAt(w.log, i, |w.log|, w.s.tickets[d]))
    && (forall session :: session in w.s.revoked <==> Revoked(session) in w.log)
  }

  /** A consumed ticket is not expired, not revoked, and is the last one issued. */
  predicate ConsumptionSound(log: seq<Event>, j: nat)
    requires j < |log|
  {
    log[j].TicketConsumed? ==>
      && log[j].now < log[j].claims.expiresAt
      && Revoked(log[j].claims.sessionId) !in log[..j]
      && exists i | 0 <= i < j :: IssuedAt(log, i, j, log[j].claims)
  }

  predicate ConsumptionsSound(log: seq<Event>) {
    forall j | 0 <= j < |log| :: ConsumptionSound(log, j)
  }

  lemma IssuedStays(log: seq<Event>, events: seq<Event>, i: nat, c: Claims)
    requires i < |log| && IssuedAt(log, i, |log|, c)
    requires forall e | e in events :: !About(e, c.digest)
    ensures IssuedAt(log + events, i, |log + events|, c)
  {
    var log' := log + events;
    forall k | i < k < |log'|
      ensures !About(log'[k], c.digest)
    {
      if k >= |log| { assert log'[k] in events; }
    }
  }

  lemma OldConsumptions(log: seq<Event>, e: Event)
    requires ConsumptionsSound(log) && ConsumptionSound(log + [e], |log|)
    ensures ConsumptionsSound(log + [e])
  {
    var log' := log + [e];
    forall j | 0 <= j < |log'|
      ensures ConsumptionSound(log', j)
    {
      if j < |log| && log[j].TicketConsumed? {
        assert ConsumptionSound(log, j);
        assert log'[..j] == log[..j];
        var i :| 0 <= i < j && IssuedAt(log, i, j, log[j].claims);
        assert IssuedAt(log', i, j, log[j].claims);
      }
    }
  }

  /** Tickets that stay are unaffected by events about other digests. */
  lemma StoredTicketsStay(w: World, s': State, events: seq<Event>)
    requires TicketsSound(w)
    requires forall d | d in s'.tickets :: d in w.s.tickets && s'.tickets[d] == w.s.tickets[d]
    requires forall d, e | d in s'.tickets && e in events :: !About(e, d)
    requires forall d | d in s'.tickets :: s'.tickets[d].sessionId !in s'.revoked
    requires w.s.meetingId.Some? ==> s'.meetingId == w.s.meetingId
    requires forall session :: session in s'.revoked <==> Revoked(session) in w.log + events
    ensures TicketsSound(World(s', w.log + events))
  {
    forall d | d in s'.tickets
      ensures exists i | 0 <= i < |w.log + events| :: IssuedAt(w.log + events, i, |w.log + events|, s'.tickets[d])
    {
      var i :| 0 <= i < |w.log| && IssuedAt(w.log, i, |w.log|, w.s.tickets[d]);
      IssuedStays(w.log, events, i, w.s.tickets[d]);
    }
  }

  lemma IssueKeeps(w: World, c: Claims)
    requires TicketsSound(w) && ConsumptionsSound(w.log)
    ensures TicketsSound(Next(w, Issue(c))) && ConsumptionsSound(Next(w, Issue(c)).log)
  {
    var (reply, s') := IssueTicket(w.s, c);
    if reply.Issued? {
      var log' := w.log + [TicketIssued(c)];
      OldConsumptions(w.log, TicketIssued(c));
      StoredTicketsStay(w, s'.(tickets := w.s.tickets), [TicketIssued(c)]);
      assert IssuedAt(log', |w.log|, |log'|, c);
    } else {
      StoredTicketsStay(w, s', []);
      assert w.log + [] == w.log;
    }
  }

  lemma ConsumeKeeps(w: World, digest: Id, now: int)
    requires TicketsSound(w) && ConsumptionsSound(w.log)
    ensures TicketsSound(Next(w, Consume(digest, now))) && ConsumptionsSound(Next(w, Consume(digest, now)).log)
  {
    var (claims, s') := ConsumeTicket(w.s, digest, now);
    if claims.Some? {
      var e := TicketConsumed(claims.value, now);
      var log' := w.log + [e];
      var i :| 0 <= i < |w.log| && IssuedAt(w.log, i, |w.log|, w.s.tickets[digest]);
      assert IssuedAt(log', i, |w.log|, claims.value);
      assert log'[..|w.log|] == w.log;
      OldConsumptions(w.log, e);
      StoredTicketsStay(w, s', [e]);
    } else {
      StoredTicketsStay(w, s', []);
      assert w.log + [] == w.log;
    }
  }

  lemma RevokeKeeps(w: World, session: Id)
    requires TicketsSound(w) && ConsumptionsSound(w.log)
    ensures TicketsSound(Next(w, Revoke(session))) && ConsumptionsSound(Next(w, Revoke(session)).log)
  {
    OldConsumptions(w.log, Revoked(session));
    StoredTicketsStay(w, RevokeSession(w.s, session).1, [Revoked(session)]);
  }

  lemma ConfigureKeeps(w: World, action: Action)
    requires TicketsSound(w) && ConsumptionsSound(w.log) && action.Configure?
    ensures TicketsSound(Next(w, action)) && ConsumptionsSound(Next(w, action).log)
  {
    var (s', events) := Step(w.s, action);
    StoredTicketsStay(w, s', events);
    if events != [] { OldConsumptions(w.log, events[0]); } else { assert w.log + [] == w.log; }
  }

  lemma NextKeepsTickets(w: World, action: Action)
    requires TicketsSound(w) && ConsumptionsSound(w.log)
    ensures TicketsSound(Next(w, action)) && ConsumptionsSound(Next(w, action).log)
  {
    match action
    case Issue(c) => IssueKeeps(w, c);
    case Consume(digest, now) => ConsumeKeeps(w, digest, now);
    case Revoke(session) => RevokeKeeps(w, session);
    case Configure(_, _, _) => ConfigureKeeps(w, action);
    case _ => OthersKeepTickets(w, action);
  }

  lemma OthersKeepTickets(w: World, action: Action)
    requires TicketsSound(w) && ConsumptionsSound(w.log)
    requires action.PublishOne? || action.Find? || action.Heartbeat? || action.Clear? || action.Timer?
    ensures TicketsSound(Next(w, action)) && ConsumptionsSound(Next(w, action).log)
  {
    var s' := Step(w.s, action).0;
    assert s'.tickets == w.s.tickets && s'.revoked == w.s.revoked;
    StoredTicketsStay(w, s', []);
    assert w.log + [] == w.log;
  }

  lemma {:induction false} EveryRunKeepsTickets(schedule: seq<Action>)
    ensures TicketsSound(Run(schedule)) && ConsumptionsSound(Run(schedule).log)
    decreases |schedule|
  {
    if schedule != [] {
      EveryRunKeepsTickets(schedule[..|schedule|-1]);
      NextKeepsTickets(Run(schedule[..|schedule|-1]), schedule[|schedule|-1]);
    }
  }

  lemma ConsumedOncePerIssue(log: seq<Event>, i: nat, j: nat)
    requires ConsumptionsSound(log) && i < j < |log| && log[i].TicketConsumed? && log[j].TicketConsumed?
    requires log[i].claims.digest == log[j].claims.digest
    ensures exists k :: i < k < j && log[k] == TicketIssued(log[j].claims)
  {
    assert ConsumptionSound(log, j);
    var k :| 0 <= k < j && IssuedAt(log, k, j, log[j].claims);
    assert k != i && About(log[i], log[j].claims.digest);
  }

  /** The states of all runs. */
  ghost predicate Reachable(w: World) {
    exists schedule :: Run(schedule) == w
  }

  /** Ticket safety in every run: no stored ticket belongs to a revoked session; a consumed
    * ticket carries exactly the claims it was issued with, is not expired and its session
    * not revoked; and between two consumptions of one digest lies a new issue. */
  lemma TicketSafety(w: World)
    requires Reachable(w)
    ensures forall d | d in w.s.tickets :: w.s.tickets[d].sessionId !in w.s.revoked
    ensures ConsumptionsSound(w.log)
    ensures forall i, j | 0 <= i < j < |w.log| && w.log[i].TicketConsumed? && w.log[j].TicketConsumed?
                          && w.log[i].claims.digest == w.log[j].claims.digest ::
              exists k :: i < k < j && w.log[k] == TicketIssued(w.log[j].claims)
  {
    var schedule :| Run(schedule) == w;
    EveryRunKeepsTickets(schedule);
    var log := w.log;
    forall i, j | 0 <= i < j < |log| && log[i].TicketConsumed? && log[j].TicketConsumed?
                  && log[i].claims.digest == log[j].claims.digest
      ensures exists k :: i < k < j && log[k] == TicketIssued(log[j].claims)
    {
      ConsumedOncePerIssue(log, i, j);
    }
  }

  /** Exactly what a consumer is told: the claims of an unexpired ticket of a session that has
    * not been revoked. Either way the ticket is gone. */
  lemma ConsumeAnswers(s: State, digest: Id, now: int)
    ensures var (answer, s') := ConsumeTicket(s, digest, now);
            && (answer.Some? <==>
                  digest in s.tickets && now < s.tickets[digest].expiresAt && s.tickets[digest].sessionId !in s.revoked)
            && (answer.Some? ==> answer.value == s.tickets[digest])
            && digest !in s'.tickets && (forall d | d in s.tickets && d != digest :: d in s'.tickets && s'.tickets[d] == s.tickets[d])
  {
  }

  /** A ticket that was issued can be consumed once, with its claims, until it expires or its
    * session is revoked. */
  lemma IssuedCanBeConsumed(s: State, c: Claims, now: int)
    ensures var (reply, s') := IssueTicket(s, c);
            && (reply.Issued? <==>
                  (s.meetingId == None || s.meetingId == Some(c.meetingId)) && c.sessionId !in s.revoked && c.digest !in s.tickets)
            && (reply.IssuedBefore? <==>
                  (s.meetingId == None || s.meetingId == Some(c.meetingId)) && c.sessionId !in s.revoked
                  && c.digest in s.tickets && s.tickets[c.digest] == c)
            && (reply.Issued? || reply.IssuedBefore? ==>
                  && ConsumeTicket(s', c.digest, now).0 == (if now < c.expiresAt then Some(c) else None)
                  && ConsumeTicket(ConsumeTicket(s', c.digest, now).1, c.digest, now).0 == None)
  {
  }

  /** Revoking a session takes exactly its tickets and its lease, and counts the tickets. */
  lemma RevokeTakesItsOwn(s: State, sessionId: Id)
    ensures var (discarded, s') := RevokeSession(s, sessionId);
            var own := set d | d in s.tickets && s.tickets[d].sessionId == sessionId;
            && discarded == |own| && s'.tickets == s.tickets - own && s'.revoked == s.revoked + {sessionId}
            && s'.lease == (if s.lease.Some? && s.lease.value.sessionId == sessionId then None else s.lease)
            && s'.publications == s.publications && s'.meetingId == s.meetingId
  {
    assert OfSession(s.tickets, sessionId) == set d | d in s.tickets && s.tickets[d].sessionId == sessionId;
  }

  // ----- Publications -----

  lemma PublishKeeps(s: State, p: Publication)
    requires Ordered(s.publications)
    ensures var (reply, s') := Publish(s, p);
            && Ordered(s'.publications) && s.publications <= s'.publications
            && (reply.Published? || reply.PublishedBefore? ==>
                  1 <= reply.position <= |s'.publications| && s'.publications[reply.position - 1] == p)
  {
    IndexOfMeans(s.publications, p.id);
  }

  /** Exactly when a publication is appended, and what else it is told. */
  lemma PublishDecides(s: State, p: Publication)
    requires Ordered(s.publications)
    ensures var (reply, s') := Publish(s, p);
            && (reply.Published? <==>
                  && p.sourcePosition > 0 && (forall q | q in s.publications :: q.id != p.id && q.sourcePosition < p.sourcePosition))
            && (reply.PublishedBefore? <==> p in s.publications)
            && (reply.Published? ==> s'.publications == s.publications + [p] && reply.position == |s'.publications|)
            && (!reply.Published? ==> s' == s)
  {
    IndexOfMeans(s.publications, p.id);
    assert forall q | q in s.publications :: q.sourcePosition <= LastPosition(s.publications);
  }

  lemma OthersKeepPublications(s: State, action: Action)
    requires !action.PublishOne?
    ensures Step(s, action).0.publications == s.publications
  {
  }

  lemma StepKeepsPublications(s: State, action: Action)
    requires Ordered(s.publications)
    ensures Ordered(Step(s, action).0.publications) && s.publications <= Step(s, action).0.publications
  {
    if action.PublishOne? { PublishKeeps(s, action.publication); } else { OthersKeepPublications(s, action); }
  }

  /** The log is strictly ordered with unique ids and only ever grows at its end, so a
    * coordination position, once answered, names the same publication for ever. */
  lemma {:induction false} PublicationsAreStable(schedule: seq<Action>, n: nat)
    requires n <= |schedule|
    ensures Ordered(Run(schedule).s.publications)
    ensures Run(schedule[..n]).s.publications <= Run(schedule).s.publications
    decreases |schedule|
  {
    if n == |schedule| {
      assert schedule[..n] == schedule;
      if schedule != [] {
        PublicationsAreStable(schedule[..n-1], n - 1);
        StepKeepsPublications(Run(schedule[..n-1]).s, schedule[n-1]);
      }
    } else {
      var front := schedule[..|schedule|-1];
      PublicationsAreStable(front, n);
      assert front[..n] == schedule[..n];
      StepKeepsPublications(Run(front).s, schedule[|schedule|-1]);
    }
  }

  // ----- Resuming -----

  lemma {:induction false} VisibleGrows(a: seq<Publication>, b: seq<Publication>, audience: Option<Id>)
    requires a <= b
    ensures Visible(a, audience) <= Visible(b, audience)
    decreases |b|
  {
    if a != b {
      var front := b[..|b|-1];
      assert a <= front;
      VisibleGrows(a, front, audience);
    }
  }

  lemma {:induction false} BeyondIsSuffix(deliveries: seq<Delivery>, first: nat, position: nat)
    requires forall i | 0 <= i < |deliveries| :: deliveries[i].visiblePosition == first + i
    requires first <= position + 1 <= first + |deliveries|
    ensures Beyond(deliveries, position) == deliveries[position + 1 - first..]
    decreases |deliveries|
  {
    if deliveries != [] {
      if first > position {
        assert deliveries == [deliveries[0]] + deliveries[1..];
        AllBeyond(deliveries[1..], position);
      } else {
        BeyondIsSuffix(deliveries[1..], first + 1, position);
      }
    }
  }

  lemma {:induction false} AllBeyond(deliveries: seq<Delivery>, position: nat)
    requires forall d | d in deliveries :: d.visiblePosition > position
    ensures Beyond(deliveries, position) == deliveries
    decreases |deliveries|
  {
    if deliveries != [] { AllBeyond(deliveries[1..], position); }
  }

  // A client remembers what it received and the last visible position it was told.
  datatype Client = Client(received: seq<Delivery>, position: nat, snapshots: nat)

  function ResumeOnce(client: Client, publications: seq<Publication>, audience: Option<Id>): Client {
    var reply := Resume(publications, client.position, audience);
    Client(client.received + reply.deliveries, reply.visiblePosition,
           client.snapshots + if reply.requiresSnapshot then 1 else 0)
  }

  function LogAfter(schedule: seq<Action>, n: nat): seq<Publication>
    requires n <= |schedule|
  {
    Run(schedule[..n]).s.publications
  }

  lemma LogGrows(schedule: seq<Action>, n: nat, m: nat)
    requires n <= m <= |schedule|
    ensures LogAfter(schedule, n) <= LogAfter(schedule, m)
  {
    PublicationsAreStable(schedule[..m], n);
    assert schedule[..m][..n] == schedule[..n];
  }

  /** The client resumes after each of these numbers of actions. */
  function Resuming(schedule: seq<Action>, at: seq<nat>, audience: Option<Id>): Client
    requires forall i | 0 <= i < |at| :: at[i] <= |schedule|
  {
    if at == [] then Client([], 0, 0)
    else ResumeOnce(Resuming(schedule, at[..|at|-1], audience), LogAfter(schedule, at[|at|-1]), audience)
  }

  predicate UpToDate(client: Client, publications: seq<Publication>, audience: Option<Id>) {
    && client.received == Numbered(Visible(publications, audience))
    && client.position == |Visible(publications, audience)| && client.snapshots == 0
  }

  lemma ResumeCatchesUp(client: Client, before: seq<Publication>, after: seq<Publication>, audience: Option<Id>)
    requires UpToDate(client, before, audience) && before <= after
    ensures UpToDate(ResumeOnce(client, after, audience), after, audience)
  {
    VisibleGrows(before, after, audience);
    var old', new' := Visible(before, audience), Visible(after, audience);
    BeyondIsSuffix(Numbered(new'), 1, client.position);
    assert Numbered(new')[..|old'|] == Numbered(old');
    assert Numbered(new') == Numbered(new')[..|old'|] + Numbered(new')[|old'|..];
  }

  /** Resuming is exactly-once catch-up: whatever happens between its resumptions, a client
    * that always resumes from its last visible position has received each publication
    * visible to it once, in order, and is never told to take a snapshot. */
  lemma {:induction false} ResumeIsExactlyOnce(schedule: seq<Action>, at: seq<nat>, audience: Option<Id>)
    requires at != [] && (forall i | 0 <= i < |at| :: at[i] <= |schedule|)
    requires forall i, j | 0 <= i < j < |at| :: at[i] <= at[j]
    ensures UpToDate(Resuming(schedule, at, audience), LogAfter(schedule, at[|at|-1]), audience)
    decreases |at|
  {
    var last := at[|at|-1];
    var client := Resuming(schedule, at[..|at|-1], audience);
    if |at| == 1 {
      assert Numbered(Visible([], audience)) == [];
      ResumeCatchesUp(client, [], LogAfter(schedule, last), audience);
    } else {
      var n := at[|at|-2];
      ResumeIsExactlyOnce(schedule, at[..|at|-1], audience);
      LogGrows(schedule, n, last);
      ResumeCatchesUp(client, LogAfter(schedule, n), LogAfter(schedule, last), audience);
    }
  }

  /** What an audience may see: what is shared, and what is its own. */
  lemma {:induction false} VisibleIff(publications: seq<Publication>, audience: Option<Id>, p: Publication)
    ensures p in Visible(publications, audience) <==>
              p in publications && match p.visibility case Shared => true case OwnerPrivate(owner) => audience == Some(owner)
    decreases |publications|
  {
    if publications != [] {
      VisibleIff(publications[..|publications|-1], audience, p);
      assert publications == publications[..|publications|-1] + [publications[|publications|-1]];
    }
  }

  /** A reply delivers the visible publications after the client's position, numbered on from
    * it, says how many there are, and asks for a snapshot exactly if the client is ahead. */
  lemma ResumeDecides(publications: seq<Publication>, after: nat, audience: Option<Id>)
    ensures var visible := Visible(publications, audience);
            var reply := Resume(publications, after, audience);
            && reply.visiblePosition == |visible| && (reply.requiresSnapshot <==> after > |visible|)
            && |reply.deliveries| == (if after > |visible| then 0 else |visible| - after)
            && forall i | 0 <= i < |reply.deliveries| ::
                 var p := visible[after + i];
                 reply.deliveries[i] == Delivery(p.id, p.sourcePosition, p.rest, after + i + 1)
  {
    var visible := Visible(publications, audience);
    if after <= |visible| {
      BeyondIsSuffix(Numbered(visible), 1, after);
    } else {
      NothingBeyond(Numbered(visible), after);
    }
  }

  lemma {:induction false} NothingBeyond(deliveries: seq<Delivery>, position: nat)
    requires forall i | 0 <= i < |deliveries| :: deliveries[i].visiblePosition <= position
    ensures Beyond(deliveries, position) == []
    decreases |deliveries|
  {
    if deliveries != [] { NothingBeyond(deliveries[1..], position); }
  }

  lemma {:induction false} VisibleTwice(publications: seq<Publication>, audience: Option<Id>)
    ensures Visible(Visible(publications, audience), audience) == Visible(publications, audience)
    decreases |publications|
  {
    if publications != [] {
      var front, last := publications[..|publications|-1], publications[|publications|-1];
      VisibleTwice(front, audience);
      if VisibleTo(last, audience) {
        assert (Visible(front, audience) + [last])[..|Visible(front, audience)|] == Visible(front, audience);
      }
    }
  }

  /** What others may see has no influence on a reply: it would be the same if the log held
    * nothing but the publications visible to this audience. */
  lemma ResumeSeesOnlyVisible(publications: seq<Publication>, after: nat, audience: Option<Id>)
    ensures Resume(publications, after, audience) == Resume(Visible(publications, audience), after, audience)
  {
    VisibleTwice(publications, audience);
  }

  // ----- The lease -----

  lemma StepKeepsTimer(s: State, action: Action)
    requires TimerSound(s)
    ensures TimerSound(Step(s, action).0)
  {
  }

  lemma {:induction false} EveryRunKeepsTimer(schedule: seq<Action>)
    ensures TimerSound(Run(schedule).s)
    decreases |schedule|
  {
    if schedule != [] {
      EveryRunKeepsTimer(schedule[..|schedule|-1]);
      StepKeepsTimer(Run(schedule[..|schedule|-1]).s, schedule[|schedule|-1]);
    }
  }

  /** The owner of the lease gives it up, is revoked, or has been silent for too long. */
  predicate EndsLease(lease: Lease, action: Action) {
    || (action.Clear? && SameOwner(lease, action.participantId, action.sessionId))
    || (action.Revoke? && action.sessionId == lease.sessionId)
    || ((action.Configure? || action.Find? || action.Heartbeat? || action.Clear? || action.Timer?)
        && action.now >= Deadline(lease))
  }

  /** In every reachable state a lease ends, or passes to another owner, only when its owner
    * clears it, its owner's session is revoked, or its heartbeat plus the TTL has passed. */
  lemma LeaseIsHeld(w: World, action: Action)
    requires Reachable(w) && w.s.lease.Some? && !EndsLease(w.s.lease.value, action)
    ensures var s' := Next(w, action).s;
            s'.lease.Some? && SameOwner(s'.lease.value, w.s.lease.value.participantId, w.s.lease.value.sessionId)
  {
    var schedule :| Run(schedule) == w;
    EveryRunKeepsTimer(schedule);
  }

  /** The lease is found exactly while its heartbeat is younger than five minutes. */
  lemma FoundUntilExpiry(s: State, meetingId: Id, now: int)
    requires s.meetingId == None || s.meetingId == Some(meetingId)
    ensures FindByok(s, meetingId, now).0
            == if s.lease.Some? && now < s.lease.value.heartbeatAt + 300_000 then s.lease else None
  {
  }

  /** Configuring a key is accepted unless another owner holds an unexpired lease; the lease can
    * then be found, key and all, for five minutes from its heartbeat. */
  lemma ConfiguredIsFound(s: State, meetingId: Id, lease: Lease, now: int, later: int)
    requires s.meetingId == None || s.meetingId == Some(meetingId)
    ensures var (reply, s') := ConfigureByok(s, meetingId, lease, now);
            && (reply.Configured? <==>
                  || s.lease == None || now >= s.lease.value.heartbeatAt + 300_000
                  || (s.lease.value.participantId == lease.participantId && s.lease.value.sessionId == lease.sessionId))
            && (reply.Configured? ==>
                  FindByok(s', meetingId, later).0 == if later < lease.heartbeatAt + 300_000 then Some(lease) else None)
  {
  }

  /** A heartbeat of the owner of an unexpired lease renews it from the new heartbeat on; anybody
    * else changes nothing but drops a lease that has expired. */
  lemma HeartbeatRenews(s: State, meetingId: Id, participantId: Id, sessionId: Id, heartbeatAt: int, now: int, later: int)
    requires s.meetingId == None || s.meetingId == Some(meetingId)
    ensures var (reply, s') := HeartbeatByok(s, meetingId, participantId, sessionId, heartbeatAt, now);
            var held := s.lease.Some? && now < s.lease.value.heartbeatAt + 300_000;
            && (reply.Applied? <==> held && s.lease.value.participantId == participantId && s.lease.value.sessionId == sessionId)
            && (reply.Applied? ==>
                  FindByok(s', meetingId, later).0
                  == if later < heartbeatAt + 300_000 then Some(s.lease.value.(heartbeatAt := heartbeatAt)) else None)
            && (!reply.Applied? ==> s'.lease == if held then s.lease else None)
  {
  }

  /** The owner of an unexpired lease can give it up at once. */
  lemma ClearedIsGone(s: State, meetingId: Id, participantId: Id, sessionId: Id, now: int, later: int)
    requires s.meetingId == None || s.meetingId == Some(meetingId)
    ensures var (reply, s') := ClearByok(s, meetingId, participantId, sessionId, now);
            var held := s.lease.Some? && now < s.lease.value.heartbeatAt + 300_000;
            && (reply.Applied? <==> held && s.lease.value.participantId == participantId && s.lease.value.sessionId == sessionId)
            && (reply.Applied? ==> FindByok(s', meetingId, later).0 == None)
            && (!reply.Applied? ==> s'.lease == if held then s.lease else None)
  {
  }

  predicate ConfiguredSinceRevocation(w: World) {
    w.s.lease.Some? ==>
      exists i | 0 <= i < |w.log| :: w.log[i] == LeaseConfigured(w.s.lease.value.sessionId)
        && Revoked(w.s.lease.value.sessionId) !in w.log[i..]
  }

  lemma StillConfigured(w: World, s': State, events: seq<Event>)
    requires ConfiguredSinceRevocation(w) && w.s.lease.Some? && s'.lease.Some?
    requires s'.lease.value.sessionId == w.s.lease.value.sessionId && Revoked(s'.lease.value.sessionId) !in events
    ensures ConfiguredSinceRevocation(World(s', w.log + events))
  {
    var session := s'.lease.value.sessionId;
    var i :| 0 <= i < |w.log| && w.log[i] == LeaseConfigured(session) && Revoked(session) !in w.log[i..];
    assert (w.log + events)[i..] == w.log[i..] + events;
    assert (w.log + events)[i] == LeaseConfigured(session);
  }

  /** Revoking a session always takes its lease away. A coordinator does not refuse a later
    * configuration by that session: a lease of a revoked session was configured after the
    * last revocation. */
  lemma {:induction false} LeaseOutlivesNoRevocation(schedule: seq<Action>)
    ensures ConfiguredSinceRevocation(Run(schedule))
    decreases |schedule|
  {
    if schedule != [] {
      var w, action := Run(schedule[..|schedule|-1]), schedule[|schedule|-1];
      LeaseOutlivesNoRevocation(schedule[..|schedule|-1]);
      var (s', events) := Step(w.s, action);
      if s'.lease.Some? {
        if events != [] && events[0].LeaseConfigured? {
          assert (w.log + events)[|w.log|..] == events;
          assert (w.log + events)[|w.log|] == LeaseConfigured(s'.lease.value.sessionId);
        } else {
          StillConfigured(w, s', events);
        }
      }
    }
  }

  predicate HeldByRevoked(s: State) {
    s.lease.Some? && s.lease.value.sessionId in s.revoked
  }

  /** A configuration that is accepted although its session has been revoked. */
  predicate ConfiguresRevoked(s: State, action: Action) {
    && action.Configure? && action.lease.sessionId in s.revoked
    && ConfigureByok(s, action.meetingId, action.lease, action.now).0.Configured?
  }

  /** The one step that gives a revoked session a lease. */
  lemma RevokedLeaseIff(s: State, action: Action)
    requires !HeldByRevoked(s)
    ensures HeldByRevoked(Step(s, action).0) <==> ConfiguresRevoked(s, action)
  {
  }

  predicate NeverHeldByRevoked(schedule: seq<Action>) {
    forall n | 0 <= n <= |schedule| :: !HeldByRevoked(Run(schedule[..n]).s)
  }

  predicate NeverConfiguresRevoked(schedule: seq<Action>) {
    forall n | 0 <= n < |schedule| :: !ConfiguresRevoked(Run(schedule[..n]).s, schedule[n])
  }

  lemma HeldByOneMore(schedule: seq<Action>)
    requires schedule != []
    ensures NeverHeldByRevoked(schedule)
            <==> NeverHeldByRevoked(schedule[..|schedule|-1]) && !HeldByRevoked(Run(schedule).s)
  {
    var front := schedule[..|schedule|-1];
    assert schedule[..|schedule|] == schedule;
    assert forall n | 0 <= n <= |front| :: front[..n] == schedule[..n];
  }

  lemma ConfiguresOneMore(schedule: seq<Action>)
    requires schedule != []
    ensures var front := schedule[..|schedule|-1];
            NeverConfiguresRevoked(schedule)
            <==> NeverConfiguresRevoked(front) && !ConfiguresRevoked(Run(front).s, schedule[|schedule|-1])
  {
    var front := schedule[..|schedule|-1];
    assert forall n | 0 <= n < |front| :: front[..n] == schedule[..n] && front[n] == schedule[n];
    assert schedule[..|front|] == front;
  }

  /** A run keeps leases from revoked sessions throughout if and only if none of its steps is
    * an accepted configuration by a revoked session. */
  lemma {:induction false} RevokedNeverHoldsIff(schedule: seq<Action>)
    ensures NeverHeldByRevoked(schedule) <==> NeverConfiguresRevoked(schedule)
    decreases |schedule|
  {
    if schedule == [] {
      assert forall n | 0 <= n <= 0 :: schedule[..n] == [];
    } else {
      var front := schedule[..|schedule|-1];
      RevokedNeverHoldsIff(front);
      HeldByOneMore(schedule);
      ConfiguresOneMore(schedule);
      if NeverHeldByRevoked(front) {
        assert front[..|front|] == front;
        RevokedLeaseIff(Run(front).s, schedule[|schedule|-1]);
      }
    }
  }

  lemma RevokedSessionCanConfigure(meetingId: Id, lease: Lease, now: int)
    ensures var s := Run([Revoke(lease.sessionId), Configure(meetingId, lease, now)]).s;
            s.lease == Some(lease) && lease.sessionId in s.revoked
  {
    var schedule := [Revoke(lease.sessionId), Configure(meetingId, lease, now)];
    assert schedule[..1] == [Revoke(lease.sessionId)] && schedule[..1][..0] == [];
    assert Run(schedule[..1]) == Next(World(EMPTY, []), Revoke(lease.sessionId));
  }
}
