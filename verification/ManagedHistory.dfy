/** The order of events in a run: provider starts, provider calls and settlements. */
module ManagedHistory {
  import opened Basics
  import opened UsageLedger
  import opened ManagedClaimTables
  import opened ManagedReconcile
  import opened ManagedRuns

  /** A settlement at `at` lies more than the retention before the birth of whatever claim
    * the key carries now, and before its creation epoch too if it was born by reuse. */
  predicate Past(s: Shared, key: Id, at: nat) {
    && at + RETENTION_SECONDS < s.clock
    && (key in s.db.lifecycle && !s.db.lifecycle[key].LegacyBlocked? ==>
          var id := s.db.lifecycle[key].reservationId;
          id in s.born && BornAfter(s.born[id], at))
  }

  predicate BornAfter(b: Birth, settledAt: nat) {
    && settledAt + RETENTION_SECONDS < b.at
    && (b.reused ==> settledAt + RETENTION_SECONDS < b.createdAt)
  }

  predicate SettledRow(s: Shared, key: Id, id: Id, at: nat) {
    key in s.db.lifecycle && s.db.lifecycle[key] == Settled(id, at, at + RETENTION_SECONDS)
  }

  predicate IsSettlement(e: Event, id: Id) {
    e.SettleEvent? && e.id == id
  }

  /** The start at position `i` is still running, or was settled since. */
  predicate StartAccounted(s: Shared, i: nat)
    requires i < |s.log| && s.log[i].StartEvent?
  {
    var e := s.log[i];
    && e.id in s.starter && e.id in s.born && s.born[e.id].key == e.key
    && (IsStartedRow(s, e.id)
        || exists m | i < m < |s.log| :: IsSettlement(s.log[m], e.id) && s.log[m].key == e.key
             && (SettledRow(s, e.key, e.id, s.log[m].at) || Past(s, e.key, s.log[m].at)))
  }

  /** Position `m` settles the start at `i` more than the retention before the start at `j`. */
  predicate Separates(log: seq<Event>, i: nat, m: nat, j: nat)
    requires i < |log| && j < |log| && log[i].StartEvent? && log[j].StartEvent?
  {
    i < m < j && IsSettlement(log[m], log[i].id) && log[m].at + RETENTION_SECONDS < log[j].at
  }

  /** Moreover the claim of the start at `j` was born after that settlement. */
  predicate BirthSeparates(s: Shared, i: nat, m: nat, j: nat)
    requires i < |s.log| && j < |s.log| && s.log[i].StartEvent? && s.log[j].StartEvent?
  {
    Separates(s.log, i, m, j) && s.log[j].id in s.born && BornAfter(s.born[s.log[j].id], s.log[m].at)
  }

  ghost predicate BirthsSeparated(s: Shared) {
    forall i, j | 0 <= i < j < |s.log| && s.log[i].StartEvent? && s.log[j].StartEvent? && s.log[i].key == s.log[j].key ::
      exists m: nat :: BirthSeparates(s, i, m, j)
  }

  ghost predicate StartsSeparated(log: seq<Event>) {
    forall i, j | 0 <= i < j < |log| && log[i].StartEvent? && log[j].StartEvent? ::
      && log[i].id != log[j].id
      && (log[i].key == log[j].key ==> exists m: nat :: Separates(log, i, m, j))
  }

  /** Every provider call follows the durable start of the same reservation, and no
    * reservation is called twice. */
  predicate CallsOrdered(log: seq<Event>) {
    && (forall i | 0 <= i < |log| && log[i].CallEvent? ::
          exists m | 0 <= m < i :: log[m].StartEvent? && log[m].id == log[i].id)
    && (forall i, j | 0 <= i < j < |log| && log[i].CallEvent? && log[j].CallEvent? :: log[i].id != log[j].id)
  }

  ghost predicate StartsAccounted(s: Shared) {
    forall i: nat | i < |s.log| && s.log[i].StartEvent? :: StartAccounted(s, i)
  }

  predicate CallsRemembered(s: Shared) {
    forall i | 0 <= i < |s.log| && s.log[i].CallEvent? :: s.log[i].id in s.called
  }

  ghost predicate StartersLogged(s: Shared) {
    forall id | id in s.starter :: exists m | 0 <= m < |s.log| :: s.log[m].StartEvent? && s.log[m].id == id
  }

  ghost predicate LogSound(s: Shared) {
    StartsAccounted(s) && StartsSeparated(s.log) && BirthsSeparated(s)
    && CallsOrdered(s.log) && CallsRemembered(s) && StartersLogged(s)
  }

  // ----- What one step may do to rows and log -----

  /** A settled row stays or is reused after its retention; a started row stays or is
    * settled by the event this step logs. */
  ghost predicate RowMoves(s: Shared, s': Shared, key: Id)
    requires key in s.db.lifecycle
  {
    match s.db.lifecycle[key]
    case LegacyBlocked => true
    case Reserved(_, _) => true
    case ProviderStarted(id, _, _) =>
      && key in s'.db.lifecycle
      && (s'.db.lifecycle[key] == s.db.lifecycle[key]
          || exists at: nat :: s'.log == s.log + [SettleEvent(key, id, at)] && SettledRow(s', key, id, at))
    case Settled(id, at, _) =>
      (key in s'.db.lifecycle && s'.db.lifecycle[key] == s.db.lifecycle[key]) || Past(s', key, at)
  }

  /** What a logged event says about the state it was logged in. */
  predicate EventSound(s: Shared, s': Shared, e: Event) {
    match e
    case StartEvent(key, id, at) =>
      && key in s.db.lifecycle && s.db.lifecycle[key].Reserved? && s.db.lifecycle[key].reservationId == id
      && id in s.born && s.born[id].key == key && s.born[id].at <= at && id !in s.starter
      && s'.starter.Keys == s.starter.Keys + {id} && s'.called == s.called && IsStartedRow'(s', id, key)
    case CallEvent(id) =>
      id in s.starter && id !in s.called && s'.called == s.called + {id} && s'.starter == s.starter
    case SettleEvent(key, id, at) => s'.starter == s.starter && s'.called == s.called
  }

  predicate IsStartedRow'(s: Shared, id: Id, key: Id) {
    id in s.born && s.born[id].key == key && IsStartedRow(s, id)
  }

  /** A claim born by reuse replaces a settled row whose reuse epoch has passed. */
  predicate BirthMoves(s: Shared, s': Shared, id: Id)
    requires id in s'.born
  {
    s'.born[id].reused ==>
      var key := s'.born[id].key;
      key in s.db.lifecycle && s.db.lifecycle[key].Settled? && s.db.lifecycle[key].reuseAfter < s'.born[id].createdAt
  }

  ghost predicate Moves(s: Shared, s': Shared) {
    && (forall id | id in s'.born && id !in s.born :: BirthMoves(s, s', id))
    && (forall key | key in s.db.lifecycle :: RowMoves(s, s', key))
    && (if s'.log == s.log then s'.starter == s.starter && s'.called == s.called
        else exists e :: s'.log == s.log + [e] && EventSound(s, s', e))
  }

  lemma PastStays(s: Shared, s': Shared, key: Id, at: nat)
    requires SharedSound(s) && SharedSound(s') && Advances(s, s') && Moves(s, s') && Past(s, key, at)
    ensures Past(s', key, at)
  {
    if key in s'.db.lifecycle && !s'.db.lifecycle[key].LegacyBlocked? {
      assert SameOrNewborn(s, s', key) && RowSound(s', key);
      var id := s'.db.lifecycle[key].reservationId;
      if id !in s.born {
        assert BirthMoves(s, s', id);
        if s'.born[id].reused { assert RowSound(s, key); }
      }
    }
  }

  lemma StartStaysAccounted(s: Shared, s': Shared, i: nat)
    requires SharedSound(s) && SharedSound(s') && Advances(s, s') && Moves(s, s')
    requires i < |s.log| && s.log[i].StartEvent? && StartAccounted(s, i)
    requires |s.log| <= |s'.log| && s'.log[..|s.log|] == s.log
    ensures StartAccounted(s', i)
  {
    var e := s.log[i];
    assert s'.log[i] == e;
    if IsStartedRow(s, e.id) {
      assert RowMoves(s, s', e.key);
      if !IsStartedRow(s', e.id) {
        var at: nat :| s'.log == s.log + [SettleEvent(e.key, e.id, at)] && SettledRow(s', e.key, e.id, at);
        assert IsSettlement(s'.log[|s.log|], e.id);
      }
    } else {
      var m :| i < m < |s.log| && IsSettlement(s.log[m], e.id) && s.log[m].key == e.key
        && (SettledRow(s, e.key, e.id, s.log[m].at) || Past(s, e.key, s.log[m].at));
      assert s'.log[m] == s.log[m];
      if Past(s, e.key, s.log[m].at) {
        PastStays(s, s', e.key, s.log[m].at);
      } else {
        assert RowMoves(s, s', e.key);
      }
      assert IsSettlement(s'.log[m], e.id);
    }
  }

  /** When a start is logged, every earlier start of the key was settled long before. */
  lemma NewStartIsSeparated(s: Shared, s': Shared, i: nat, e: Event)
    requires SharedSound(s) && LogSound(s) && e.StartEvent? && EventSound(s, s', e)
    requires i < |s.log| && s.log[i].StartEvent? && s.log[i].key == e.key
    ensures exists m: nat :: Separates(s.log + [e], i, m, |s.log|)
  {
    assert StartAccounted(s, i);
    var m :| i < m < |s.log| && IsSettlement(s.log[m], s.log[i].id) && s.log[m].key == e.key
      && (SettledRow(s, e.key, s.log[i].id, s.log[m].at) || Past(s, e.key, s.log[m].at));
    assert Separates(s.log + [e], i, m, |s.log|);
  }

  /** The same for births: the started row carries the claim `e` starts. */
  lemma NewBirthIsSeparated(s: Shared, s': Shared, i: nat, e: Event)
    requires SharedSound(s) && LogSound(s) && Advances(s, s') && e.StartEvent? && EventSound(s, s', e)
    requires s'.log == s.log + [e] && i < |s.log| && s.log[i].StartEvent? && s.log[i].key == e.key
    ensures exists m: nat :: BirthSeparates(s', i, m, |s.log|)
  {
    assert StartAccounted(s, i);
    var m :| i < m < |s.log| && IsSettlement(s.log[m], s.log[i].id) && s.log[m].key == e.key
      && (SettledRow(s, e.key, s.log[i].id, s.log[m].at) || Past(s, e.key, s.log[m].at));
    assert s'.log[i] == s.log[i] && s'.log[m] == s.log[m] && s'.log[|s.log|] == e;
    assert BirthSeparates(s', i, m, |s.log|);
  }

  lemma OldBirthsStaySeparated(s: Shared, s': Shared, i: nat, j: nat)
    requires BirthsSeparated(s) && Advances(s, s') && s.log <= s'.log && i < j < |s.log|
    requires s.log[i].StartEvent? && s.log[j].StartEvent? && s.log[i].key == s.log[j].key
    ensures exists m: nat :: BirthSeparates(s', i, m, j)
  {
    var m: nat :| BirthSeparates(s, i, m, j);
    assert s'.log[i] == s.log[i] && s'.log[m] == s.log[m] && s'.log[j] == s.log[j];
    assert BirthSeparates(s', i, m, j);
  }

  lemma AppendKeepsBirths(s: Shared, s': Shared, e: Event)
    requires BirthsSeparated(s) && Advances(s, s') && s'.log == s.log + [e]
    requires e.StartEvent? ==> forall i: nat | i < |s.log| && s.log[i].StartEvent? && s.log[i].key == e.key ::
               exists m: nat :: BirthSeparates(s', i, m, |s.log|)
    ensures BirthsSeparated(s')
  {
    forall i, j | 0 <= i < j < |s'.log| && s'.log[i].StartEvent? && s'.log[j].StartEvent? && s'.log[i].key == s'.log[j].key
      ensures exists m: nat :: BirthSeparates(s', i, m, j)
    {
      assert s'.log[i] == s.log[i];
      if j < |s.log| { OldBirthsStaySeparated(s, s', i, j); }
    }
  }

  lemma BirthsStaySeparated(s: Shared, s': Shared, e: Event)
    requires SharedSound(s) && LogSound(s) && Advances(s, s') && EventSound(s, s', e) && s'.log == s.log + [e]
    ensures BirthsSeparated(s')
  {
    if e.StartEvent? {
      forall i: nat | i < |s.log| && s.log[i].StartEvent? && s.log[i].key == e.key
        ensures exists m: nat :: BirthSeparates(s', i, m, |s.log|)
      {
        NewBirthIsSeparated(s, s', i, e);
      }
    }
    AppendKeepsBirths(s, s', e);
  }

  lemma AppendKeepsSeparation(log: seq<Event>, e: Event)
    requires StartsSeparated(log)
    requires e.StartEvent? ==> forall i: nat | i < |log| && log[i].StartEvent? ::
               log[i].id != e.id && (log[i].key == e.key ==> exists m: nat :: Separates(log + [e], i, m, |log|))
    ensures StartsSeparated(log + [e])
  {
    var log' := log + [e];
    forall i, j | 0 <= i < j < |log'| && log'[i].StartEvent? && log'[j].StartEvent?
      ensures log'[i].id != log'[j].id
      ensures log'[i].key == log'[j].key ==> exists m: nat :: Separates(log', i, m, j)
    {
      assert log'[i] == log[i];
      if j < |log| && log[i].key == log[j].key {
        var m: nat :| Separates(log, i, m, j);
        assert Separates(log', i, m, j);
      }
    }
  }

  lemma AppendKeepsCallOrder(log: seq<Event>, e: Event)
    requires CallsOrdered(log)
    requires e.CallEvent? ==> exists m | 0 <= m < |log| :: log[m].StartEvent? && log[m].id == e.id
    requires e.CallEvent? ==> forall i | 0 <= i < |log| && log[i].CallEvent? :: log[i].id != e.id
    ensures CallsOrdered(log + [e])
  {
    var log' := log + [e];
    forall i | 0 <= i < |log'| && log'[i].CallEvent?
      ensures exists m | 0 <= m < i :: log'[m].StartEvent? && log'[m].id == log'[i].id
    {
      var m :| 0 <= m < |log| && log[m].StartEvent? && log[m].id == log'[i].id && m < i;
      assert log'[m] == log[m];
    }
  }

  lemma StartsStaySeparated(s: Shared, s': Shared, e: Event)
    requires SharedSound(s) && LogSound(s) && EventSound(s, s', e)
    ensures StartsSeparated(s.log + [e])
  {
    if e.StartEvent? {
      forall i: nat | i < |s.log| && s.log[i].StartEvent?
        ensures s.log[i].id != e.id
        ensures s.log[i].key == e.key ==> exists m: nat :: Separates(s.log + [e], i, m, |s.log|)
      {
        assert StartAccounted(s, i);
        if s.log[i].key == e.key { NewStartIsSeparated(s, s', i, e); }
      }
    }
    AppendKeepsSeparation(s.log, e);
  }

  lemma StartersStayLogged(s: Shared, s': Shared, e: Event)
    requires LogSound(s) && s'.log == s.log + [e] && EventSound(s, s', e)
    ensures StartersLogged(s')
  {
    forall id | id in s'.starter
      ensures exists m | 0 <= m < |s'.log| :: s'.log[m].StartEvent? && s'.log[m].id == id
    {
      if id in s.starter {
        var m :| 0 <= m < |s.log| && s.log[m].StartEvent? && s.log[m].id == id;
        assert s'.log[m] == s.log[m];
      } else {
        assert s'.log[|s.log|] == e;
      }
    }
  }

  lemma StartsStayAccounted(s: Shared, s': Shared, e: Event)
    requires SharedSound(s) && SharedSound(s') && LogSound(s) && Advances(s, s') && Moves(s, s')
    requires s'.log == s.log + [e] && EventSound(s, s', e)
    ensures StartsAccounted(s')
  {
    assert s'.log[..|s.log|] == s.log;
    forall i: nat | i < |s'.log| && s'.log[i].StartEvent?
      ensures StartAccounted(s', i)
    {
      if i < |s.log| {
        assert s'.log[i] == s.log[i];
        StartStaysAccounted(s, s', i);
      }
    }
  }

  lemma CallsStayOrdered(s: Shared, s': Shared, e: Event)
    requires LogSound(s) && s'.log == s.log + [e] && EventSound(s, s', e) && Moves(s, s')
    ensures CallsOrdered(s'.log) && CallsRemembered(s')
  {
    AppendKeepsCallOrder(s.log, e);
  }

  lemma QuietLogKeeps(s: Shared, s': Shared)
    requires SharedSound(s) && SharedSound(s') && LogSound(s) && Advances(s, s') && Moves(s, s') && s'.log == s.log
    ensures LogSound(s')
  {
    assert s'.log[..|s.log|] == s.log;
    forall i: nat | i < |s.log| && s.log[i].StartEvent? { StartStaysAccounted(s, s', i); }
    forall i: nat, j: nat | i < j < |s.log| && s.log[i].StartEvent? && s.log[j].StartEvent? && s.log[i].key == s.log[j].key
      ensures exists m: nat :: BirthSeparates(s', i, m, j)
    {
      OldBirthsStaySeparated(s, s', i, j);
    }
  }

  lemma LogKeeps(s: Shared, s': Shared)
    requires SharedSound(s) && SharedSound(s') && LogSound(s) && Advances(s, s') && Moves(s, s')
    ensures LogSound(s')
  {
    if s'.log == s.log {
      QuietLogKeeps(s, s');
    } else {
      var e :| s'.log == s.log + [e] && EventSound(s, s', e);
      StartsStayAccounted(s, s', e);
      StartsStaySeparated(s, s', e);
      BirthsStaySeparated(s, s', e);
      CallsStayOrdered(s, s', e);
      StartersStayLogged(s, s', e);
    }
  }

  // ----- Every step moves rows that way -----

  lemma QuietMoves(s: Shared, s': Shared)
    requires forall id | id in s'.born && id !in s.born :: !s'.born[id].reused
    requires s'.log == s.log && s'.starter == s.starter && s'.called == s.called
    requires forall key | key in s.db.lifecycle && !s.db.lifecycle[key].LegacyBlocked? && !s.db.lifecycle[key].Reserved? ::
               key in s'.db.lifecycle && s'.db.lifecycle[key] == s.db.lifecycle[key]
    ensures Moves(s, s')
  {
  }

  lemma EarlyQuietMoves(s: Shared, i: nat, a: Actor, choice: Choice)
    requires SharedSound(s) && ActorSound(s, i, a) && a.Runner? && BeforeUsage(a.pc) && !a.pc.Reusing?
    ensures Moves(s, Act(s, i, a, choice).0)
  {
    QuietMoves(s, Act(s, i, a, choice).0);
  }

  lemma LateQuietMoves(s: Shared, i: nat, a: Actor, choice: Choice)
    requires SharedSound(s) && ActorSound(s, i, a) && a.Runner? && !BeforeUsage(a.pc)
    requires !a.pc.StartingProvider? && !a.pc.CallingProvider? && !a.pc.Settling?
    ensures Moves(s, Act(s, i, a, choice).0)
  {
    QuietMoves(s, Act(s, i, a, choice).0);
  }

  lemma RowReleaseMoves(s: Shared, c: Claim, now: nat)
    ensures Moves(s, RowReleaseStep(s, c, now).0)
  {
    QuietMoves(s, RowReleaseStep(s, c, now).0);
  }

  lemma ReconcilerQuietMoves(s: Shared, i: nat, a: Actor, choice: Choice)
    requires a.Reconciler? && !a.pc.Settling?
    ensures Moves(s, Act(s, i, a, choice).0)
  {
    if a.pc.RowReleasing? {
      RowReleaseMoves(s, a.pc.claim, a.now);
    } else {
      QuietMoves(s, Act(s, i, a, choice).0);
    }
  }

  lemma ActMoves(s: Shared, i: nat, a: Actor, choice: Choice)
    requires SharedSound(s) && ActorSound(s, i, a)
    ensures Moves(s, Act(s, i, a, choice).0)
  {
    if a.pc.Settling? {
      SettleMoves(s, i, a);
    } else if a.Reconciler? {
      ReconcilerQuietMoves(s, i, a, choice);
    } else if a.pc.Reusing? {
      if Fresh(s, choice.newId) { ReuseMoves(s, i, a, choice); } else { QuietMoves(s, s); }
    } else if a.pc.StartingProvider? {
      if a.pc.at < a.pc.claim.createdAt { QuietMoves(s, s); } else { StartMoves(s, i, a); }
    } else if a.pc.CallingProvider? {
      CallMoves(s, i, a, choice);
    } else if BeforeUsage(a.pc) {
      EarlyQuietMoves(s, i, a, choice);
    } else {
      LateQuietMoves(s, i, a, choice);
    }
  }

  lemma ReuseMoves(s: Shared, i: nat, a: Actor, choice: Choice)
    requires SharedSound(s) && ActorSound(s, i, a) && a.pc.Reusing? && Fresh(s, choice.newId)
    ensures Moves(s, ReuseStep(s, a, a.pc.seen, a.pc.again, choice).0)
  {
    ReuseIsAllOrNothing(s, i, a, choice.newId);
    var s' := ReuseStep(s, a, a.pc.seen, a.pc.again, choice).0;
    if s' == s { QuietMoves(s, s'); } else { assert RowSound(s, a.request.key); }
  }

  lemma StartMoves(s: Shared, i: nat, a: Actor)
    requires SharedSound(s) && ActorSound(s, i, a) && a.pc.StartingProvider?
    ensures Moves(s, StartStep(s, i, a.pc.claim, a.pc.at).0)
  {
    var c := a.pc.claim;
    var s' := StartStep(s, i, c, a.pc.at).0;
    if s' == s { QuietMoves(s, s'); } else {
      assert RowSound(s, c.key);
      assert EventSound(s, s', StartEvent(c.key, c.reservationId, a.pc.at));
    }
  }

  lemma CallMoves(s: Shared, i: nat, a: Actor, choice: Choice)
    requires SharedSound(s) && ActorSound(s, i, a) && a.Runner? && a.pc.CallingProvider?
    ensures Moves(s, CallStep(s, a, a.pc.claim, choice.actual).0)
  {
    var s' := CallStep(s, a, a.pc.claim, choice.actual).0;
    assert EventSound(s, s', CallEvent(a.pc.claim.reservationId));
  }

  lemma SettleMoves(s: Shared, i: nat, a: Actor)
    requires SharedSound(s) && ActorSound(s, i, a) && a.pc.Settling?
    ensures Moves(s, SettleStep(s, a.pc.claim, a.pc.expectStarted, a.pc.at).0)
  {
    var c := a.pc.claim;
    var s' := SettleStep(s, c, a.pc.expectStarted, a.pc.at).0;
    if s' == s { QuietMoves(s, s'); } else {
      assert RowSound(s, c.key);
      assert EventSound(s, s', SettleEvent(c.key, c.reservationId, a.pc.at));
    }
  }
}
