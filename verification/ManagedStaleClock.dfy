/** A claim's own creation epoch says nothing about the order of settlements: a run in which
  * a request with an old clock reading creates its claim after the key was reused. */
module ManagedStaleClock {
  import opened Basics
  import opened UsageLedger
  import opened ManagedClaimTables
  import opened ManagedReconcile
  import opened ManagedRuns
  import opened ManagedHistory
  import opened ManagedTheorems

  const FREE: Usage := Usage(0, 0, 0, 0, 0)
  const SOMEBODY: Subject := Subject(0, 0)
  const REQUEST: Request := Request(0, 0, 0, SOMEBODY, FREE)
  const LATE: nat := 90_001

  function Pick(newId: Id, epoch: nat, admitted: bool): Choice {
    Choice(newId, epoch, Some(FREE), false, admitted)
  }

  const START: World := World(Shared(Tables(map[], map[], map[]), 0, map[], map[], map[], {}, []), map[])

  lemma Extend(schedule: seq<Action>, action: Action) returns (longer: seq<Action>)
    ensures longer == schedule + [action] && Run(START, longer) == Next(Run(START, schedule), action)
  {
    longer := schedule + [action];
    assert longer[..|longer|-1] == schedule;
  }

  function Row(epoch: nat, status: Status): Reservation {
    Reservation(0, SOMEBODY, 0, FREE, epoch, epoch + CLAIM_LEASE_SECONDS, status)
  }

  // ----- The first request settles at second 0 -----

  lemma FirstClaims() returns (schedule: seq<Action>)
    ensures var w := Run(START, schedule);
            && w.shared.db == Tables(map[0 := ClaimRow(0, 0, 0, 120)], map[0 := Reserved(7, 120)], map[])
            && w.shared.clock == 0 && w.shared.terms == map[0 := 0] && w.shared.log == [] && w.shared.born.Keys == {7}
            && w.actors == map[1 := Runner(REQUEST, 0, Rereading(false, false))]
  {
    schedule := Extend([], Spawn(1, REQUEST));
    schedule := Extend(schedule, Move(1, Pick(0, 0, true)));
    assert Run(START, schedule).actors == map[1 := Runner(REQUEST, 0, Inserting(false))];
    schedule := Extend(schedule, Move(1, Pick(7, 0, true)));
  }

  lemma FirstReserves() returns (schedule: seq<Action>)
    ensures var w := Run(START, schedule);
            && w.shared.db == Tables(map[0 := ClaimRow(0, 0, 0, 120)], map[0 := Reserved(7, 120)], map[7 := Row(0, Held)])
            && w.shared.clock == 0 && w.shared.terms == map[0 := 0] && w.shared.log == [] && w.shared.born.Keys == {7}
            && w.actors == map[1 := Runner(REQUEST, 0, ReadingStart(Claim(0, 0, 0, 0, 7)))]
  {
    schedule := FirstClaims();
    schedule := Extend(schedule, Move(1, Pick(0, 0, true)));
    assert Run(START, schedule).actors == map[1 := Runner(REQUEST, 0, ReservingUsage(Claim(0, 0, 0, 0, 7)))];
    schedule := Extend(schedule, Move(1, Pick(0, 0, true)));
  }

  predicate FirstIsSettled(w: World) {
    && w.shared.db == Tables(map[0 := ClaimRow(0, 0, 0, 120)], map[0 := Settled(7, 0, 90_000)], map[7 := Row(0, Finalized(FREE, 0))])
    && w.shared.clock == 0 && w.shared.terms == map[0 := 0] && w.shared.born.Keys == {7}
    && w.shared.log == [StartEvent(0, 7, 0), CallEvent(7), SettleEvent(0, 7, 0)]
    && w.actors == map[1 := Runner(REQUEST, 0, Stopped)]
  }

  lemma FirstStarts() returns (schedule: seq<Action>)
    ensures var w := Run(START, schedule);
            && w.shared.db == Tables(map[0 := ClaimRow(0, 0, 0, 120)], map[0 := ProviderStarted(7, 120, 0)], map[7 := Row(0, Held)])
            && w.shared.clock == 0 && w.shared.terms == map[0 := 0] && w.shared.born.Keys == {7}
            && w.shared.log == [StartEvent(0, 7, 0)]
            && w.actors == map[1 := Runner(REQUEST, 0, CallingProvider(Claim(0, 0, 0, 0, 7)))]
  {
    schedule := FirstReserves();
    schedule := Extend(schedule, Move(1, Pick(0, 0, true)));
    assert Run(START, schedule).actors == map[1 := Runner(REQUEST, 0, StartingProvider(Claim(0, 0, 0, 0, 7), 0))];
    schedule := Extend(schedule, Move(1, Pick(0, 0, true)));
  }

  lemma FirstCalls() returns (schedule: seq<Action>)
    ensures var w := Run(START, schedule);
            && w.shared.db == Tables(map[0 := ClaimRow(0, 0, 0, 120)], map[0 := ProviderStarted(7, 120, 0)], map[7 := Row(0, Held)])
            && w.shared.clock == 0 && w.shared.terms == map[0 := 0] && w.shared.born.Keys == {7}
            && w.shared.log == [StartEvent(0, 7, 0), CallEvent(7)]
            && w.actors == map[1 := Runner(REQUEST, 0, Finalizing(Claim(0, 0, 0, 0, 7), FREE))]
  {
    schedule := FirstStarts();
    schedule := Extend(schedule, Move(1, Pick(0, 0, true)));
  }

  lemma FirstMayFinalize()
    ensures MayFinalize(map[7 := Row(0, Held)], 7, FREE, 0)
  {
    assert map[7 := Row(0, Held)] - {7} == map[];
  }

  lemma FirstFinalizes() returns (schedule: seq<Action>)
    ensures var w := Run(START, schedule);
            && w.shared.db == Tables(map[0 := ClaimRow(0, 0, 0, 120)], map[0 := ProviderStarted(7, 120, 0)],
                                     map[7 := Row(0, Finalized(FREE, 0))])
            && w.shared.clock == 0 && w.shared.terms == map[0 := 0] && w.shared.born.Keys == {7}
            && w.shared.log == [StartEvent(0, 7, 0), CallEvent(7)]
            && w.actors == map[1 := Runner(REQUEST, 0, ReadingSettlement(Claim(0, 0, 0, 0, 7)))]
  {
    schedule := FirstCalls();
    FirstMayFinalize();
    schedule := Extend(schedule, Move(1, Pick(0, 0, true)));
  }

  lemma FirstSettles() returns (schedule: seq<Action>)
    ensures FirstIsSettled(Run(START, schedule))
  {
    schedule := FirstFinalizes();
    schedule := Extend(schedule, Move(1, Pick(0, 0, true)));
    assert Run(START, schedule).actors == map[1 := Runner(REQUEST, 0, Settling(Claim(0, 0, 0, 0, 7), true, 0))];
    schedule := Extend(schedule, Move(1, Pick(0, 0, true)));
  }

  // ----- An old request waits; a later one reuses the key and gives it up -----

  predicate KeyIsGivenUp(w: World) {
    && w.shared.db == Tables(map[], map[], map[7 := Row(0, Finalized(FREE, 0))])
    && w.shared.clock == LATE && w.shared.terms == map[0 := 0] && w.shared.born.Keys == {7, 8}
    && w.shared.log == [StartEvent(0, 7, 0), CallEvent(7), SettleEvent(0, 7, 0)]
    && w.actors.Keys == {1, 2, 3} && w.actors[3] == Runner(REQUEST, 0, Looking(false))
  }

  lemma LaterRequestArrives() returns (schedule: seq<Action>)
    ensures var w := Run(START, schedule);
            && w.shared.db == Tables(map[0 := ClaimRow(0, 0, 0, 120)], map[0 := Settled(7, 0, 90_000)], map[7 := Row(0, Finalized(FREE, 0))])
            && w.shared.clock == LATE && w.shared.terms == map[0 := 0] && w.shared.born.Keys == {7}
            && w.shared.log == [StartEvent(0, 7, 0), CallEvent(7), SettleEvent(0, 7, 0)]
            && w.actors == map[1 := Runner(REQUEST, 0, Stopped), 3 := Runner(REQUEST, 0, Looking(false)),
                               2 := Runner(REQUEST, LATE, Looking(false))]
  {
    schedule := FirstSettles();
    schedule := Extend(schedule, Spawn(3, REQUEST));
    schedule := Extend(schedule, Tick(LATE));
    schedule := Extend(schedule, Spawn(2, REQUEST));
  }

  lemma LaterRequestReuses() returns (schedule: seq<Action>)
    ensures var w := Run(START, schedule);
            && w.shared.db == Tables(map[0 := ClaimRow(0, 0, LATE, LATE + 120)], map[0 := Reserved(8, LATE + 120)],
                                     map[7 := Row(0, Finalized(FREE, 0))])
            && w.shared.clock == LATE && w.shared.terms == map[0 := 0] && w.shared.born.Keys == {7, 8}
            && w.shared.log == [StartEvent(0, 7, 0), CallEvent(7), SettleEvent(0, 7, 0)]
            && w.actors == map[1 := Runner(REQUEST, 0, Stopped), 3 := Runner(REQUEST, 0, Looking(false)),
                               2 := Runner(REQUEST, LATE, Rereading(false, false))]
  {
    schedule := LaterRequestArrives();
    schedule := Extend(schedule, Move(2, Pick(0, 0, true)));
    assert Run(START, schedule).actors[2] == Runner(REQUEST, LATE, Reusing(Claim(0, 0, 0, 0, 7), false));
    schedule := Extend(schedule, Move(2, Pick(8, 0, true)));
  }

  lemma LaterRequestGivesUp() returns (schedule: seq<Action>)
    ensures KeyIsGivenUp(Run(START, schedule))
  {
    schedule := LaterRequestReuses();
    schedule := Extend(schedule, Move(2, Pick(0, 0, true)));
    schedule := Extend(schedule, Move(2, Pick(0, LATE, false)));
    assert Run(START, schedule).actors[2] == Runner(REQUEST, LATE, AbandoningDenied(Claim(0, 0, 0, LATE, 8)));
    schedule := Extend(schedule, Move(2, Pick(0, 0, true)));
  }

  // ----- The old request claims, a fresh one takes its claim over -----

  predicate OldRequestReserved(w: World) {
    && w.shared.db == Tables(map[0 := ClaimRow(0, 0, 0, 120)], map[0 := Reserved(9, 120)],
                             map[7 := Row(0, Finalized(FREE, 0)), 9 := Row(LATE, Held)])
    && w.shared.clock == LATE && w.shared.terms == map[0 := 0]
    && 9 in w.shared.born && w.shared.born[9].createdAt == 0
    && w.shared.log == [StartEvent(0, 7, 0), CallEvent(7), SettleEvent(0, 7, 0)]
    && w.actors.Keys == {1, 2, 3}
  }

  lemma OldRequestClaims() returns (schedule: seq<Action>)
    ensures var w := Run(START, schedule);
            && w.shared.db == Tables(map[0 := ClaimRow(0, 0, 0, 120)], map[0 := Reserved(9, 120)], map[7 := Row(0, Finalized(FREE, 0))])
            && w.shared.clock == LATE && w.shared.terms == map[0 := 0]
            && 9 in w.shared.born && w.shared.born[9].createdAt == 0
            && w.shared.log == [StartEvent(0, 7, 0), CallEvent(7), SettleEvent(0, 7, 0)]
            && w.actors.Keys == {1, 2, 3} && w.actors[3] == Runner(REQUEST, 0, Rereading(false, false))
  {
    schedule := LaterRequestGivesUp();
    schedule := Extend(schedule, Move(3, Pick(0, 0, true)));
    assert Run(START, schedule).actors[3] == Runner(REQUEST, 0, Inserting(false));
    schedule := Extend(schedule, Move(3, Pick(9, 0, true)));
  }

  lemma OldRequestReserves() returns (schedule: seq<Action>)
    ensures OldRequestReserved(Run(START, schedule))
  {
    schedule := OldRequestClaims();
    schedule := Extend(schedule, Move(3, Pick(0, 0, true)));
    assert Run(START, schedule).actors[3] == Runner(REQUEST, 0, ReservingUsage(Claim(0, 0, 0, 0, 9)));
    RollingCostOfTwo(7, Row(0, Finalized(FREE, 0)), 8, Row(0, Held), LATE);
    schedule := Extend(schedule, Move(3, Pick(0, LATE, true)));
  }

  predicate OldClaimFound(w: World, pc: Pc) {
    && w.shared.clock == LATE && 9 in w.shared.born && w.shared.born[9].createdAt == 0
    && w.shared.log == [StartEvent(0, 7, 0), CallEvent(7), SettleEvent(0, 7, 0)]
    && w.shared.db == Tables(map[0 := ClaimRow(0, 0, 0, 120)], map[0 := Reserved(9, 120)],
                             map[7 := Row(0, Finalized(FREE, 0)), 9 := Row(LATE, Held)])
    && 4 in w.actors && w.actors[4] == Runner(REQUEST, LATE, pc)
  }

  lemma FreshRequestFinds() returns (schedule: seq<Action>)
    ensures OldClaimFound(Run(START, schedule), Verifying(Claim(0, 0, 0, 0, 9), ThenTakeOver))
  {
    schedule := OldRequestReserves();
    schedule := Extend(schedule, Spawn(4, REQUEST));
    schedule := Extend(schedule, Move(4, Pick(0, 0, true)));
    assert OldClaimFound(Run(START, schedule), FindingReserved(Claim(0, 0, 0, 0, 9)));
    schedule := Extend(schedule, Move(4, Pick(0, 0, true)));
  }

  lemma FreshRequestTakesOver() returns (schedule: seq<Action>)
    ensures var w := Run(START, schedule);
            && w.shared.clock == LATE && 9 in w.shared.born && w.shared.born[9].createdAt == 0
            && w.shared.log == [StartEvent(0, 7, 0), CallEvent(7), SettleEvent(0, 7, 0)]
            && w.shared.db.lifecycle == map[0 := Reserved(9, LATE + 120)] && w.shared.db.claims == map[0 := ClaimRow(0, 0, 0, 120)]
            && 4 in w.actors && w.actors[4] == Runner(REQUEST, LATE, ReadingStart(Claim(0, 0, 0, 0, 9)))
  {
    schedule := FreshRequestFinds();
    schedule := Extend(schedule, Move(4, Pick(0, LATE, true)));
    assert OldClaimFound(Run(START, schedule), TakingOver(Claim(0, 0, 0, 0, 9)));
    schedule := Extend(schedule, Move(4, Pick(0, LATE, true)));
  }

  lemma FreshRequestStarts() returns (schedule: seq<Action>)
    ensures var w := Run(START, schedule);
            && w.shared.log == [StartEvent(0, 7, 0), CallEvent(7), SettleEvent(0, 7, 0), StartEvent(0, 9, LATE)]
            && 9 in w.shared.born && w.shared.born[9].createdAt == 0
            && 4 in w.actors && w.actors[4] == Runner(REQUEST, LATE, CallingProvider(Claim(0, 0, 0, 0, 9)))
  {
    schedule := FreshRequestTakesOver();
    schedule := Extend(schedule, Move(4, Pick(0, 0, true)));
    assert Run(START, schedule).actors[4] == Runner(REQUEST, LATE, StartingProvider(Claim(0, 0, 0, 0, 9), LATE));
    schedule := Extend(schedule, Move(4, Pick(0, 0, true)));
  }

  /** The provider is called a second time for the key under a claim created at second 0,
    * no later than the first settlement. The second start itself is late enough. */
  lemma CreationEpochMayPrecedeSettlement() returns (schedule: seq<Action>)
    ensures Initial(START)
    ensures var s := Run(START, schedule).shared;
            && s.log == [StartEvent(0, 7, 0), CallEvent(7), SettleEvent(0, 7, 0), StartEvent(0, 9, LATE), CallEvent(9)]
            && 9 in s.born && s.born[9].createdAt == 0
  {
    schedule := FreshRequestStarts();
    schedule := Extend(schedule, Move(4, Pick(0, 0, true)));
  }

  // ----- When creation epochs do follow -----

  /** Between `s` and `s'` claim `id` was created: by reuse over a settled row of its key,
    * more than the retention after that settlement, or where the key had no row at all. */
  predicate CreatedInOrder(s: Shared, s': Shared, id: Id) {
    && id in s'.born
    && var birth := s'.born[id];
    && (birth.reused <==> birth.key in s.db.lifecycle)
    && (birth.reused ==>
          && s.db.lifecycle[birth.key].Settled?
          && s.db.lifecycle[birth.key].settledAt + RETENTION_SECONDS < birth.createdAt)
    && birth.key in s'.db.lifecycle
    && s'.db.lifecycle[birth.key] == Reserved(id, birth.createdAt + CLAIM_LEASE_SECONDS)
  }

  lemma OnlyClaimingIsBirth(s: Shared, i: nat, a: Actor, choice: Choice, id: Id)
    requires id !in s.born && id in Act(s, i, a, choice).0.born
    ensures a.Runner? && (a.pc.Inserting? || a.pc.Reusing?) && Fresh(s, choice.newId)
  {
  }

  lemma BirthIsInOrder(s: Shared, i: nat, a: Actor, choice: Choice, id: Id)
    requires SharedSound(s) && ActorSound(s, i, a)
    requires id !in s.born && id in Act(s, i, a, choice).0.born
    ensures CreatedInOrder(s, Act(s, i, a, choice).0, id)
  {
    OnlyClaimingIsBirth(s, i, a, choice, id);
    if a.request.key in s.db.lifecycle { assert RowSound(s, a.request.key); }
  }

  /** Every claim of every run is created in that order. */
  lemma ClaimsAreCreatedInOrder(w: World, i: nat, choice: Choice, id: Id)
    requires Reachable(w) && i in w.actors && id !in w.shared.born
    requires id in Act(w.shared, i, w.actors[i], choice).0.born
    ensures CreatedInOrder(w.shared, Next(w, Move(i, choice)).shared, id)
  {
    ReachableIsSound(w);
    BirthIsInOrder(w.shared, i, w.actors[i], choice, id);
  }

  /** The provider starts at positions `i` and `j` belong to one claim key. */
  predicate StartsOfOneKey(s: Shared, i: nat, j: nat) {
    i < j < |s.log| && s.log[i].StartEvent? && s.log[j].StartEvent? && s.log[i].key == s.log[j].key
  }

  /** Two starts of one key are separated by a settlement of the first; the claim of the
    * second was written more than the retention after it. */
  lemma BirthsFollowSettlements(w: World, i: nat, j: nat) returns (m: nat)
    requires Reachable(w) && StartsOfOneKey(w.shared, i, j)
    ensures BirthSeparates(w.shared, i, m, j)
  {
    ReachableIsSound(w);
    m :| BirthSeparates(w.shared, i, m, j);
  }

  /** Position `m` settles the start at `i`, and the claim of the start at `j` carries a
    * creation epoch more than the retention later. */
  predicate Precedes(s: Shared, i: nat, m: nat, j: nat)
    requires StartsOfOneKey(s, i, j)
  {
    && i < m < j && IsSettlement(s.log[m], s.log[i].id) && s.log[j].id in s.born
    && s.log[m].at + RETENTION_SECONDS < s.born[s.log[j].id].createdAt
  }

  /** The creation epochs of two starts of one key are in order. */
  ghost predicate InOrder(s: Shared, i: nat, j: nat)
    requires StartsOfOneKey(s, i, j)
  {
    exists m: nat :: Precedes(s, i, m, j)
  }

  /** The later claim was inserted where the key had no row, by a request whose clock reading
    * is not beyond the retention of any settlement of the earlier start. */
  ghost predicate InsertedOnOldReading(s: Shared, i: nat, j: nat)
    requires StartsOfOneKey(s, i, j)
  {
    && s.log[j].id in s.born && !s.born[s.log[j].id].reused
    && forall m: nat | i < m < j && IsSettlement(s.log[m], s.log[i].id) ::
         s.born[s.log[j].id].createdAt <= s.log[m].at + RETENTION_SECONDS
  }

  /** Over every run: creation epochs are in order exactly unless the later claim was inserted
    * on an old clock reading. A reused row never breaks the order. */
  lemma CreationEpochsInOrderIff(w: World, i: nat, j: nat)
    requires Reachable(w) && StartsOfOneKey(w.shared, i, j)
    ensures InOrder(w.shared, i, j) <==> !InsertedOnOldReading(w.shared, i, j)
  {
    var s := w.shared;
    var m := BirthsFollowSettlements(w, i, j);
    if InOrder(s, i, j) {
      var n: nat :| Precedes(s, i, n, j);
      assert IsSettlement(s.log[n], s.log[i].id);
    }
    if !InsertedOnOldReading(s, i, j) {
      if s.born[s.log[j].id].reused {
        assert Precedes(s, i, m, j);
      } else {
        var n: nat :| i < n < j && IsSettlement(s.log[n], s.log[i].id)
          && s.log[n].at + RETENTION_SECONDS < s.born[s.log[j].id].createdAt;
        assert Precedes(s, i, n, j);
      }
    }
  }

  /** A request that writes its claim at most `delay` seconds after reading the clock gives
    * it an epoch at most that much too early; without delay the order always holds. */
  lemma FreshReadingKeepsOrder(w: World, i: nat, j: nat, delay: nat)
    requires Reachable(w) && StartsOfOneKey(w.shared, i, j)
    requires w.shared.log[j].id in w.shared.born
    requires w.shared.born[w.shared.log[j].id].at <= w.shared.born[w.shared.log[j].id].createdAt + delay
    ensures exists m: nat :: i < m < j && IsSettlement(w.shared.log[m], w.shared.log[i].id)
              && w.shared.log[m].at + RETENTION_SECONDS < w.shared.born[w.shared.log[j].id].createdAt + delay
    ensures delay == 0 ==> InOrder(w.shared, i, j)
  {
    var m := BirthsFollowSettlements(w, i, j);
    assert IsSettlement(w.shared.log[m], w.shared.log[i].id);
    if delay == 0 { assert Precedes(w.shared, i, m, j); }
  }

  /** The run above is one in which the order fails, by such an insertion. */
  lemma OrderCanFail() returns (w: World)
    ensures Reachable(w) && StartsOfOneKey(w.shared, 0, 3)
    ensures !InOrder(w.shared, 0, 3) && InsertedOnOldReading(w.shared, 0, 3)
  {
    var schedule := CreationEpochMayPrecedeSettlement();
    w := Run(START, schedule);
    assert Reachable(w);
    CreationEpochsInOrderIff(w, 0, 3);
  }
}
