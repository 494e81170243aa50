/** Projections of the event log: the events since the last demo reset, positions visible to
  * one participant, and that participant's private disclosure candidates. */
module Projections {
  import opened Basics

  datatype Kind =
    | DemoResetCompleted
    | DisclosureProposed(id: Id, payload: Id)
    | DisclosurePreviewed(id: Id, payload: Id, previewHash: Id)
    | DisclosureApproved(id: Id, previewHash: Id)
    | DisclosureRejected(id: Id)
    | OtherEvent(rest: Id)

  // `owner` is None for a shared event.
  datatype Event = Event(position: nat, owner: Option<Id>, kind: Kind)

  // ----- eventsForActiveProjection -----

  /** findLastIndex, with |events| where there is none. */
  function LastReset(events: seq<Event>): nat {
    if events == [] then 0
    else
      var last := |events| - 1;
      if events[last].kind.DemoResetCompleted? then last
      else
        var before := LastReset(events[..last]);
        if before == last then |events| else before
  }

  function Renumbered(events: seq<Event>): seq<Event> {
    seq(|events|, i requires 0 <= i < |events| => events[i].(position := i + 1))
  }

  function Active(events: seq<Event>): seq<Event> {
    var reset := LastReset(events);
    if reset >= |events| then events else Renumbered(events[reset + 1..])
  }

  predicate IsReset(e: Event) {
    e.kind.DemoResetCompleted?
  }

  lemma {:induction false} LastResetMeans(events: seq<Event>)
    ensures var reset := LastReset(events);
            && reset <= |events|
            && (reset < |events| ==> IsReset(events[reset]))
            && (forall i | 0 <= i < |events| && (i > reset || reset == |events|) :: !IsReset(events[i]))
    decreases |events|
  {
    if events != [] { LastResetMeans(events[..|events|-1]); }
  }

  lemma {:induction false} LastResetIsUnique(events: seq<Event>, reset: nat)
    requires reset <= |events| && (reset < |events| ==> IsReset(events[reset]))
    requires forall i | 0 <= i < |events| && (i > reset || reset == |events|) :: !IsReset(events[i])
    ensures LastReset(events) == reset
  {
    LastResetMeans(events);
  }

  /** The active events hold no reset; after one they are exactly the later events, numbered
    * from 1. */
  lemma ActiveIsTail(events: seq<Event>)
    ensures forall e | e in Active(events) :: !IsReset(e)
    ensures forall i | 0 <= i < |events| && IsReset(events[i]) && (forall j | i < j < |events| :: !IsReset(events[j])) ::
              |Active(events)| == |events| - i - 1
              && forall k | 0 <= k < |Active(events)| :: Active(events)[k] == events[i + 1 + k].(position := k + 1)
    ensures (forall e | e in events :: !IsReset(e)) ==> Active(events) == events
  {
    LastResetMeans(events);
    forall i | 0 <= i < |events| && IsReset(events[i]) && (forall j | i < j < |events| :: !IsReset(events[j]))
      ensures LastReset(events) == i
    {
      LastResetIsUnique(events, i);
    }
  }

  lemma ActiveTwice(events: seq<Event>)
    ensures Active(Active(events)) == Active(events)
  {
    ActiveIsTail(events);
    ActiveIsTail(Active(events));
  }

  /** Appending an event and then projecting is projecting and then appending. */
  lemma ActiveAppend(events: seq<Event>, e: Event)
    ensures Active(events + [e]) ==
              if IsReset(e) then []
              else if exists r | r in events :: IsReset(r) then Active(events) + [e.(position := |Active(events)| + 1)]
              else events + [e]
  {
    var more := events + [e];
    LastResetMeans(events);
    assert more[..|events|] == events;
    if IsReset(e) {
      assert Active(more) == [];
    } else if exists r | r in events :: IsReset(r) {
      var reset := LastReset(events);
      LastResetIsUnique(more, reset);
      RenumberedAppend(events[reset + 1..], e);
      assert more[reset + 1..] == events[reset + 1..] + [e];
    }
  }

  lemma RenumberedAppend(events: seq<Event>, e: Event)
    ensures Renumbered(events + [e]) == Renumbered(events) + [e.(position := |events| + 1)]
  {
  }

  // ----- visiblePosition -----

  predicate VisibleTo(e: Event, participantId: Id) {
    e.owner.None? || e.owner.value == participantId
  }

  predicate Counted(e: Event, participantId: Id, through: Option<nat>) {
    (through.Some? ==> e.position <= through.value) && VisibleTo(e, participantId)
  }

  function VisiblePosition(events: seq<Event>, participantId: Id, through: Option<nat>): nat {
    if events == [] then 0
    else VisiblePosition(events[..|events|-1], participantId, through)
         + if Counted(events[|events|-1], participantId, through) then 1 else 0
  }

  function OnlyVisible(events: seq<Event>, participantId: Id): seq<Event> {
    if events == [] then []
    else
      var before := OnlyVisible(events[..|events|-1], participantId);
      if VisibleTo(events[|events|-1], participantId) then before + [events[|events|-1]] else before
  }

  lemma {:induction false} PositionOfVisible(events: seq<Event>, participantId: Id, through: Option<nat>)
    ensures VisiblePosition(OnlyVisible(events, participantId), participantId, through)
            == VisiblePosition(events, participantId, through)
    decreases |events|
  {
    if events != [] {
      var front, last := events[..|events|-1], events[|events|-1];
      PositionOfVisible(front, participantId, through);
      if VisibleTo(last, participantId) {
        assert (OnlyVisible(front, participantId) + [last])[..|OnlyVisible(front, participantId)|] == OnlyVisible(front, participantId);
      }
    }
  }

  /** The events that are shared or the participant's own, up to a position. */
  function CountedIndices(events: seq<Event>, participantId: Id, through: Option<nat>): set<nat> {
    set i | 0 <= i < |events|
      && (events[i].owner == None || events[i].owner == Some(participantId))
      && (through == None || events[i].position <= through.value)
  }

  /** visiblePosition is their number. */
  lemma {:induction false} PositionCounts(events: seq<Event>, participantId: Id, through: Option<nat>)
    ensures VisiblePosition(events, participantId, through) == |CountedIndices(events, participantId, through)|
    decreases |events|
  {
    if events != [] {
      var front, last := events[..|events|-1], |events| - 1;
      PositionCounts(front, participantId, through);
      var before, now := CountedIndices(front, participantId, through), CountedIndices(events, participantId, through);
      assert now == before + if last in now then {last} else {};
    }
  }

  // ----- privateDisclosureCandidates -----

  datatype Stage = Proposed | Previewed | Approved | Rejected

  datatype Candidate = Candidate(id: Id, payload: Id, previewHash: Option<Id>, stage: Stage)

  /** Looking up and setting a key of a JavaScript Map, which keeps insertion order. */
  function IndexOf(candidates: seq<Candidate>, id: Id): (at: nat)
    ensures at <= |candidates|
    ensures at < |candidates| ==> candidates[at].id == id
    ensures forall i | 0 <= i < at :: candidates[i].id != id
  {
    if candidates == [] || candidates[0].id == id then 0 else 1 + IndexOf(candidates[1..], id)
  }

  function Find(candidates: seq<Candidate>, id: Id): Option<Candidate> {
    var at := IndexOf(candidates, id);
    if at < |candidates| then Some(candidates[at]) else None
  }

  function Put(candidates: seq<Candidate>, c: Candidate): seq<Candidate> {
    var at := IndexOf(candidates, c.id);
    if at < |candidates| then candidates[at := c] else candidates + [c]
  }

  /** The candidate an event is about. */
  function Subject(kind: Kind): Option<Id> {
    match kind
    case DisclosureProposed(id, _) => Some(id)
    case DisclosurePreviewed(id, _, _) => Some(id)
    case DisclosureApproved(id, _) => Some(id)
    case DisclosureRejected(id) => Some(id)
    case _ => None
  }

  /** What an event makes of the candidate it is about. */
  function Moved(prior: Option<Candidate>, kind: Kind): Option<Candidate> {
    match kind
    case DisclosureProposed(id, payload) => Some(Candidate(id, payload, None, Proposed))
    case DisclosurePreviewed(_, payload, hash) =>
      if prior.None? then None else Some(prior.value.(payload := payload, previewHash := Some(hash), stage := Previewed))
    case DisclosureApproved(_, hash) =>
      if prior.None? then None else Some(prior.value.(previewHash := Some(hash), stage := Approved))
    case DisclosureRejected(_) =>
      if prior.None? then None else Some(prior.value.(stage := Rejected))
    case _ => prior
  }

  predicate Own(e: Event, participantId: Id) {
    e.owner == Some(participantId)
  }

  function After(candidates: seq<Candidate>, e: Event, participantId: Id): seq<Candidate> {
    if !Own(e, participantId) || Subject(e.kind).None? then candidates
    else
      var moved := Moved(Find(candidates, Subject(e.kind).value), e.kind);
      if moved.Some? then Put(candidates, moved.value) else candidates
  }

  function Candidates(events: seq<Event>, participantId: Id): seq<Candidate> {
    if events == [] then []
    else After(Candidates(events[..|events|-1], participantId), events[|events|-1], participantId)
  }

  /** The loop over the events, updating the map of candidates. */
  method PrivateDisclosureCandidates(events: seq<Event>, participantId: Id) returns (candidates: seq<Candidate>)
    ensures candidates == Candidates(events, participantId)
  {
    candidates := [];
    for i := 0 to |events|
      invariant candidates == Candidates(events[..i], participantId)
    {
      var event := events[i];
      assert events[..i+1][..i] == events[..i];
      if event.owner != Some(participantId) {
        continue;
      }
      match event.kind {
        case DisclosureProposed(id, payload) =>
          candidates := Put(candidates, Candidate(id, payload, None, Proposed));
        case DisclosurePreviewed(id, payload, hash) =>
          var prior := Find(candidates, id);
          if prior.Some? {
            candidates := Put(candidates, prior.value.(payload := payload, previewHash := Some(hash), stage := Previewed));
          }
        case DisclosureApproved(id, hash) =>
          var prior := Find(candidates, id);
          if prior.Some? {
            candidates := Put(candidates, prior.value.(previewHash := Some(hash), stage := Approved));
          }
        case DisclosureRejected(id) =>
          var prior := Find(candidates, id);
          if prior.Some? {
            candidates := Put(candidates, prior.value.(stage := Rejected));
          }
        case _ =>
      }
    }
    assert events[..|events|] == events;
  }

  // ----- What candidates depend on -----

  /** Events invisible to a participant have no influence on the participant's candidates. */
  lemma {:induction false} CandidatesOfVisible(events: seq<Event>, participantId: Id)
    ensures Candidates(OnlyVisible(events, participantId), participantId) == Candidates(events, participantId)
    decreases |events|
  {
    if events != [] {
      var front, last := events[..|events|-1], events[|events|-1];
      CandidatesOfVisible(front, participantId);
      if VisibleTo(last, participantId) {
        assert (OnlyVisible(front, participantId) + [last])[..|OnlyVisible(front, participantId)|] == OnlyVisible(front, participantId);
      }
    }
  }

  /** The history of one candidate alone. */
  function History(events: seq<Event>, participantId: Id, id: Id): Option<Candidate> {
    if events == [] then None
    else
      var prior := History(events[..|events|-1], participantId, id);
      var last := events[|events|-1];
      if Own(last, participantId) && Subject(last.kind) == Some(id) then Moved(prior, last.kind) else prior
  }

  predicate DistinctIds(candidates: seq<Candidate>) {
    forall i, j | 0 <= i < j < |candidates| :: candidates[i].id != candidates[j].id
  }

  lemma IndexIsUnique(candidates: seq<Candidate>, at: nat)
    requires DistinctIds(candidates) && at < |candidates|
    ensures IndexOf(candidates, candidates[at].id) == at
  {
  }

  lemma PutFinds(candidates: seq<Candidate>, c: Candidate, id: Id)
    requires DistinctIds(candidates)
    ensures DistinctIds(Put(candidates, c))
    ensures Find(Put(candidates, c), id) == if id == c.id then Some(c) else Find(candidates, id)
  {
    var at := IndexOf(candidates, c.id);
    var put := Put(candidates, c);
    IndexIsUnique(put, at);
    if id != c.id {
      var i := IndexOf(candidates, id);
      if i < |candidates| { IndexIsUnique(put, i); }
    }
  }

  lemma MovedKeepsId(prior: Option<Candidate>, kind: Kind)
    requires Subject(kind).Some? && (prior.Some? ==> prior.value.id == Subject(kind).value)
    ensures Moved(prior, kind).Some? ==> Moved(prior, kind).value.id == Subject(kind).value
  {
  }

  /** Candidates do not disturb each other: each one is the outcome of its own events. */
  lemma {:induction false} CandidatesAreIndependent(events: seq<Event>, participantId: Id, id: Id)
    ensures DistinctIds(Candidates(events, participantId))
    ensures Find(Candidates(events, participantId), id) == History(events, participantId, id)
    decreases |events|
  {
    if events != [] {
      var front, last := events[..|events|-1], events[|events|-1];
      var before := Candidates(front, participantId);
      CandidatesAreIndependent(front, participantId, id);
      if Own(last, participantId) && Subject(last.kind).Some? {
        var about := Subject(last.kind).value;
        var moved := Moved(Find(before, about), last.kind);
        MovedKeepsId(Find(before, about), last.kind);
        if moved.Some? { PutFinds(before, moved.value, id); }
      }
    }
  }

  // ----- What a candidate shows -----

  /** A participant's own event about candidate `id`. */
  predicate Concerns(e: Event, participantId: Id, id: Id) {
    && e.owner == Some(participantId)
    && match e.kind
       case DisclosureProposed(other, _) => other == id
       case DisclosurePreviewed(other, _, _) => other == id
       case DisclosureApproved(other, _) => other == id
       case DisclosureRejected(other) => other == id
       case _ => false
  }

  lemma {:induction false} UnconcernedEvents(events: seq<Event>, participantId: Id, id: Id, n: nat)
    requires n <= |events| && forall k | n <= k < |events| :: !Concerns(events[k], participantId, id)
    ensures History(events, participantId, id) == History(events[..n], participantId, id)
    decreases |events|
  {
    if n < |events| {
      UnconcernedEvents(events[..|events|-1], participantId, id, n);
      assert events[..|events|-1][..n] == events[..n];
    } else {
      assert events[..n] == events;
    }
  }

  /** There is a candidate exactly from its first own proposal on. */
  lemma {:induction false} ExistsOnceProposed(events: seq<Event>, participantId: Id, id: Id)
    ensures History(events, participantId, id).Some? <==>
              exists i :: 0 <= i < |events| && events[i].kind.DisclosureProposed? && Concerns(events[i], participantId, id)
    ensures History(events, participantId, id).Some? ==> History(events, participantId, id).value.id == id
    decreases |events|
  {
    if events != [] {
      var front, last := events[..|events|-1], |events| - 1;
      ExistsOnceProposed(front, participantId, id);
      assert forall i | 0 <= i < last :: front[i] == events[i];
    }
  }

  /** What a candidate shows is decided by the last own event about it: its stage by its kind,
    * and its payload and hash by what the event carries; an approval keeps the payload shown
    * before, a rejection the payload and the hash. */
  lemma LastEventDecides(events: seq<Event>, participantId: Id, id: Id, j: nat)
    requires j < |events| && Concerns(events[j], participantId, id)
    requires forall k | j < k < |events| :: !Concerns(events[k], participantId, id)
    requires Find(Candidates(events, participantId), id).Some?
    ensures var c := Find(Candidates(events, participantId), id).value;
            var before := Find(Candidates(events[..j], participantId), id);
            && c.id == id
            && match events[j].kind
               case DisclosureProposed(_, payload) => c.stage == Proposed && c.payload == payload && c.previewHash == None
               case DisclosurePreviewed(_, payload, hash) =>
                 c.stage == Previewed && c.payload == payload && c.previewHash == Some(hash)
               case DisclosureApproved(_, hash) =>
                 before.Some? && c.stage == Approved && c.payload == before.value.payload && c.previewHash == Some(hash)
               case DisclosureRejected(_) =>
                 && before.Some? && c.stage == Rejected
                 && c.payload == before.value.payload && c.previewHash == before.value.previewHash
               case _ => true
  {
    CandidatesAreIndependent(events, participantId, id);
    CandidatesAreIndependent(events[..j], participantId, id);
    UnconcernedEvents(events, participantId, id, j + 1);
    assert events[..j+1][..j] == events[..j];
    ExistsOnceProposed(events[..j], participantId, id);
  }

  /** And it is listed exactly once it was proposed. */
  lemma ListedOnceProposed(events: seq<Event>, participantId: Id, id: Id)
    ensures Find(Candidates(events, participantId), id).Some? <==>
              exists i :: 0 <= i < |events| && events[i].kind.DisclosureProposed? && Concerns(events[i], participantId, id)
  {
    CandidatesAreIndependent(events, participantId, id);
    ExistsOnceProposed(events, participantId, id);
  }

  // ----- Their order -----

  function FirstProposals(events: seq<Event>, participantId: Id): seq<Id> {
    if events == [] then []
    else
      var before := FirstProposals(events[..|events|-1], participantId);
      var last := events[|events|-1];
      if Own(last, participantId) && last.kind.DisclosureProposed? && last.kind.id !in before
      then before + [last.kind.id] else before
  }

  function Ids(candidates: seq<Candidate>): seq<Id> {
    seq(|candidates|, i requires 0 <= i < |candidates| => candidates[i].id)
  }

  lemma PutKeepsOrder(candidates: seq<Candidate>, c: Candidate)
    ensures Ids(Put(candidates, c)) == if c.id in Ids(candidates) then Ids(candidates) else Ids(candidates) + [c.id]
  {
    var at := IndexOf(candidates, c.id);
    if at < |candidates| { assert Ids(candidates)[at] == c.id; }
  }

  /** Candidates are listed in the order of their first proposal; proposing again, and every
    * later stage, keeps the place. */
  lemma {:induction false} FirstProposalOrder(events: seq<Event>, participantId: Id)
    ensures Ids(Candidates(events, participantId)) == FirstProposals(events, participantId)
    decreases |events|
  {
    if events != [] {
      var front, last := events[..|events|-1], events[|events|-1];
      var before := Candidates(front, participantId);
      FirstProposalOrder(front, participantId);
      if Own(last, participantId) && Subject(last.kind).Some? {
        var about := Subject(last.kind).value;
        var moved := Moved(Find(before, about), last.kind);
        MovedKeepsId(Find(before, about), last.kind);
        if moved.Some? {
          PutKeepsOrder(before, moved.value);
          if Find(before, about).Some? { assert Ids(before)[IndexOf(before, about)] == about; }
        }
      }
    }
  }
}
