/** DefaultOpenAiRealtimeController in the browser: connection attempts, retries, the idle
  * timer and ownership of the one live connection. */
module ReconnectController {
  import opened Basics

  datatype Status = Off | Connecting | Connected | Reconnecting | Degraded

  // An attempt under way: the generation and idempotency key it was started with.
  datatype Attempt = Attempt(generation: nat, key: Id)

  // The fields of the controller; the attempts that have not arrived, the connections that
  // nobody has closed, and every attempt ever made.
  datatype State = State(
    generation: nat,
    status: Status,
    reconnectAttempt: nat,
    connection: Option<Id>,
    key: Id,
    disposed: bool,
    retry: Option<nat>,
    idleDeadline: Option<int>,
    inFlight: map<nat, Attempt>,
    unclosed: set<Id>,
    made: seq<Attempt>)

  datatype Arrival = Success(connection: Id, peerLost: bool) | PermanentFailure | RetryableFailure

  // Options of the controller: how many retry delays, and the idle timeout.
  datatype Options = Options(retries: nat, idleTimeout: int)

  const NEW: State := State(0, Off, 0, None, 0, false, None, None, map[], {}, [])

  // ----- The private helpers -----

  predicate IsCurrent(s: State, generation: nat) {
    !s.disposed && generation == s.generation
  }

  function CloseConnection(s: State): State {
    s.(connection := None, unclosed := if s.connection.Some? then s.unclosed - {s.connection.value} else s.unclosed)
  }

  function StartAttempt(s: State, i: nat, generation: nat): State {
    var attempt := Attempt(generation, s.key);
    s.(inFlight := s.inFlight[i := attempt], made := s.made + [attempt])
  }

  function ScheduleReconnect(s: State, generation: nat, retries: nat): State {
    var closed := CloseConnection(s.(idleDeadline := None));
    if s.reconnectAttempt >= retries then closed.(status := Degraded, reconnectAttempt := retries)
    else closed.(status := Reconnecting, reconnectAttempt := s.reconnectAttempt + 1, retry := Some(generation))
  }

  /** The peer of `connection` reports a state; `fresh` is a new idempotency key. */
  function PeerChanged(s: State, connection: Id, generation: nat, lost: bool, newKey: Id, retries: nat): State {
    if !IsCurrent(s, generation) || s.connection != Some(connection) || !s.status.Connected? || !lost then s
    else ScheduleReconnect(CloseConnection(s.(idleDeadline := None)).(key := newKey), generation, retries)
  }

  // ----- The entry points -----

  function Connect(s: State, i: nat, newKey: Id): State {
    if s.disposed || s.status.Connected? || s.status.Connecting? || s.status.Reconnecting? then s
    else StartAttempt(s.(generation := s.generation + 1, key := newKey, retry := None,
                         status := Connecting, reconnectAttempt := 0), i, s.generation + 1)
  }

  function Disconnect(s: State): State {
    if s.disposed then s
    else CloseConnection(s.(generation := s.generation + 1, retry := None, idleDeadline := None)).(
           status := Off, reconnectAttempt := 0)
  }

  function Close(s: State): State {
    if s.disposed then s else Disconnect(s).(disposed := true)
  }

  function MarkActivity(s: State, now: int, o: Options): State {
    if s.disposed || !s.status.Connected? then s else s.(idleDeadline := Some(now + o.idleTimeout))
  }

  /** The connection factory settles the promise of attempt `i`. */
  function Arrive(s: State, i: nat, arrival: Arrival, newKey: Id, now: int, o: Options): State
    requires i in s.inFlight
  {
    var generation := s.inFlight[i].generation;
    var landed := s.(inFlight := s.inFlight - {i});
    match arrival
    case Success(connection, peerLost) =>
      if !IsCurrent(s, generation) then landed.(unclosed := landed.unclosed - {connection})
      else
        var live := landed.(connection := Some(connection), unclosed := landed.unclosed + {connection},
                            status := Connected, reconnectAttempt := 0, idleDeadline := Some(now + o.idleTimeout));
        PeerChanged(live, connection, generation, peerLost, newKey, o.retries)
    case PermanentFailure =>
      if !IsCurrent(s, generation) then landed else landed.(status := Degraded, reconnectAttempt := 0)
    case RetryableFailure =>
      if !IsCurrent(s, generation) then landed else ScheduleReconnect(landed, generation, o.retries)
  }

  function RetryFires(s: State, i: nat): State
    requires s.retry.Some?
  {
    var fired := s.(retry := None);
    if IsCurrent(s, s.retry.value) then StartAttempt(fired, i, s.retry.value) else fired
  }

  function IdleFires(s: State, now: int): State
    requires s.idleDeadline.Some?
  {
    if s.disposed || !s.status.Connected? then s.(idleDeadline := None)
    else if s.idleDeadline.value > now then s
    else Disconnect(s)
  }

  // ----- The object -----

  class DefaultOpenAiRealtimeController {
    const options: Options
    var generation: nat
    var status: Status
    var reconnectAttempt: nat
    var connection: Option<Id>
    var connectionIdempotencyKey: Id
    var disposed: bool
    var retryTimer: Option<nat>
    var idleDeadline: Option<int>
    var inFlight: map<nat, Attempt>
    var unclosed: set<Id>
    ghost var made: seq<Attempt>

    ghost function Contents(): State
      reads this
    {
      State(generation, status, reconnectAttempt, connection, connectionIdempotencyKey, disposed,
            retryTimer, idleDeadline, inFlight, unclosed, made)
    }

    /** What the runs below keep; every entry point keeps it while keys and slots are new. */
    ghost predicate Valid()
      reads this
    {
      Sound(Contents(), options)
    }

    constructor (o: Options)
      ensures Contents() == NEW && options == o && Valid()
    {
      options := o;
      generation, status, reconnectAttempt, connection := 0, Off, 0, None;
      connectionIdempotencyKey, disposed, retryTimer, idleDeadline := 0, false, None, None;
      inFlight, unclosed, made := map[], {}, [];
    }

    method DropConnection()
      modifies this
      ensures Contents() == CloseConnection(old(Contents()))
    {
      if connection.Some? {
        unclosed := unclosed - {connection.value};
      }
      connection := None;
    }

    method Launch(i: nat, attemptGeneration: nat)
      modifies this
      ensures Contents() == StartAttempt(old(Contents()), i, attemptGeneration)
    {
      inFlight := inFlight[i := Attempt(attemptGeneration, connectionIdempotencyKey)];
      made := made + [Attempt(attemptGeneration, connectionIdempotencyKey)];
    }

    method ConnectNow(i: nat, newKey: Id)
      modifies this
      ensures Contents() == Connect(old(Contents()), i, newKey)
      ensures old(Valid()) && Possible(old(Contents()), ConnectAction(i, newKey)) ==> Valid()
    {
      if Valid() && Possible(Contents(), ConnectAction(i, newKey)) {
        ConnectKeeps(Contents(), i, newKey, options);
      }
      if disposed || status.Connected? || status.Connecting? || status.Reconnecting? {
        return;
      }
      generation := generation + 1;
      connectionIdempotencyKey := newKey;
      retryTimer := None;
      status, reconnectAttempt := Connecting, 0;
      Launch(i, generation);
    }

    method DisconnectNow()
      modifies this
      ensures Contents() == Disconnect(old(Contents()))
      ensures old(Valid()) ==> Valid()
    {
      if Valid() {
        DisconnectKeeps(Contents(), options);
      }
      if disposed {
        return;
      }
      generation := generation + 1;
      retryTimer := None;
      idleDeadline := None;
      DropConnection();
      status, reconnectAttempt := Off, 0;
    }

    method Dispose()
      modifies this
      ensures Contents() == Close(old(Contents()))
      ensures old(Valid()) ==> Valid()
    {
      if Valid() {
        CloseKeeps(Contents(), options);
      }
      if disposed {
        return;
      }
      DisconnectNow();
      disposed := true;
    }

    method RecordActivity(now: int)
      modifies this
      ensures Contents() == MarkActivity(old(Contents()), now, options)
      ensures old(Valid()) ==> Valid()
    {
      if Valid() {
        ActivityKeeps(Contents(), now, options);
      }
      if disposed || !status.Connected? {
        return;
      }
      idleDeadline := Some(now + options.idleTimeout);
    }

    method Reschedule(attemptGeneration: nat)
      modifies this
      ensures Contents() == ScheduleReconnect(old(Contents()), attemptGeneration, options.retries)
    {
      idleDeadline := None;
      DropConnection();
      var nextAttempt := reconnectAttempt + 1;
      if nextAttempt - 1 >= options.retries {
        status, reconnectAttempt := Degraded, options.retries;
        return;
      }
      status, reconnectAttempt := Reconnecting, nextAttempt;
      retryTimer := Some(attemptGeneration);
    }

    method PeerStateChanged(changed: Id, attemptGeneration: nat, lost: bool, newKey: Id)
      modifies this
      ensures Contents() == PeerChanged(old(Contents()), changed, attemptGeneration, lost, newKey, options.retries)
      ensures old(Valid()) && Possible(old(Contents()), PeerAction(changed, attemptGeneration, lost, newKey)) ==> Valid()
    {
      if Valid() && Possible(Contents(), PeerAction(changed, attemptGeneration, lost, newKey)) {
        PeerKeeps(Contents(), changed, attemptGeneration, lost, newKey, options);
      }
      if disposed || attemptGeneration != generation || connection != Some(changed) || !status.Connected? || !lost {
        return;
      }
      idleDeadline := None;
      DropConnection();
      connectionIdempotencyKey := newKey;
      Reschedule(attemptGeneration);
    }

    /** A connection of the current attempt, whose peer may be lost already. */
    method GoLive(arrived: Id, attemptGeneration: nat, peerLost: bool, newKey: Id, now: int)
      modifies this
      ensures Contents() == PeerChanged(
                old(Contents()).(connection := Some(arrived), unclosed := old(unclosed) + {arrived}, status := Connected,
                                 reconnectAttempt := 0, idleDeadline := Some(now + options.idleTimeout)),
                arrived, attemptGeneration, peerLost, newKey, options.retries)
    {
      unclosed := unclosed + {arrived};
      connection := Some(arrived);
      status, reconnectAttempt := Connected, 0;
      idleDeadline := Some(now + options.idleTimeout);
      PeerStateChanged(arrived, attemptGeneration, peerLost, newKey);
    }

    method AttemptArrives(i: nat, arrival: Arrival, newKey: Id, now: int)
      requires i in inFlight
      modifies this
      ensures Contents() == Arrive(old(Contents()), i, arrival, newKey, now, options)
      ensures old(Valid()) && Possible(old(Contents()), ArriveAction(i, arrival, newKey, now)) ==> Valid()
    {
      if Valid() && Possible(Contents(), ArriveAction(i, arrival, newKey, now)) {
        ArriveKeeps(Contents(), i, arrival, newKey, now, options);
      }
      var attemptGeneration := inFlight[i].generation;
      inFlight := inFlight - {i};
      var current := !disposed && attemptGeneration == generation;
      match arrival {
        case Success(arrived, peerLost) =>
          if current {
            GoLive(arrived, attemptGeneration, peerLost, newKey, now);
          } else {
            unclosed := unclosed - {arrived};
          }
        case PermanentFailure =>
          if current {
            status, reconnectAttempt := Degraded, 0;
          }
        case RetryableFailure =>
          if current {
            Reschedule(attemptGeneration);
          }
      }
    }

    method RetryTimerFires(i: nat)
      requires retryTimer.Some?
      modifies this
      ensures Contents() == RetryFires(old(Contents()), i)
      ensures old(Valid()) && Possible(old(Contents()), RetryAction(i)) ==> Valid()
    {
      if Valid() && Possible(Contents(), RetryAction(i)) {
        RetryKeeps(Contents(), i, options);
      }
      var attemptGeneration := retryTimer.value;
      retryTimer := None;
      if disposed || attemptGeneration != generation {
        return;
      }
      Launch(i, attemptGeneration);
    }

    method IdleTimerFires(now: int)
      requires idleDeadline.Some?
      modifies this
      ensures Contents() == IdleFires(old(Contents()), now)
      ensures old(Valid()) ==> Valid()
    {
      if Valid() {
        IdleKeeps(Contents(), now, options);
      }
      if disposed || !status.Connected? {
        idleDeadline := None;
        return;
      }
      if idleDeadline.value > now {
        return;
      }
      DisconnectNow();
    }
  }

  // ----- Runs -----

  datatype Action =
    | ConnectAction(i: nat, newKey: Id)
    | DisconnectAction
    | CloseAction
    | ActivityAction(now: int)
    | ArriveAction(i: nat, arrival: Arrival, newKey: Id, now: int)
    | PeerAction(connection: Id, generation: nat, lost: bool, newKey: Id)
    | RetryAction(i: nat)
    | IdleAction(now: int)

  predicate NewKey(s: State, key: Id) {
    key != s.key && forall a | a in s.made :: a.key != key
  }

  /** A step the environment can take: keys and attempt slots are new, timers are armed. */
  predicate Possible(s: State, action: Action) {
    match action
    case ConnectAction(i, newKey) => i !in s.inFlight && NewKey(s, newKey)
    case ArriveAction(i, arrival, newKey, _) =>
      i in s.inFlight && NewKey(s, newKey) && (arrival.Success? ==> arrival.connection !in s.unclosed)
    case PeerAction(_, _, _, newKey) => NewKey(s, newKey)
    case RetryAction(i) => s.retry.Some? && i !in s.inFlight
    case IdleAction(_) => s.idleDeadline.Some?
    case _ => true
  }

  function Next(s: State, action: Action, o: Options): State {
    if !Possible(s, action) then s
    else match action
      case ConnectAction(i, newKey) => Connect(s, i, newKey)
      case DisconnectAction => Disconnect(s)
      case CloseAction => Close(s)
      case ActivityAction(now) => MarkActivity(s, now, o)
      case ArriveAction(i, arrival, newKey, now) => Arrive(s, i, arrival, newKey, now, o)
      case PeerAction(connection, generation, lost, newKey) =>
        PeerChanged(s, connection, generation, lost, newKey, o.retries)
      case RetryAction(i) => RetryFires(s, i)
      case IdleAction(now) => IdleFires(s, now)
  }

  function Run(schedule: seq<Action>, o: Options): State {
    if schedule == [] then NEW else Next(Run(schedule[..|schedule|-1], o), schedule[|schedule|-1], o)
  }

  predicate HasCurrentAttempt(s: State) {
    exists i | i in s.inFlight :: s.inFlight[i].generation == s.generation
  }

  function AttemptsWith(made: seq<Attempt>, key: Id): nat {
    if made == [] then 0
    else AttemptsWith(made[..|made|-1], key) + if made[|made|-1].key == key then 1 else 0
  }

  /** The status tells exactly which one of the four situations the controller is in. */
  predicate OneSituation(s: State) {
    && (forall i, j | i in s.inFlight && j in s.inFlight && s.inFlight[i].generation == s.inFlight[j].generation :: i == j)
    && (forall i | i in s.inFlight :: s.inFlight[i].generation <= s.generation)
    && (s.connection.Some? <==> s.status.Connected?)
    && s.unclosed == (if s.connection.Some? then {s.connection.value} else {})
    && (s.idleDeadline.Some? <==> s.status.Connected?)
    && (s.retry.Some? ==> s.retry.value == s.generation && s.status.Reconnecting?)
    && (s.status.Connecting? ==> HasCurrentAttempt(s))
    && (s.status.Reconnecting? ==> (HasCurrentAttempt(s) <==> s.retry.None?))
    && (HasCurrentAttempt(s) ==> s.status.Connecting? || s.status.Reconnecting?)
    && (s.disposed ==> s.status.Off?)
  }

  predicate KeysBounded(s: State, o: Options) {
    && s.reconnectAttempt <= o.retries
    && (s.status.Connecting? ==> s.reconnectAttempt == 0)
    && (forall a | a in s.made :: AttemptsWith(s.made, a.key) <= 1 + o.retries)
    && (s.status.Connecting? ==> AttemptsWith(s.made, s.key) == 1)
    && (s.status.Reconnecting? ==>
          AttemptsWith(s.made, s.key) <= s.reconnectAttempt + (if HasCurrentAttempt(s) then 1 else 0))
    && (forall i | i in s.inFlight && s.inFlight[i].generation == s.generation :: s.inFlight[i].key == s.key)
  }

  predicate Sound(s: State, o: Options) {
    OneSituation(s) && KeysBounded(s, o)
  }

  lemma {:induction false} NewKeyIsUnused(made: seq<Attempt>, key: Id)
    requires forall a | a in made :: a.key != key
    ensures AttemptsWith(made, key) == 0
    decreases |made|
  {
    if made != [] { NewKeyIsUnused(made[..|made|-1], key); }
  }

  lemma OneMore(made: seq<Attempt>, a: Attempt, key: Id)
    ensures AttemptsWith(made + [a], key) == AttemptsWith(made, key) + if a.key == key then 1 else 0
  {
    assert (made + [a])[..|made|] == made;
  }

  /** Launching one more attempt of the current generation keeps every key within its bound. */
  lemma LaunchBound(s: State, i: nat, o: Options)
    requires forall a | a in s.made :: AttemptsWith(s.made, a.key) <= 1 + o.retries
    requires AttemptsWith(s.made, s.key) <= o.retries
    ensures var made := StartAttempt(s, i, s.generation).made;
            && (forall a | a in made :: AttemptsWith(made, a.key) <= 1 + o.retries)
            && AttemptsWith(made, s.key) == AttemptsWith(s.made, s.key) + 1
  {
    var attempt := Attempt(s.generation, s.key);
    OneMore(s.made, attempt, s.key);
    forall a | a in s.made + [attempt]
      ensures AttemptsWith(s.made + [attempt], a.key) <= 1 + o.retries
    {
      OneMore(s.made, attempt, a.key);
    }
  }

  /** Nothing of this generation is in flight, armed or live. */
  predicate Quiet(s: State) {
    && (forall i, j | i in s.inFlight && j in s.inFlight && s.inFlight[i].generation == s.inFlight[j].generation :: i == j)
    && (forall i | i in s.inFlight :: s.inFlight[i].generation < s.generation)
    && s.connection.None? && s.unclosed == {} && s.idleDeadline.None? && s.retry.None? && !s.disposed
  }

  lemma LaunchSituation(s: State, i: nat)
    requires Quiet(s) && i !in s.inFlight && (s.status.Connecting? || s.status.Reconnecting?)
    ensures OneSituation(StartAttempt(s, i, s.generation)) && HasCurrentAttempt(StartAttempt(s, i, s.generation))
  {
    var s' := StartAttempt(s, i, s.generation);
    assert s'.inFlight[i].generation == s'.generation;
  }

  lemma LaunchKeeps(s: State, i: nat, o: Options)
    requires Quiet(s) && i !in s.inFlight && (s.status.Connecting? || s.status.Reconnecting?)
    requires forall a | a in s.made :: AttemptsWith(s.made, a.key) <= 1 + o.retries
    requires AttemptsWith(s.made, s.key) <= s.reconnectAttempt <= o.retries
    requires s.status.Connecting? ==> s.reconnectAttempt == 0
    ensures Sound(StartAttempt(s, i, s.generation), o)
  {
    LaunchSituation(s, i);
    LaunchBound(s, i, o);
  }

  lemma ConnectKeeps(s: State, i: nat, newKey: Id, o: Options)
    requires Sound(s, o) && i !in s.inFlight && NewKey(s, newKey)
    ensures Sound(Connect(s, i, newKey), o)
  {
    if Connect(s, i, newKey) != s {
      NewKeyIsUnused(s.made, newKey);
      LaunchKeeps(s.(generation := s.generation + 1, key := newKey, retry := None,
                     status := Connecting, reconnectAttempt := 0), i, o);
    }
  }

  lemma DisconnectKeeps(s: State, o: Options)
    requires Sound(s, o)
    ensures Sound(Disconnect(s), o)
  {
  }

  lemma RescheduleKeeps(s: State, o: Options)
    requires OneSituation(s.(status := Reconnecting, connection := None, unclosed := {}, idleDeadline := None, retry := Some(s.generation)))
    requires s.unclosed == (if s.connection.Some? then {s.connection.value} else {}) && s.retry.None? && !s.disposed
    requires s.reconnectAttempt <= o.retries && AttemptsWith(s.made, s.key) <= s.reconnectAttempt + 1
    requires forall a | a in s.made :: AttemptsWith(s.made, a.key) <= 1 + o.retries
    ensures Sound(ScheduleReconnect(s, s.generation, o.retries), o)
  {
  }

  lemma PeerKeeps(s: State, connection: Id, generation: nat, lost: bool, newKey: Id, o: Options)
    requires Sound(s, o) && NewKey(s, newKey)
    ensures Sound(PeerChanged(s, connection, generation, lost, newKey, o.retries), o)
  {
    if IsCurrent(s, generation) && s.connection == Some(connection) && lost {
      NewKeyIsUnused(s.made, newKey);
      RescheduleKeeps(CloseConnection(s.(idleDeadline := None)).(key := newKey), o);
    }
  }

  /** The current attempt has arrived: nothing of this generation is in flight any more. */
  lemma Landed(s: State, i: nat)
    requires OneSituation(s) && i in s.inFlight
    ensures var landed := s.(inFlight := s.inFlight - {i});
            && (s.inFlight[i].generation == s.generation ==> !HasCurrentAttempt(landed))
            && (s.inFlight[i].generation != s.generation ==> (HasCurrentAttempt(landed) <==> HasCurrentAttempt(s)))
  {
    var landed := s.(inFlight := s.inFlight - {i});
    if s.inFlight[i].generation != s.generation && HasCurrentAttempt(s) {
      var j :| j in s.inFlight && s.inFlight[j].generation == s.generation;
      assert j in landed.inFlight;
    }
  }

  lemma SuccessKeeps(s: State, i: nat, connection: Id, peerLost: bool, newKey: Id, now: int, o: Options)
    requires Sound(s, o) && i in s.inFlight && NewKey(s, newKey) && connection !in s.unclosed
    ensures Sound(Arrive(s, i, Success(connection, peerLost), newKey, now, o), o)
  {
    Landed(s, i);
    var landed := s.(inFlight := s.inFlight - {i});
    if IsCurrent(s, s.inFlight[i].generation) {
      var live := landed.(connection := Some(connection), unclosed := landed.unclosed + {connection},
                          status := Connected, reconnectAttempt := 0, idleDeadline := Some(now + o.idleTimeout));
      assert HasCurrentAttempt(s);
      assert Sound(live, o);
      PeerKeeps(live, connection, s.inFlight[i].generation, peerLost, newKey, o);
    } else {
      assert landed.unclosed - {connection} == landed.unclosed;
    }
  }

  lemma FailureKeeps(s: State, i: nat, arrival: Arrival, newKey: Id, now: int, o: Options)
    requires Sound(s, o) && i in s.inFlight && !arrival.Success?
    ensures Sound(Arrive(s, i, arrival, newKey, now, o), o)
  {
    Landed(s, i);
    var landed := s.(inFlight := s.inFlight - {i});
    if IsCurrent(s, s.inFlight[i].generation) {
      assert HasCurrentAttempt(s);
      if arrival.RetryableFailure? { RescheduleKeeps(landed, o); }
    }
  }

  lemma ArriveKeeps(s: State, i: nat, arrival: Arrival, newKey: Id, now: int, o: Options)
    requires Sound(s, o) && Possible(s, ArriveAction(i, arrival, newKey, now))
    ensures Sound(Arrive(s, i, arrival, newKey, now, o), o)
  {
    if arrival.Success? {
      SuccessKeeps(s, i, arrival.connection, arrival.peerLost, newKey, now, o);
    } else {
      FailureKeeps(s, i, arrival, newKey, now, o);
    }
  }

  lemma IdleKeeps(s: State, now: int, o: Options)
    requires Sound(s, o) && s.idleDeadline.Some?
    ensures Sound(IdleFires(s, now), o)
  {
    DisconnectKeeps(s, o);
  }

  lemma RetryKeeps(s: State, i: nat, o: Options)
    requires Sound(s, o) && s.retry.Some? && i !in s.inFlight
    ensures Sound(RetryFires(s, i), o)
  {
    assert !HasCurrentAttempt(s);
    LaunchKeeps(s.(retry := None), i, o);
  }

  lemma NextKeeps(s: State, action: Action, o: Options)
    requires Sound(s, o)
    ensures Sound(Next(s, action, o), o)
  {
    if Possible(s, action) {
      match action
      case ConnectAction(i, newKey) => ConnectKeeps(s, i, newKey, o);
      case DisconnectAction => DisconnectKeeps(s, o);
      case CloseAction => CloseKeeps(s, o);
      case ActivityAction(now) => ActivityKeeps(s, now, o);
      case ArriveAction(i, arrival, newKey, now) =>
        ArriveKeeps(s, i, arrival, newKey, now, o);
      case PeerAction(connection, generation, lost, newKey) => PeerKeeps(s, connection, generation, lost, newKey, o);
      case RetryAction(i) => RetryKeeps(s, i, o);
      case IdleAction(now) => IdleKeeps(s, now, o);
    }
  }

  lemma CloseKeeps(s: State, o: Options)
    requires Sound(s, o)
    ensures Sound(Close(s), o)
  {
    DisconnectKeeps(s, o);
    assert HasCurrentAttempt(Close(s)) <==> HasCurrentAttempt(Disconnect(s));
  }

  lemma ActivityKeeps(s: State, now: int, o: Options)
    requires Sound(s, o)
    ensures Sound(MarkActivity(s, now, o), o)
  {
    assert HasCurrentAttempt(MarkActivity(s, now, o)) <==> HasCurrentAttempt(s);
  }

  lemma {:induction false} EveryRunIsSound(schedule: seq<Action>, o: Options)
    ensures Sound(Run(schedule, o), o)
    decreases |schedule|
  {
    if schedule != [] {
      EveryRunIsSound(schedule[..|schedule|-1], o);
      NextKeeps(Run(schedule[..|schedule|-1], o), schedule[|schedule|-1], o);
    }
  }

  // ----- The theorems -----

  function AsOne(b: bool): nat {
    if b then 1 else 0
  }

  /** The states of all runs. */
  ghost predicate Reachable(s: State, o: Options) {
    exists schedule :: Run(schedule, o) == s
  }

  /** In every run exactly one holds of: an attempt of the current generation is in flight,
    * the retry timer is armed, a connection is live, or the controller rests. At most the
    * live connection is unclosed, and no key is used for more than 1 + retries attempts. */
  lemma ExactlyOneSituation(s: State, o: Options)
    requires Reachable(s, o)
    ensures AsOne(HasCurrentAttempt(s)) + AsOne(s.retry.Some?) + AsOne(s.connection.Some?)
            + AsOne(s.status.Off? || s.status.Degraded?) == 1
    ensures |s.unclosed| <= 1 && (forall c | c in s.unclosed :: s.connection == Some(c))
    ensures forall a | a in s.made :: AttemptsWith(s.made, a.key) <= 1 + o.retries
    ensures s.disposed ==> s.unclosed == {} && s.retry.None? && s.idleDeadline.None?
  {
    var schedule :| Run(schedule, o) == s;
    EveryRunIsSound(schedule, o);
  }

  /** An attempt that succeeds is live if it is still current and its peer is not lost already,
    * and is closed at once if it is stale. */
  lemma SuccessConnects(s: State, i: nat, connection: Id, newKey: Id, now: int, o: Options)
    requires i in s.inFlight && connection !in s.unclosed
    ensures var s' := Arrive(s, i, Success(connection, false), newKey, now, o);
            if !s.disposed && s.inFlight[i].generation == s.generation then
              && s'.status == Connected && s'.connection == Some(connection) && connection in s'.unclosed
              && s'.idleDeadline == Some(now + o.idleTimeout) && s'.reconnectAttempt == 0 && i !in s'.inFlight
            else s' == s.(inFlight := s.inFlight - {i})
  {
    assert s.unclosed - {connection} == s.unclosed;
  }

  /** A current attempt that fails for good leaves the controller degraded, with no retry; one
    * that may be retried waits under the same key, or is degraded after the last delay. */
  lemma FailureDegrades(s: State, i: nat, newKey: Id, now: int, o: Options)
    requires Sound(s, o) && i in s.inFlight && !s.disposed && s.inFlight[i].generation == s.generation
    ensures var s' := Arrive(s, i, PermanentFailure, newKey, now, o);
            s'.status == Degraded && s'.retry == None && s'.connection == None && s'.reconnectAttempt == 0
    ensures var s' := Arrive(s, i, RetryableFailure, newKey, now, o);
            && s'.connection == None && s'.key == s.key
            && (if s.reconnectAttempt < o.retries
                then s'.status == Reconnecting && s'.retry == Some(s.generation) && s'.reconnectAttempt == s.reconnectAttempt + 1
                else s'.status == Degraded && s'.retry == None)
  {
    assert HasCurrentAttempt(s);
  }

  /** A live connection that is lost is closed and replaced: a new key, and the retry timer where
    * a retry is left. When it fires, the next attempt uses that key, and its success is live. */
  lemma LostPeerIsReplaced(s: State, connection: Id, newKey: Id, i: nat, next: Id, later: Id, now: int, o: Options)
    requires Sound(s, o) && s.connection == Some(connection) && !s.disposed && i !in s.inFlight && o.retries > 0
    requires s.reconnectAttempt == 0
    ensures var lost := PeerChanged(s, connection, s.generation, true, newKey, o.retries);
            && lost.status == Reconnecting && lost.connection == None && lost.unclosed == {} && lost.key == newKey
            && lost.retry == Some(s.generation) && lost.reconnectAttempt == 1
            && var retried := RetryFires(lost, i);
            && retried.made == s.made + [Attempt(s.generation, newKey)] && retried.inFlight[i] == Attempt(s.generation, newKey)
            && Arrive(retried, i, Success(next, false), later, now, o).connection == Some(next)
  {
  }

  /** A closed controller has let go of its connection and takes no request any more. */
  lemma ClosedStaysClosed(s: State, action: Action, o: Options)
    requires Sound(s, o)
    ensures var closed := Close(s);
            && closed.disposed && closed.status == Off && closed.connection == None && closed.unclosed == {}
            && closed.retry == None && closed.idleDeadline == None
            && var later := Next(closed, action, o);
            later.(inFlight := closed.inFlight) == closed
  {
  }

  /** The idle timer closes a connected controller exactly at its deadline; activity moves it. */
  lemma IdleUntilDeadline(s: State, active: int, now: int, o: Options)
    requires Sound(s, o) && s.status == Connected
    ensures var busy := MarkActivity(s, active, o);
            && busy.idleDeadline == Some(active + o.idleTimeout)
            && IdleFires(busy, now) == (if now < active + o.idleTimeout then busy else Disconnect(busy))
            && Disconnect(busy).status == Off && Disconnect(busy).connection == None && Disconnect(busy).unclosed == {}
  {
  }

  /** `rounds` more failures: each attempt fails in a way that may be retried, and the timer
    * launches the next one in the same slot. */
  function KeepFailing(s: State, i: nat, rounds: nat, o: Options): State
    requires Trying(s, i)
    decreases rounds
  {
    var failed := Arrive(s, i, RetryableFailure, 0, 0, o);
    if rounds == 0 || failed.retry.None? then failed
    else KeepFailing(RetryFires(failed, i), i, rounds - 1, o)
  }

  predicate Trying(s: State, i: nat) {
    i in s.inFlight && !s.disposed && s.retry.None? && s.inFlight[i] == Attempt(s.generation, s.key)
  }

  lemma {:induction false} KeepsFailing(s: State, i: nat, rounds: nat, o: Options)
    requires Trying(s, i) && s.reconnectAttempt + rounds == o.retries
    ensures var last := KeepFailing(s, i, rounds, o);
            && last.status.Degraded? && last.reconnectAttempt == o.retries && last.key == s.key
            && last.made == s.made + seq(rounds, _ => Attempt(s.generation, s.key))
    decreases rounds
  {
    var failed := Arrive(s, i, RetryableFailure, 0, 0, o);
    if rounds > 0 {
      var retried := RetryFires(failed, i);
      KeepsFailing(retried, i, rounds - 1, o);
      assert s.made + seq(rounds, _ => Attempt(s.generation, s.key))
          == (s.made + [Attempt(s.generation, s.key)]) + seq(rounds - 1, _ => Attempt(s.generation, s.key));
    } else {
      assert s.made + seq(0, _ => Attempt(s.generation, s.key)) == s.made;
    }
  }

  /** If every attempt after connect() fails with a retryable error, the controller is
    * degraded after exactly 1 + retries attempts, all with one idempotency key. */
  lemma DegradedAfterAllRetries(s: State, i: nat, newKey: Id, o: Options)
    requires !s.disposed && (s.status.Off? || s.status.Degraded?) && i !in s.inFlight
    ensures var last := KeepFailing(Connect(s, i, newKey), i, o.retries, o);
            && last.status.Degraded?
            && last.made == s.made + seq(1 + o.retries, _ => Attempt(s.generation + 1, newKey))
  {
    var connecting := Connect(s, i, newKey);
    KeepsFailing(connecting, i, o.retries, o);
    assert s.made + seq(1 + o.retries, _ => Attempt(s.generation + 1, newKey))
        == (s.made + [Attempt(s.generation + 1, newKey)]) + seq(o.retries, _ => Attempt(s.generation + 1, newKey));
  }
}
