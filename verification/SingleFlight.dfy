/**
 Duplicate-work coalescing (`SingleFlight`): each section under the lock is one atomic step, so any
 interleaving of callers is a sequence of steps. A `_Flight` object is named by its creation number.
 */
module SingleFlights {
  import opened Basics

  datatype Outcome = Returned(value: string) | Threw(error: string)

  datatype Flight = Flight(key: string, completedAt: Option<real>, outcome: Option<Outcome>, waiters: int)

  datatype Settings = Settings(maxEntries: int, ttl: real) {
    predicate Legal() { maxEntries > 0 && ttl >= 0.0 }
  }

  type Registry = map<string, nat>

  datatype State = State(flights: seq<Flight>, registry: Registry, leaders: nat, shared: nat,
                         waiting: int, timeouts: nat, rejections: nat)

  const EMPTY := State([], map[], 0, 0, 0, 0, 0)

  predicate Active(s: State, id: nat)
    requires id < |s.flights|
  {
    s.flights[id].completedAt.None?
  }

  predicate Wired(flights: seq<Flight>, registry: Registry) {
    forall key | key in registry :: registry[key] < |flights|
  }

  // ---- Choosing what to forget ----------------------------------------------

  /** The order of Python strings. */
  predicate Before(a: string, b: string) {
    if b == "" then false
    else if a == "" then true
    else if a[0] != b[0] then a[0] < b[0]
    else Before(a[1..], b[1..])
  }

  lemma {:induction false} BeforeTotal(a: string, b: string)
    requires a != b
    ensures Before(a, b) || Before(b, a)
  {
    if a != "" && b != "" && a[0] == b[0] {
      assert a == [a[0]] + a[1..] && b == [b[0]] + b[1..];
      BeforeTotal(a[1..], b[1..]);
    }
  }

  lemma {:induction false} BeforeChain(a: string, b: string, c: string)
    requires Before(a, b) && Before(b, c)
    ensures Before(a, c)
  {
    if a != "" && a[0] == b[0] == c[0] {
      BeforeChain(a[1..], b[1..], c[1..]);
    }
  }

  lemma {:induction false} BeforeIrreflexive(a: string)
    ensures !Before(a, a)
  {
    if a != "" {
      BeforeIrreflexive(a[1..]);
    }
  }

  predicate Completed(flights: seq<Flight>, registry: Registry, key: string)
    requires Wired(flights, registry)
  {
    key in registry && flights[registry[key]].completedAt.Some?
  }

  /** The tuple order of `(completed_at, key)`. */
  predicate Older(flights: seq<Flight>, registry: Registry, a: string, b: string)
    requires Wired(flights, registry) && Completed(flights, registry, a) && Completed(flights, registry, b)
  {
    var x, y := flights[registry[a]].completedAt.value, flights[registry[b]].completedAt.value;
    x < y || (x == y && Before(a, b))
  }

  /** `key` names the completed flight that comes first in that order. */
  ghost predicate IsOldest(flights: seq<Flight>, registry: Registry, key: string)
    requires Wired(flights, registry)
  {
    && Completed(flights, registry, key)
    && forall k | k in registry && k != key && Completed(flights, registry, k) :: Older(flights, registry, key, k)
  }

  lemma OnlyOneOldest(flights: seq<Flight>, registry: Registry, a: string, b: string)
    requires Wired(flights, registry) && IsOldest(flights, registry, a) && IsOldest(flights, registry, b)
    ensures a == b
  {
    if a != b {
      assert Older(flights, registry, a, b) && Older(flights, registry, b, a);
      BeforeChain(a, b, a);
      BeforeIrreflexive(a);
    }
  }

  function Without(registry: Registry, key: string): Registry {
    map k | k in registry && k != key :: registry[k]
  }

  /** `_expire_completed`. */
  function Expire(c: Settings, flights: seq<Flight>, registry: Registry, now: real): Registry
    requires Wired(flights, registry)
  {
    map k | k in registry && !(flights[registry[k]].completedAt.Some?
      && now - flights[registry[k]].completedAt.value >= c.ttl)
      :: registry[k]
  }

  /** No completed flight is left to evict. */
  ghost predicate AllActive(flights: seq<Flight>, registry: Registry)
    requires Wired(flights, registry)
  {
    forall k | k in registry :: !Completed(flights, registry, k)
  }

  /** `next` is the registry after one `_evict_oldest_completed` that returned True. */
  ghost predicate Evicts(flights: seq<Flight>, registry: Registry, next: Registry)
    requires Wired(flights, registry)
  {
    exists key :: IsOldest(flights, registry, key) && next == Without(registry, key)
  }

  // ---- The steps ------------------------------------------------------------

  /** What the first section of `run` decides for its caller. */
  datatype Role = Leads(id: nat) | Follows(id: nat, joinedActive: bool) | Rejected

  datatype Step =
    | Enter(key: string, now: real, role: Role)
    | Complete(id: nat, outcome: Outcome, now: real)
    | Depart(id: nat, timedOut: bool)
    | Invalidate(key: string)
    | Stats(now: real)

  /**
   The registry in which a new leader is admitted: unchanged below capacity; one eviction at capacity;
   `None` when everything registered is active.
   */
  ghost predicate MakesRoom(c: Settings, flights: seq<Flight>, registry: Registry, room: Option<Registry>)
    requires Wired(flights, registry)
  {
    if |registry| < c.maxEntries then room == Some(registry)
    else if AllActive(flights, registry) then room == None
    else room.Some? && Evicts(flights, registry, room.value)
  }

  ghost predicate Enters(c: Settings, s: State, t: State, key: string, now: real, role: Role)
    requires Wired(s.flights, s.registry)
  {
    var live := Expire(c, s.flights, s.registry, now);
    if key in live then
      var id := live[key];
      var active := Active(s, id);
      && role == Follows(id, active)
      && t == s.(registry := live, shared := s.shared + 1,
                 waiting := s.waiting + if active then 1 else 0,
                 flights := if active then s.flights[id := s.flights[id].(waiters := s.flights[id].waiters + 1)] else s.flights)
    else
      match role
      case Follows(_, _) => false
      case Rejected => MakesRoom(c, s.flights, live, None) && t == s.(registry := live, rejections := s.rejections + 1)
      case Leads(id) =>
        && id == |s.flights|
        && exists room :: MakesRoom(c, s.flights, live, Some(room))
             && t == s.(registry := room[key := id], leaders := s.leaders + 1,
                        flights := s.flights + [Flight(key, None, None, 0)])
  }

  /** One section takes the registry from s to t. */
  ghost predicate Moves(c: Settings, s: State, t: State, step: Step) {
    && Wired(s.flights, s.registry)
    && match step
       case Enter(key, now, role) => Enters(c, s, t, key, now, role)
       case Complete(id, outcome, now) =>     // only by the leader, and only once
         && id < |s.flights| && Active(s, id)
         && t == s.(flights := s.flights[id := s.flights[id].(completedAt := Some(now), outcome := Some(outcome))])
       case Depart(id, timedOut) =>           // only by a follower that joined while the flight was active
         && id < |s.flights| && s.flights[id].waiters > 0
         && t == s.(waiting := s.waiting - 1, timeouts := s.timeouts + if timedOut then 1 else 0,
                    flights := s.flights[id := s.flights[id].(waiters := s.flights[id].waiters - 1)])
       case Invalidate(key) =>
         t == s.(registry := if Completed(s.flights, s.registry, key) then Without(s.registry, key) else s.registry)
       case Stats(now) => t == s.(registry := Expire(c, s.flights, s.registry, now))
  }

  // ---- What every interleaving keeps ----------------------------------------

  function Waiters(flights: seq<Flight>): int {
    if flights == [] then 0 else Waiters(flights[..|flights| - 1]) + flights[|flights| - 1].waiters
  }

  lemma {:induction false} WaitersUpdate(flights: seq<Flight>, id: nat, f: Flight)
    requires id < |flights|
    ensures Waiters(flights[id := f]) == Waiters(flights) - flights[id].waiters + f.waiters
  {
    var n := |flights| - 1;
    if id == n {
      assert flights[id := f][..n] == flights[..n];
    } else {
      WaitersUpdate(flights[..n], id, f);
      assert flights[id := f][..n] == flights[..n][id := f];
    }
  }

  /** The registry is within its cap, and every active flight is the registered flight of its key. */
  ghost predicate Registered(c: Settings, flights: seq<Flight>, registry: Registry) {
    && Wired(flights, registry) && |registry| <= c.maxEntries
    && (forall key | key in registry :: flights[registry[key]].key == key)
    && (forall id: nat | id < |flights| && flights[id].completedAt.None? ::
          flights[id].key in registry && registry[flights[id].key] == id)
  }

  ghost predicate Sound(f: Flight) {
    f.waiters >= 0 && (f.outcome.Some? <==> f.completedAt.Some?)
  }

  ghost predicate Counted(flights: seq<Flight>, waiting: int, leaders: nat) {
    && (forall id | 0 <= id < |flights| :: Sound(flights[id]))
    && waiting == Waiters(flights) && leaders == |flights|
  }

  ghost predicate Kept(c: Settings, s: State) {
    Registered(c, s.flights, s.registry) && Counted(s.flights, s.waiting, s.leaders)
  }

  lemma Fewer(a: Registry, b: Registry)
    requires a.Keys <= b.Keys
    ensures |a| <= |b| && (a.Keys != b.Keys ==> |a| < |b|)
  {
    assert b.Keys == a.Keys + (b.Keys - a.Keys);
    if a.Keys != b.Keys {
      assert b.Keys - a.Keys != {};
    }
  }

  /** `less` forgets some completed flights of `registry` and nothing else. */
  ghost predicate Forgets(flights: seq<Flight>, registry: Registry, less: Registry)
    requires Wired(flights, registry)
  {
    && (forall k | k in less :: k in registry && less[k] == registry[k])
    && (forall k | k in registry && !Completed(flights, registry, k) :: k in less)
  }

  lemma RegisteredForgets(c: Settings, flights: seq<Flight>, registry: Registry, less: Registry)
    requires Registered(c, flights, registry) && Forgets(flights, registry, less)
    ensures Registered(c, flights, less)
  {
    Fewer(less, registry);
    forall id: nat | id < |flights| && flights[id].completedAt.None?
      ensures flights[id].key in less && less[flights[id].key] == id
    {
      assert !Completed(flights, registry, flights[id].key);
    }
  }

  /** A flight changes in place without becoming active again. */
  lemma RegisteredUpdate(c: Settings, flights: seq<Flight>, registry: Registry, id: nat, f: Flight)
    requires Registered(c, flights, registry) && id < |flights| && f.key == flights[id].key
    requires flights[id].completedAt.Some? ==> f.completedAt.Some?
    ensures Registered(c, flights[id := f], registry)
  {
  }

  lemma RegisteredLeader(c: Settings, flights: seq<Flight>, room: Registry, key: string)
    requires Registered(c, flights, room) && |room| < c.maxEntries && key !in room
    ensures Registered(c, flights + [Flight(key, None, None, 0)], room[key := |flights|])
  {
    assert room[key := |flights|].Keys == room.Keys + {key};
  }

  lemma CountedUpdate(flights: seq<Flight>, waiting: int, leaders: nat, id: nat, f: Flight)
    requires Counted(flights, waiting, leaders) && id < |flights| && Sound(f)
    ensures Counted(flights[id := f], waiting - flights[id].waiters + f.waiters, leaders)
  {
    WaitersUpdate(flights, id, f);
  }

  lemma CountedLeader(flights: seq<Flight>, waiting: int, leaders: nat, key: string)
    requires Counted(flights, waiting, leaders)
    ensures Counted(flights + [Flight(key, None, None, 0)], waiting, leaders + 1)
  {
    assert (flights + [Flight(key, None, None, 0)])[..|flights|] == flights;
  }

  /** Making room keeps every active flight and leaves a free entry. */
  lemma RoomIsFree(c: Settings, flights: seq<Flight>, live: Registry, room: Registry)
    requires c.Legal() && Registered(c, flights, live) && MakesRoom(c, flights, live, Some(room))
    ensures Forgets(flights, live, room) && |room| < c.maxEntries
  {
    if |live| >= c.maxEntries {
      var gone :| IsOldest(flights, live, gone) && room == Without(live, gone);
      Fewer(room, live);
    }
  }

  lemma EnterKeeps(c: Settings, s: State, t: State, key: string, now: real, role: Role)
    requires c.Legal() && Kept(c, s) && Enters(c, s, t, key, now, role)
    ensures Kept(c, t)
  {
    var live := Expire(c, s.flights, s.registry, now);
    assert Forgets(s.flights, s.registry, live);
    RegisteredForgets(c, s.flights, s.registry, live);
    match role
    case Follows(id, active) =>
      if active {
        var joined := s.flights[id].(waiters := s.flights[id].waiters + 1);
        RegisteredUpdate(c, s.flights, live, id, joined);
        CountedUpdate(s.flights, s.waiting, s.leaders, id, joined);
      }
    case Rejected =>
    case Leads(id) =>
      var room :| MakesRoom(c, s.flights, live, Some(room))
        && t == s.(registry := room[key := id], leaders := s.leaders + 1,
                   flights := s.flights + [Flight(key, None, None, 0)]);
      RoomIsFree(c, s.flights, live, room);
      RegisteredForgets(c, s.flights, live, room);
      RegisteredLeader(c, s.flights, room, key);
      CountedLeader(s.flights, s.waiting, s.leaders, key);
  }

  /** One flight changes in place: it completes, or a waiter leaves it. */
  lemma UpdateKeeps(c: Settings, s: State, t: State, id: nat, f: Flight)
    requires Kept(c, s) && id < |s.flights| && f.key == s.flights[id].key && Sound(f)
    requires s.flights[id].completedAt.Some? ==> f.completedAt.Some?
    requires t == s.(flights := s.flights[id := f], waiting := s.waiting - s.flights[id].waiters + f.waiters,
                     timeouts := t.timeouts)
    ensures Kept(c, t)
  {
    RegisteredUpdate(c, s.flights, s.registry, id, f);
    CountedUpdate(s.flights, s.waiting, s.leaders, id, f);
  }

  lemma ForgetKeeps(c: Settings, s: State, less: Registry)
    requires Kept(c, s) && Forgets(s.flights, s.registry, less)
    ensures Kept(c, s.(registry := less))
  {
    RegisteredForgets(c, s.flights, s.registry, less);
  }

  lemma StepKeeps(c: Settings, s: State, t: State, step: Step)
    requires c.Legal() && Kept(c, s) && Moves(c, s, t, step)
    ensures Kept(c, t)
  {
    match step
    case Enter(key, now, role) => EnterKeeps(c, s, t, key, now, role);
    case Complete(id, outcome, now) =>
      assert Sound(s.flights[id]);
      UpdateKeeps(c, s, t, id, s.flights[id].(completedAt := Some(now), outcome := Some(outcome)));
    case Depart(id, timedOut) =>
      assert Sound(s.flights[id]);
      UpdateKeeps(c, s, t, id, s.flights[id].(waiters := s.flights[id].waiters - 1));
    case Invalidate(key) => ForgetKeeps(c, s, t.registry);
    case Stats(now) => ForgetKeeps(c, s, t.registry);
  }

  // ---- Whole runs -----------------------------------------------------------

  /** `states` are the states between the sections `steps` of one interleaving. */
  ghost predicate Run(c: Settings, states: seq<State>, steps: seq<Step>) {
    && |states| == |steps| + 1 && states[0] == EMPTY
    && forall n: nat | n < |steps| :: MovesAt(c, states, steps, n)
  }

  ghost predicate MovesAt(c: Settings, states: seq<State>, steps: seq<Step>, n: nat)
    requires |states| == |steps| + 1 && n < |steps|
  {
    Moves(c, states[n], states[n + 1], steps[n])
  }

  /** The registry never passes its cap, and no active flight is ever forgotten. */
  lemma {:induction false} RunKeeps(c: Settings, states: seq<State>, steps: seq<Step>, n: nat)
    requires c.Legal() && Run(c, states, steps) && n < |states|
    ensures Kept(c, states[n])
  {
    if n > 0 {
      RunKeeps(c, states, steps, n - 1);
      assert MovesAt(c, states, steps, n - 1);
      StepKeeps(c, states[n - 1], states[n], steps[n - 1]);
    }
  }

  /** At most one flight per key is active, whatever was expired, evicted or invalidated. */
  lemma OneActivePerKey(c: Settings, states: seq<State>, steps: seq<Step>, n: nat, a: nat, b: nat)
    requires c.Legal() && Run(c, states, steps) && n < |states|
    requires a < |states[n].flights| && b < |states[n].flights|
    requires Active(states[n], a) && Active(states[n], b) && states[n].flights[a].key == states[n].flights[b].key
    ensures a == b
  {
    RunKeeps(c, states, steps, n);
  }

  lemma FlightStays(c: Settings, s: State, t: State, step: Step, id: nat)
    requires Moves(c, s, t, step) && id < |s.flights|
    ensures id < |t.flights| && t.flights[id].key == s.flights[id].key
    ensures !Active(s, id) ==> t.flights[id].(waiters := s.flights[id].waiters) == s.flights[id]
  {
  }

  /** What a flight ended with never changes, so a follower reads the outcome of the flight it joined. */
  lemma {:induction false} OutcomeIsFinal(c: Settings, states: seq<State>, steps: seq<Step>, m: nat, n: nat, id: nat)
    requires Run(c, states, steps) && m <= n < |states| && id < |states[m].flights|
    ensures id < |states[n].flights| && states[n].flights[id].key == states[m].flights[id].key
    ensures !Active(states[m], id) ==> states[n].flights[id].outcome == states[m].flights[id].outcome
                                       && states[n].flights[id].completedAt == states[m].flights[id].completedAt
  {
    if m < n {
      OutcomeIsFinal(c, states, steps, m, n - 1, id);
      assert MovesAt(c, states, steps, n - 1);
      FlightStays(c, states[n - 1], states[n], steps[n - 1], id);
    }
  }

  function Entered(steps: seq<Step>, n: nat): nat
    requires n <= |steps|
  {
    if n == 0 then 0 else Entered(steps, n - 1) + if steps[n - 1].Enter? then 1 else 0
  }

  /** Callers that joined an active flight and have not left it. */
  function StillWaiting(steps: seq<Step>, n: nat): int
    requires n <= |steps|
  {
    if n == 0 then 0 else
    StillWaiting(steps, n - 1)
    + (if steps[n - 1].Enter? && steps[n - 1].role.Follows? && steps[n - 1].role.joinedActive then 1 else 0)
    - (if steps[n - 1].Depart? then 1 else 0)
  }

  /** Every valid call leads, shares or is rejected; `followers_waiting` counts who has not left. */
  lemma {:induction false} CountersAccount(c: Settings, states: seq<State>, steps: seq<Step>, n: nat)
    requires Run(c, states, steps) && n < |states|
    ensures states[n].leaders + states[n].shared + states[n].rejections == Entered(steps, n)
    ensures states[n].waiting == StillWaiting(steps, n)
  {
    if n > 0 {
      CountersAccount(c, states, steps, n - 1);
      CountersStep(c, states, steps, n - 1);
    }
  }

  lemma CountersStep(c: Settings, states: seq<State>, steps: seq<Step>, n: nat)
    requires Run(c, states, steps) && n < |steps|
    ensures var s, t := states[n], states[n + 1];
            && t.leaders + t.shared + t.rejections == s.leaders + s.shared + s.rejections + (Entered(steps,
              n + 1) - Entered(steps, n))
            && t.waiting == s.waiting + (StillWaiting(steps, n + 1) - StillWaiting(steps, n))
  {
    assert MovesAt(c, states, steps, n);
  }

  /** A call is turned away exactly when the registry is full of active flights, none of them for its key. */
  lemma RejectedWhenAllActive(c: Settings, s: State, t: State, key: string, now: real, role: Role)
    requires c.Legal() && Kept(c, s) && Moves(c, s, t, Enter(key, now, role))
    ensures role == Rejected <==>
              key !in Expire(c, s.flights, s.registry, now)
              && |s.registry| == c.maxEntries && AllActive(s.flights, s.registry)
  {
    var live := Expire(c, s.flights, s.registry, now);
    Fewer(live, s.registry);
    if role == Rejected {
      assert |live| == c.maxEntries;
      assert live.Keys == s.registry.Keys;
      assert live == s.registry;
    } else if AllActive(s.flights, s.registry) {
      assert live == s.registry;
    }
  }

  // ---- The class ------------------------------------------------------------

  datatype CallResult =
    | ValueError
    | CapacityError
    | Timeout
    | Result(outcome: Outcome, isShared: bool)

  lemma RunAppend(c: Settings, states: seq<State>, steps: seq<Step>, t: State, step: Step)
    requires Run(c, states, steps) && Moves(c, states[|steps|], t, step)
    ensures Run(c, states + [t], steps + [step])
  {
    forall n: nat | n < |steps| + 1 ensures MovesAt(c, states + [t], steps + [step], n) {
      if n < |steps| {
        assert MovesAt(c, states, steps, n);
      }
    }
  }

  class SingleFlight {
    const c: Settings
    var flights: seq<Flight>
    var registry: Registry
    var leaders: nat
    var sharedResults: nat
    var followersWaiting: int
    var waitTimeouts: nat
    var capacityRejections: nat
    ghost var states: seq<State>
    ghost var steps: seq<Step>

    ghost function Current(): State
      reads this
    {
      State(flights, registry, leaders, sharedResults, followersWaiting, waitTimeouts, capacityRejections)
    }

    ghost predicate Valid()
      reads this
    {
      c.Legal() && Run(c, states, steps) && states[|steps|] == Current() && Kept(c, Current())
    }

    /** The interleaving so far, extended. */
    twostate predicate Grown()
      reads this
    {
      old(states) <= states && old(steps) <= steps
    }

    constructor (c: Settings)
      requires c.Legal()
      ensures Valid() && Current() == EMPTY && steps == [] && this.c == c
    {
      this.c := c;
      flights, registry := [], map[];
      leaders, sharedResults, followersWaiting, waitTimeouts, capacityRejections := 0, 0, 0, 0, 0;
      states, steps := [EMPTY], [];
    }

    /** Records a section whose effect on the fields has just been carried out. */
    ghost method Note(step: Step)
      requires c.Legal() && Run(c, states, steps) && Kept(c, states[|steps|])
      requires Moves(c, states[|steps|], Current(), step)
      modifies this`states, this`steps
      ensures Valid() && steps == old(steps) + [step] && states == old(states) + [Current()]
    {
      StepKeeps(c, states[|steps|], Current(), step);
      RunAppend(c, states, steps, Current(), step);
      states := states + [Current()];
      steps := steps + [step];
    }

    /** Sections of other callers: none of them completes our flight or leaves it in our place. */
    method Interleave(leading: Option<nat>, following: Option<nat>)
      requires Valid()
      requires leading.Some? ==> leading.value < |flights| && flights[leading.value].completedAt.None?
      requires following.Some? ==> following.value < |flights| && flights[following.value].waiters > 0
      modifies this
      ensures Valid() && Grown()
      ensures leading.Some? ==> leading.value < |flights| && flights[leading.value].completedAt.None?
      ensures following.Some? ==> following.value < |flights| && flights[following.value].waiters > 0
    {
    }

    method ExpireCompleted(now: real)
      requires Wired(flights, registry)
      modifies this`registry
      ensures registry == Expire(c, flights, old(registry), now)
    {
      registry := map k | k in registry && !(flights[registry[k]].completedAt.Some?
                                             && now - flights[registry[k]].completedAt.value >= c.ttl) :: registry[k];
    }

    /** The oldest completed flight, or `None` when nothing is completed. */
    method OldestCompleted() returns (oldest: Option<string>)
      requires Wired(flights, registry)
      ensures oldest.None? ==> AllActive(flights, registry)
      ensures oldest.Some? ==> IsOldest(flights, registry, oldest.value)
    {
      var keys := registry.Keys;
      oldest := None;
      while keys != {}
        invariant keys <= registry.Keys
        invariant oldest.Some? ==> Completed(flights, registry, oldest.value)
        invariant forall k | k in registry && k !in keys && Completed(flights, registry, k) ::
                    oldest.Some? && (k == oldest.value || Older(flights, registry, oldest.value, k))
        decreases keys
      {
        var k :| k in keys;
        keys := keys - {k};
        if Completed(flights, registry, k) && (oldest.None? || Older(flights, registry, k, oldest.value)) {
          if oldest.Some? {
            OldestReplaced(flights, registry, k, oldest.value);
          }
          oldest := Some(k);
        } else if Completed(flights, registry, k) && k != oldest.value {
          BeforeTotal(k, oldest.value);
        }
      }
    }

    method EvictOldestCompleted() returns (evicted: bool)
      requires Wired(flights, registry)
      modifies this`registry
      ensures evicted ==> Evicts(flights, old(registry), registry)
      ensures !evicted ==> AllActive(flights, old(registry)) && registry == old(registry)
    {
      var oldest := OldestCompleted();
      if oldest.None? {
        return false;
      }
      registry := Without(registry, oldest.value);
      return true;
    }

    /** The first section of `run`, under the lock. */
    method Enter(key: string, now: real) returns (role: Role)
      requires Valid()
      modifies this
      ensures Valid() && Grown()
      ensures steps == old(steps) + [Step.Enter(key, now, role)]
      ensures states == old(states) + [Current()] && Admits(Current(), key, role)
    {
      ghost var s := Current();
      role := Decide(key, now);
      EnterAdmits(c, s, Current(), key, now, role);
      Note(Step.Enter(key, now, role));
    }

    /** What that section does to the fields. */
    method Decide(key: string, now: real) returns (role: Role)
      requires c.Legal() && Registered(c, flights, registry)
      modifies this`flights, this`registry, this`leaders, this`sharedResults, this`followersWaiting,
        this`capacityRejections
      ensures Enters(c, old(Current()), Current(), key, now, role)
    {
      ghost var s := Current();
      ExpireCompleted(now);
      ghost var live := registry;
      if key in registry {
        role := Join(registry[key]);
        FollowerEnters(c, s, Current(), key, now, role);
      } else {
        EnterForgets(c, s.flights, s.registry, now);
        var room := MakeRoom();
        ghost var found := registry;
        role := Lead(key, room);
        if room {
          LeaderEnters(c, s, Current(), key, now, found);
        } else {
          RejectedEnters(c, s, Current(), key, now);
        }
      }
    }

    /** The follower branch. */
    method Join(id: nat) returns (role: Role)
      requires id < |flights|
      modifies this`flights, this`sharedResults, this`followersWaiting
      ensures role == Follows(id, old(Active(Current(), id)))
      ensures Current() == old(Current()).(shared := old(sharedResults) + 1,
                waiting := old(followersWaiting) + if role.joinedActive then 1 else 0,
                flights := if role.joinedActive then old(flights)[id := old(flights)[id].(waiters := old(flights)[id].waiters + 1)]
                           else old(flights))
    {
      sharedResults := sharedResults + 1;
      role := Follows(id, flights[id].completedAt.None?);
      if role.joinedActive {
        flights := flights[id := flights[id].(waiters := flights[id].waiters + 1)];
        followersWaiting := followersWaiting + 1;
      }
    }

    /** The leader branch, once the eviction loop has made room or failed to. */
    method Lead(key: string, room: bool) returns (role: Role)
      modifies this`flights, this`registry, this`leaders, this`capacityRejections
      ensures room ==> role == Leads(|old(flights)|)
      ensures room ==>
                Current() == old(Current()).(registry := old(registry)[key := |old(flights)|],
                  leaders := old(leaders) + 1,
                                             flights := old(flights) + [Flight(key, None, None, 0)])
      ensures !room ==> role == Rejected && Current() == old(Current()).(rejections := old(capacityRejections) + 1)
    {
      if !room {
        capacityRejections := capacityRejections + 1;
        return Rejected;
      }
      role := Leads(|flights|);
      registry := registry[key := |flights|];
      flights := flights + [Flight(key, None, None, 0)];
      leaders := leaders + 1;
    }

    /** The leader's second section, after its operation returned or raised. */
    method Finish(id: nat, outcome: Outcome, now: real)
      requires Valid() && id < |flights| && flights[id].completedAt.None?
      modifies this
      ensures Valid() && Grown() && steps == old(steps) + [Complete(id, outcome, now)]
      ensures flights == old(flights)[id := old(flights)[id].(completedAt := Some(now), outcome := Some(outcome))]
    {
      flights := flights[id := flights[id].(completedAt := Some(now), outcome := Some(outcome))];
      Note(Complete(id, outcome, now));
    }

    /** The section of a follower that joined an active flight, after its wait. */
    method Leave(id: nat, timedOut: bool)
      requires Valid() && id < |flights| && flights[id].waiters > 0
      modifies this
      ensures Valid() && Grown() && steps == old(steps) + [Depart(id, timedOut)]
      ensures |flights| == |old(flights)| && flights[id].outcome == old(flights)[id].outcome
    {
      flights := flights[id := flights[id].(waiters := flights[id].waiters - 1)];
      followersWaiting := followersWaiting - 1;
      waitTimeouts := waitTimeouts + if timedOut then 1 else 0;
      Note(Depart(id, timedOut));
    }

    /** `invalidate`. */
    method Forget(key: string)
      requires Valid()
      modifies this
      ensures Valid() && Grown() && steps == old(steps) + [Invalidate(key)]
    {
      if key in registry && flights[registry[key]].completedAt.Some? {
        registry := Without(registry, key);
      }
      Note(Invalidate(key));
    }

    /** `stats`: the active and the retained entries. */
    method CountEntries(now: real) returns (active: nat, retained: nat)
      requires Valid()
      modifies this
      ensures Valid() && Grown() && steps == old(steps) + [Stats(now)]
      ensures active == |set k | k in registry && flights[registry[k]].completedAt.None?| && retained == |registry|
    {
      ExpireCompleted(now);
      Note(Stats(now));
      active := |set k | k in registry && flights[registry[k]].completedAt.None?|;
      retained := |registry|;
    }

    /** Waits for the flight, and says whether it had completed when the wait returned. */
    method Wait(id: nat, joinedActive: bool) returns (completed: bool)
      requires Valid() && id < |flights| && (joinedActive ==> flights[id].waiters > 0)
      requires !joinedActive ==> flights[id].completedAt.Some?
      modifies this
      ensures Valid() && Grown() && id < |flights|
      ensures joinedActive ==> flights[id].waiters > 0
      ensures completed ==> flights[id].outcome.Some?
      ensures !joinedActive ==> completed && flights[id].outcome == old(flights)[id].outcome
    {
      if !joinedActive {
        return true;
      }
      Interleave(None, Some(id));
      completed := flights[id].completedAt.Some?;
    }

    /** The follower's part of `run`. */
    method Follow(id: nat, joinedActive: bool) returns (r: CallResult)
      requires Valid() && id < |flights| && (joinedActive ==> flights[id].waiters > 0)
      requires !joinedActive ==> flights[id].completedAt.Some?
      modifies this
      ensures Valid() && Grown() && id < |flights|
      ensures r.Timeout? || (r.Result? && r.isShared && flights[id].outcome == Some(r.outcome))
      ensures !joinedActive ==> !r.Timeout?
      ensures joinedActive ==> steps[|steps| - 1] == Depart(id, r.Timeout?)
    {
      var completed := Wait(id, joinedActive);
      if joinedActive {
        Leave(id, !completed);
      }
      if !completed {
        return Timeout;
      }
      r := Result(flights[id].outcome.value, true);
    }

    /** The leader's part of `run`; the operation may return or raise anything. */
    method LeadFlight(id: nat) returns (r: CallResult)
      requires Valid() && id < |flights| && flights[id].completedAt.None?
      modifies this
      ensures Valid() && Grown() && id < |flights|
      ensures r.Result? && !r.isShared && flights[id].outcome == Some(r.outcome)
      ensures steps[|steps| - 1].Complete? && steps[|steps| - 1].id == id
    {
      Interleave(Some(id), None);
      var outcome: Outcome := *;
      var now: real := *;
      Finish(id, outcome, now);
      r := Result(outcome, false);
    }

    /**
     `run`: section `at` decides the role. A leader returns its own outcome; a follower that does not
     time out returns the outcome of the very flight it joined, whatever became of the registry.
     */
    method Call(key: string, timeout: real, now: real) returns (r: CallResult, ghost at: nat)
      requires Valid()
      modifies this
      ensures Valid() && Grown()
      ensures r.ValueError? <==> key == "" || timeout < 0.0
      ensures r.ValueError? ==> steps == old(steps)
      ensures !r.ValueError? ==> at == |old(steps)| < |steps| && Answers(key, now, steps[at], r)
    {
      at := |steps|;
      if key == "" || timeout < 0.0 {
        return ValueError, at;
      }
      var role := Enter(key, now);
      ghost var m := |steps|;
      match role
      case Rejected => r := CapacityError;
      case Leads(id) =>
        r := LeadFlight(id);
        OutcomeIsFinal(c, states, steps, m, |steps|, id);
      case Follows(id, joinedActive) =>
        r := Follow(id, joinedActive);
        OutcomeIsFinal(c, states, steps, m, |steps|, id);
    }

    /** The entry section `step` and the caller's result belong together. */
    ghost predicate Answers(key: string, now: real, step: Step, r: CallResult)
      reads this
    {
      step.Enter? && step.key == key && step.now == now &&
      match step.role
      case Rejected => r.CapacityError?
      case Leads(id) => id < |flights| && flights[id].key == key && r.Result? && !r.isShared
                        && flights[id].outcome == Some(r.outcome)
      case Follows(id, active) => id < |flights| && flights[id].key == key
                                  && ((r.Timeout? && active) || (r.Result? && r.isShared
                                    && flights[id].outcome == Some(r.outcome)))
    }

    /** The eviction loop; below capacity it does nothing. */
    method MakeRoom() returns (room: bool)
      requires c.Legal() && Registered(c, flights, registry)
      modifies this`registry
      ensures room ==> MakesRoom(c, flights, old(registry), Some(registry))
      ensures !room ==> MakesRoom(c, flights, old(registry), None) && registry == old(registry)
    {
      while |registry| >= c.maxEntries
        invariant Wired(flights, registry)
        invariant registry == old(registry) || (|registry| < c.maxEntries && Evicts(flights, old(registry), registry))
        invariant |old(registry)| < c.maxEntries ==> registry == old(registry)
        decreases |registry|
      {
        var evicted := EvictOldestCompleted();
        if !evicted {
          return false;
        }
        EvictionFrees(flights, old(registry), registry);
      }
      return true;
    }
  }

  /** What the entry section hands to its caller. */
  predicate Admits(s: State, key: string, role: Role) {
    match role
    case Rejected => true
    case Leads(id) => id < |s.flights| && s.flights[id].key == key && Active(s, id)
    case Follows(id, joinedActive) =>
      && id < |s.flights| && s.flights[id].key == key
      && if joinedActive then s.flights[id].waiters > 0 else !Active(s, id)
  }

  lemma EnterAdmits(c: Settings, s: State, t: State, key: string, now: real, role: Role)
    requires c.Legal() && Kept(c, s) && Enters(c, s, t, key, now, role)
    ensures Admits(t, key, role)
  {
    if role.Follows? {
      assert Sound(s.flights[role.id]);
    }
  }

  lemma EnterForgets(c: Settings, flights: seq<Flight>, registry: Registry, now: real)
    requires Registered(c, flights, registry)
    ensures Registered(c, flights, Expire(c, flights, registry, now))
  {
    RegisteredForgets(c, flights, registry, Expire(c, flights, registry, now));
  }

  lemma FollowerEnters(c: Settings, s: State, t: State, key: string, now: real, role: Role)
    requires Wired(s.flights, s.registry)
    requires key in Expire(c, s.flights, s.registry, now)
    requires role == Follows(s.registry[key], Active(s, s.registry[key]))
    requires var id := s.registry[key];
             t == s.(registry := Expire(c, s.flights, s.registry, now), shared := s.shared + 1,
                     waiting := s.waiting + (if role.joinedActive then 1 else 0),
                     flights := if role.joinedActive then s.flights[id := s.flights[id].(waiters := s.flights[id].waiters + 1)]
                                else s.flights)
    ensures Enters(c, s, t, key, now, role)
  {
  }

  lemma RejectedEnters(c: Settings, s: State, t: State, key: string, now: real)
    requires Wired(s.flights, s.registry)
    requires key !in Expire(c, s.flights, s.registry, now)
    requires MakesRoom(c, s.flights, Expire(c, s.flights, s.registry, now), None)
    requires t == s.(registry := Expire(c, s.flights, s.registry, now), rejections := s.rejections + 1)
    ensures Enters(c, s, t, key, now, Rejected)
  {
  }

  lemma LeaderEnters(c: Settings, s: State, t: State, key: string, now: real, room: Registry)
    requires Wired(s.flights, s.registry)
    requires key !in Expire(c, s.flights, s.registry, now)
    requires MakesRoom(c, s.flights, Expire(c, s.flights, s.registry, now), Some(room))
    requires t == s.(registry := room[key := |s.flights|], leaders := s.leaders + 1,
                     flights := s.flights + [Flight(key, None, None, 0)])
    ensures Enters(c, s, t, key, now, Leads(|s.flights|))
  {
  }

  lemma EvictionFrees(flights: seq<Flight>, registry: Registry, next: Registry)
    requires Wired(flights, registry) && Evicts(flights, registry, next)
    ensures |next| < |registry| && Wired(flights, next) && next != registry
  {
    var key :| IsOldest(flights, registry, key) && next == Without(registry, key);
    Fewer(next, registry);
  }

  /** A new minimum is older than everything the previous minimum was older than. */
  lemma OldestReplaced(flights: seq<Flight>, registry: Registry, next: string, was: string)
    requires Wired(flights, registry) && Completed(flights, registry, next) && Completed(flights, registry, was)
    requires Older(flights, registry, next, was)
    ensures forall k | Completed(flights, registry, k)
             && Older(flights, registry, was, k) :: Older(flights, registry, next, k)
  {
    forall k | Completed(flights, registry, k)
      && Older(flights, registry, was, k) ensures Older(flights, registry, next, k) {
      if Before(next, was) && Before(was, k) {
        BeforeChain(next, was, k);
      }
    }
  }
}
