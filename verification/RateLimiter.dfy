/**
 The sliding-window limiter and the in-flight table of the server. Each function body under
 `_rate_limit_lock` is one atomic step; the clock is read before the lock is taken.
 */
module RateLimiter {
  import opened Basics

  const WINDOW := 60.0

  type Store = map<string, seq<real>>

  datatype Settings = Settings(limit: int, maxClients: int) {
    predicate Legal() { limit > 0 && maxClients > 0 }
  }

  datatype Step = Call(client: string, now: real) | Cleanup(now: real)

  /** The timestamps after the cutoff, in order. */
  function Recent(ts: seq<real>, cutoff: real): seq<real> {
    if ts == [] then []
    else Recent(ts[..|ts| - 1], cutoff) + if ts[|ts| - 1] > cutoff then [ts[|ts| - 1]] else []
  }

  function Bucket(store: Store, client: string): seq<real> {
    if client in store then store[client] else []
  }

  /** Buckets with nothing after the cutoff are deleted; the others are kept as they are. */
  function Reclaim(store: Store, cutoff: real): Store {
    map k | k in store && Recent(store[k], cutoff) != [] :: store[k]
  }

  /** The store once a new client has forced a reclaim. */
  function Room(c: Settings, store: Store, client: string, cutoff: real): Store {
    if client !in store && |store| >= c.maxClients then Reclaim(store, cutoff) else store
  }

  predicate Turned(c: Settings, store: Store, client: string, cutoff: real) {
    client !in store && |Room(c, store, client, cutoff)| >= c.maxClients
  }

  /** Whether `_check_window_rate_limit` returns True. */
  predicate Admits(c: Settings, store: Store, client: string, now: real) {
    !Turned(c, store, client, now - WINDOW) && |Recent(Bucket(store, client), now - WINDOW)| < c.limit
  }

  function Apply(c: Settings, store: Store, step: Step): Store {
    var cutoff := step.now - WINDOW;
    match step
    case Call(client, now) =>
      var room := Room(c, store, client, cutoff);
      if Turned(c, store, client, cutoff) then room
      else
        var recent := Recent(Bucket(store, client), cutoff);
        room[client := if |recent| < c.limit then recent + [now] else recent]
    case Cleanup(now) =>
      map k | k in store && Recent(store[k], cutoff) != [] :: Recent(store[k], cutoff)
  }

  function RunAll(c: Settings, steps: seq<Step>): Store {
    if steps == [] then map[] else Apply(c, RunAll(c, steps[..|steps| - 1]), steps[|steps| - 1])
  }

  /** The store after the first n steps. */
  function Run(c: Settings, steps: seq<Step>, n: nat): Store
    requires n <= |steps|
  {
    RunAll(c, steps[..n])
  }

  lemma RunStep(c: Settings, steps: seq<Step>, n: nat)
    requires n < |steps|
    ensures Run(c, steps, n + 1) == Apply(c, Run(c, steps, n), steps[n])
  {
    assert steps[..n + 1][..n] == steps[..n];
  }

  // ---- The store stays within its cap ---------------------------------------

  lemma Smaller(a: Store, b: Store)
    requires a.Keys <= b.Keys
    ensures |a| <= |b|
  {
    assert b.Keys == a.Keys + (b.Keys - a.Keys);
  }

  lemma StepCapped(c: Settings, store: Store, step: Step)
    requires c.Legal() && |store| <= c.maxClients
    ensures |Apply(c, store, step)| <= c.maxClients
  {
    var cutoff, after := step.now - WINDOW, Apply(c, store, step);
    match step
    case Cleanup(now) => Smaller(after, store);
    case Call(client, now) =>
      var room := Room(c, store, client, cutoff);
      Smaller(room, store);
      if !Turned(c, store, client, cutoff) {
        assert after.Keys == room.Keys + {client};
      }
  }

  /** The store never tracks more clients than its cap, whatever the clock readings are. */
  lemma {:induction false} ClientsCapped(c: Settings, steps: seq<Step>, n: nat)
    requires c.Legal() && n <= |steps|
    ensures |Run(c, steps, n)| <= c.maxClients
  {
    if n > 0 {
      ClientsCapped(c, steps, n - 1);
      RunStep(c, steps, n - 1);
      StepCapped(c, Run(c, steps, n - 1), steps[n - 1]);
    }
  }

  // ---- Nothing in the window is forgotten -----------------------------------

  lemma {:induction false} RecentMembers(ts: seq<real>, cutoff: real)
    ensures forall t :: t in Recent(ts, cutoff) <==> t in ts && t > cutoff
  {
    if ts != [] {
      RecentMembers(ts[..|ts| - 1], cutoff);
      assert ts == ts[..|ts| - 1] + [ts[|ts| - 1]];
    }
  }

  /** Neither a call under pressure nor the background cleanup forgets a timestamp still in its window. */
  lemma StepRemembers(c: Settings, store: Store, step: Step, client: string, t: real)
    requires client in store && t in store[client] && t > step.now - WINDOW
    ensures client in Apply(c, store, step) && t in Apply(c, store, step)[client]
  {
    var recent := Recent(store[client], step.now - WINDOW);
    RecentMembers(store[client], step.now - WINDOW);
    assert t in recent && t in recent + [step.now];
    assert recent != [];
  }

  // ---- The window -----------------------------------------------------------

  predicate Sorted(ts: seq<real>) {
    forall i, j | 0 <= i < j < |ts| :: ts[i] <= ts[j]
  }

  /** Times recorded at admissions of this client among the first n steps. */
  function Times(c: Settings, steps: seq<Step>, n: nat, client: string): seq<real>
    requires n <= |steps|
  {
    if n == 0 then [] else
    Times(c, steps, n - 1, client) + NewTime(c, Run(c, steps, n - 1), steps[n - 1], client)
  }

  function NewTime(c: Settings, store: Store, step: Step, client: string): seq<real> {
    if step.Call? && step.client == client && Admits(c, store, client, step.now) then [step.now] else []
  }

  /** How many of the times lie in the half-open window (t - 60, t]. */
  function InWindow(ts: seq<real>, t: real): nat {
    if ts == [] then 0
    else InWindow(ts[..|ts| - 1], t) + if t - WINDOW < ts[|ts| - 1] <= t then 1 else 0
  }

  /** Any `limit + 1` consecutive admissions span at least a full window. */
  predicate Spaced(ts: seq<real>, limit: nat) {
    forall j | limit <= j < |ts| :: ts[j - limit] <= ts[j] - WINDOW
  }

  lemma {:induction false} InWindowTail(ts: seq<real>, t: real, m: nat)
    requires m <= |ts| && forall p | 0 <= p < m :: ts[p] <= t - WINDOW
    ensures InWindow(ts, t) <= |ts| - m
  {
    if ts != [] {
      InWindowTail(ts[..|ts| - 1], t, if m == |ts| then m - 1 else m);
    }
  }

  lemma {:induction false} SpacedWindow(ts: seq<real>, limit: nat, t: real)
    requires limit > 0 && Sorted(ts) && Spaced(ts, limit)
    ensures InWindow(ts, t) <= limit
  {
    if ts != [] {
      if ts[|ts| - 1] > t {
        SpacedWindow(ts[..|ts| - 1], limit, t);
      } else if |ts| > limit {
        assert ts[|ts| - 1 - limit] <= ts[|ts| - 1] - WINDOW;
        InWindowTail(ts, t, |ts| - limit);
      } else {
        InWindowTail(ts, t, 0);
      }
    }
  }

  lemma {:induction false} RecentNone(ts: seq<real>, cutoff: real)
    requires forall p | 0 <= p < |ts| :: ts[p] <= cutoff
    ensures Recent(ts, cutoff) == []
  {
    if ts != [] {
      RecentNone(ts[..|ts| - 1], cutoff);
    }
  }

  /** In a sorted list what is recent is a suffix. */
  lemma {:induction false} RecentIsSuffix(ts: seq<real>, cutoff: real) returns (d: nat)
    requires Sorted(ts)
    ensures d <= |ts| && Recent(ts, cutoff) == ts[d..]
    ensures forall p | 0 <= p < d :: ts[p] <= cutoff
    ensures forall p | d <= p < |ts| :: ts[p] > cutoff
  {
    if ts == [] {
      d := 0;
    } else if ts[|ts| - 1] <= cutoff {
      RecentNone(ts, cutoff);
      d := |ts|;
    } else {
      var init := ts[..|ts| - 1];
      d := RecentIsSuffix(init, cutoff);
      assert ts[d..] == init[d..] + [ts[|ts| - 1]];
    }
  }

  /** The bucket holds the client's latest admissions; the first d are forgotten and lie outside any later window. */
  predicate Remembers(bucket: seq<real>, times: seq<real>, d: nat, latest: real) {
    && d <= |times| && bucket == times[d..]
    && forall p | 0 <= p < d :: times[p] <= latest - WINDOW
  }

  ghost predicate Tracked(bucket: seq<real>, times: seq<real>, limit: nat, latest: real) {
    && Sorted(times) && Spaced(times, limit)
    && (forall p | 0 <= p < |times| :: times[p] <= latest)
    && exists d: nat :: Remembers(bucket, times, d, latest)
  }

  /** A bucket changes only by losing what left the window, and by the admission itself. */
  lemma BucketStep(c: Settings, store: Store, step: Step, client: string)
    ensures var before, after := Bucket(store, client), Bucket(Apply(c, store, step), client);
            var recent := Recent(before, step.now - WINDOW);
            || (NewTime(c, store, step, client) == [] && (after == before || after == recent))
            || (NewTime(c, store, step, client) == [step.now] && after == recent + [step.now] && |recent| < c.limit)
  {
  }

  lemma DropsOld(bucket: seq<real>, times: seq<real>, limit: nat, latest: real, now: real)
    requires Tracked(bucket, times, limit, latest) && latest <= now
    ensures Tracked(bucket, times, limit, now)
    ensures Tracked(Recent(bucket, now - WINDOW), times, limit, now)
  {
    var d: nat :| Remembers(bucket, times, d, latest);
    assert Remembers(bucket, times, d, now);
    var e := ForgetsOld(bucket, times, d, now);
  }

  lemma ForgetsOld(bucket: seq<real>, times: seq<real>, d: nat, now: real) returns (e: nat)
    requires Sorted(times) && Remembers(bucket, times, d, now)
    ensures Remembers(Recent(bucket, now - WINDOW), times, e, now)
  {
    assert Sorted(bucket);
    var dropped := RecentIsSuffix(bucket, now - WINDOW);
    e := d + dropped;
    forall p | d <= p < e ensures times[p] <= now - WINDOW {
      assert times[p] == bucket[p - d];
    }
    assert bucket[dropped..] == times[e..];
  }

  /** An admission keeps every `limit + 1` consecutive admissions a window apart. */
  lemma AdmitsSpaced(bucket: seq<real>, times: seq<real>, limit: nat, now: real)
    requires Tracked(bucket, times, limit, now) && |bucket| < limit
    ensures Tracked(bucket + [now], times + [now], limit, now)
  {
    var d: nat :| Remembers(bucket, times, d, now);
    assert Remembers(bucket + [now], times + [now], d, now);
  }

  predicate Monotone(steps: seq<Step>) {
    forall i, j | 0 <= i < j < |steps| :: steps[i].now <= steps[j].now
  }

  function Latest(steps: seq<Step>, n: nat): real
    requires n <= |steps|
  {
    if n == 0 then (if steps == [] then 0.0 else steps[0].now) else steps[n - 1].now
  }

  ghost predicate TrackedAt(c: Settings, steps: seq<Step>, n: nat, client: string)
    requires c.Legal() && n <= |steps|
  {
    Tracked(Bucket(Run(c, steps, n), client), Times(c, steps, n, client), c.limit, Latest(steps, n))
  }

  lemma TrackApply(c: Settings, store: Store, step: Step, client: string, times: seq<real>, latest: real)
    requires c.Legal() && latest <= step.now && Tracked(Bucket(store, client), times, c.limit, latest)
    ensures Tracked(Bucket(Apply(c, store, step), client), times + NewTime(c, store, step, client), c.limit, step.now)
  {
    BucketStep(c, store, step, client);
    TrackStep(Bucket(store, client), Bucket(Apply(c, store, step), client), times,
              NewTime(c, store, step, client), c.limit, latest, step.now);
  }

  lemma TrackNext(c: Settings, steps: seq<Step>, n: nat, client: string)
    requires c.Legal() && n < |steps| && Latest(steps, n) <= steps[n].now && TrackedAt(c, steps, n, client)
    ensures TrackedAt(c, steps, n + 1, client)
  {
    RunStep(c, steps, n);
    TrackApply(c, Run(c, steps, n), steps[n], client, Times(c, steps, n, client), Latest(steps, n));
  }

  lemma {:induction false} RunTracks(c: Settings, steps: seq<Step>, n: nat, client: string)
    requires c.Legal() && Monotone(steps) && n <= |steps|
    ensures TrackedAt(c, steps, n, client)
  {
    if n == 0 {
      assert Remembers([], [], 0, Latest(steps, 0));
    } else {
      RunTracks(c, steps, n - 1, client);
      TrackNext(c, steps, n - 1, client);
    }
  }

  lemma TrackStep(before: seq<real>, after: seq<real>, times: seq<real>, added: seq<real>, limit: nat, latest: real,
          now: real)
    requires latest <= now && Tracked(before, times, limit, latest)
    requires var recent := Recent(before, now - WINDOW);
             || (added == [] && (after == before || after == recent))
             || (added == [now] && after == recent + [now] && |recent| < limit)
    ensures Tracked(after, times + added, limit, now)
  {
    DropsOld(before, times, limit, latest, now);
    if added == [] {
      assert times + added == times;
    } else {
      AdmitsSpaced(Recent(before, now - WINDOW), times, limit, now);
    }
  }

  /** With non-decreasing call times, any 60-second window admits at most `limit` calls of a client. */
  lemma WindowAdmitsAtMostLimit(c: Settings, steps: seq<Step>, client: string, t: real)
    requires c.Legal() && Monotone(steps)
    ensures InWindow(Times(c, steps, |steps|, client), t) <= c.limit
  {
    RunTracks(c, steps, |steps|, client);
    SpacedWindow(Times(c, steps, |steps|, client), c.limit, t);
  }

  /** The client has a bucket, or the store has room for one, at the latest after dropping idle clients. */
  predicate HasRoom(c: Settings, store: Store, client: string, now: real) {
    client in store || |store| < c.maxClients || |Reclaim(store, now - WINDOW)| < c.maxClients
  }

  lemma AdmitsMeans(c: Settings, store: Store, client: string, now: real)
    ensures Admits(c, store, client, now) <==>
              HasRoom(c, store, client, now) && |Recent(Bucket(store, client), now - WINDOW)| < c.limit
  {
  }

  /** A client with room in the store is refused exactly when its last 60 seconds are full. */
  lemma AdmitsExactly(c: Settings, steps: seq<Step>, n: nat, client: string, now: real)
    requires c.Legal() && Monotone(steps) && n <= |steps| && Latest(steps, n) <= now
    ensures Admits(c, Run(c, steps, n), client, now) <==>
              HasRoom(c, Run(c, steps, n), client, now) && InWindow(Times(c, steps, n, client), now) < c.limit
  {
    var store := Run(c, steps, n);
    RunTracks(c, steps, n, client);
    RecentCounts(Bucket(store, client), Times(c, steps, n, client), c.limit, Latest(steps, n), now);
    AdmitsMeans(c, store, client, now);
  }

  lemma RecentCounts(bucket: seq<real>, times: seq<real>, limit: nat, latest: real, now: real)
    requires Tracked(bucket, times, limit, latest) && latest <= now
    ensures |Recent(bucket, now - WINDOW)| == InWindow(times, now)
  {
    var d: nat :| Remembers(bucket, times, d, latest);
    SuffixCounts(bucket, times, d, latest, now);
  }

  lemma SuffixCounts(bucket: seq<real>, times: seq<real>, d: nat, latest: real, now: real)
    requires Remembers(bucket, times, d, latest) && Sorted(times) && latest <= now
    requires forall p | 0 <= p < |times| :: times[p] <= latest
    ensures |Recent(bucket, now - WINDOW)| == InWindow(times, now)
  {
    var e := RecentIsSuffix(bucket, now - WINDOW);
    forall p | 0 <= p < d + e ensures times[p] <= now - WINDOW {
      if p >= d {
        assert bucket[p - d] == times[p];
      }
    }
    forall p | d + e <= p < |times| ensures times[p] > now - WINDOW {
      assert bucket[p - d] == times[p];
    }
    InWindowExactly(times, now, d + e);
  }

  lemma {:induction false} InWindowExactly(ts: seq<real>, t: real, m: nat)
    requires m <= |ts| && (forall p | 0 <= p < m :: ts[p] <= t - WINDOW)
    requires forall p | m <= p < |ts| :: t - WINDOW < ts[p] <= t
    ensures InWindow(ts, t) == |ts| - m
  {
    if ts != [] {
      InWindowExactly(ts[..|ts| - 1], t, if m == |ts| then m - 1 else m);
    }
  }

  // ---- Where the limit is passed --------------------------------------------

  /** n calls of one client at one time. */
  function Burst(client: string, now: real, n: nat): seq<Step> {
    seq(n, _ => Call(client, now))
  }

  function Same(now: real, n: nat): seq<real> {
    seq(n, _ => now)
  }

  lemma RunAppend(c: Settings, steps: seq<Step>, step: Step)
    ensures Run(c, steps + [step], |steps| + 1) == Apply(c, Run(c, steps, |steps|), step)
  {
    assert (steps + [step])[..|steps|] == steps[..|steps|];
    RunStep(c, steps + [step], |steps|);
  }

  lemma {:induction false} TimesPrefix(c: Settings, steps: seq<Step>, step: Step, n: nat, client: string)
    requires n <= |steps|
    ensures Times(c, steps + [step], n, client) == Times(c, steps, n, client)
  {
    if n > 0 {
      TimesPrefix(c, steps, step, n - 1, client);
      assert (steps + [step])[..n - 1] == steps[..n - 1];
    }
  }

  lemma TimesAppend(c: Settings, steps: seq<Step>, step: Step, client: string)
    ensures Times(c, steps + [step], |steps| + 1, client)
            == Times(c, steps, |steps|, client) + NewTime(c, Run(c, steps, |steps|), step, client)
  {
    TimesPrefix(c, steps, step, |steps|, client);
    assert (steps + [step])[..|steps|] == steps[..|steps|];
  }

  /** The store after some steps, and the times admitted to a client on the way. */
  type Trail = (Store, seq<real>)

  function TrailOf(c: Settings, client: string): seq<Step> -> Trail {
    (steps: seq<Step>) => (Run(c, steps, |steps|), Times(c, steps, |steps|, client))
  }

  function Next(c: Settings, client: string, trail: Trail, step: Step): Trail {
    (Apply(c, trail.0, step), trail.1 + NewTime(c, trail.0, step, client))
  }

  /** `run` starts from nothing and follows the steps. */
  ghost predicate Follows(c: Settings, client: string, run: seq<Step> -> Trail) {
    run([]) == (map[], []) && forall steps, step :: FollowsStep(c, client, run, steps, step)
  }

  ghost predicate FollowsStep(c: Settings, client: string, run: seq<Step> -> Trail, steps: seq<Step>, step: Step) {
    run(steps + [step]) == Next(c, client, run(steps), step)
  }

  lemma TrailFollows(c: Settings, client: string)
    ensures Follows(c, client, TrailOf(c, client))
  {
    forall steps, step ensures FollowsStep(c, client, TrailOf(c, client), steps, step) {
      RunAppend(c, steps, step);
      TimesAppend(c, steps, step, client);
    }
  }

  lemma {:induction false} RecentAll(now: real, n: nat)
    ensures Recent(Same(now, n), now - WINDOW) == Same(now, n)
  {
    if n > 0 {
      RecentAll(now, n - 1);
      assert Same(now, n)[..n - 1] == Same(now, n - 1);
    }
  }

  lemma {:induction false} InWindowAppend(ts: seq<real>, now: real, n: nat)
    ensures InWindow(ts + Same(now, n), now) == InWindow(ts, now) + n
  {
    if n > 0 {
      InWindowAppend(ts, now, n - 1);
      assert (ts + Same(now, n))[..|ts| + n - 1] == ts + Same(now, n - 1);
    } else {
      assert ts + Same(now, n) == ts;
    }
  }

  /** Nobody else is tracked, and the client's bucket is empty for a call at this time. */
  predicate Idle(store: Store, client: string, now: real) {
    store.Keys <= {client} && Recent(Bucket(store, client), now - WINDOW) == []
  }

  /** An idle client's next calls, up to the limit, are all admitted at the time they read. */
  lemma {:induction false} BurstFills(c: Settings, client: string, run: seq<Step> -> Trail, steps: seq<Step>,
                                      store: Store, times: seq<real>, now: real, n: nat)
    requires c.Legal() && Follows(c, client, run) && n <= c.limit
    requires run(steps) == (store, times) && Idle(store, client, now)
    ensures run(steps + Burst(client, now, n)) == (Filled(store, client, now, n), times + Same(now, n))
  {
    if n == 0 {
      assert steps + Burst(client, now, 0) == steps && times + Same(now, 0) == times;
    } else {
      BurstFills(c, client, run, steps, store, times, now, n - 1);
      CallFills(c, client, run, steps + Burst(client, now, n - 1), store, times, now, n - 1);
      assert steps + Burst(client, now, n) == steps + Burst(client, now, n - 1) + [Call(client, now)];
    }
  }

  lemma CallFills(c: Settings, client: string, run: seq<Step> -> Trail, steps: seq<Step>, store: Store,
                  times: seq<real>, now: real, n: nat)
    requires c.Legal() && Follows(c, client, run) && n < c.limit && Idle(store, client, now)
    requires run(steps) == (Filled(store, client, now, n), times + Same(now, n))
    ensures run(steps + [Call(client, now)]) == (Filled(store, client, now, n + 1), times + Same(now, n + 1))
  {
    assert FollowsStep(c, client, run, steps, Call(client, now));
    RecentAll(now, n);
    OneMore(c, Filled(store, client, now, n), client, now, n);
    assert times + Same(now, n + 1) == times + Same(now, n) + [now];
  }

  function Filled(store: Store, client: string, now: real, n: nat): Store {
    if n == 0 then store else map[client := Same(now, n)]
  }

  lemma OneMore(c: Settings, store: Store, client: string, now: real, n: nat)
    requires c.Legal() && n < c.limit && store.Keys <= {client}
    requires Recent(Bucket(store, client), now - WINDOW) == Same(now, n)
    ensures Admits(c, store, client, now) && Apply(c, store, Call(client, now)) == map[client := Same(now, n + 1)]
  {
    if client !in store {
      assert store == map[];
    }
    assert Same(now, n) + [now] == Same(now, n + 1);
  }

  /** How many of the times lie in the window [t - 60, t], closed at both ends. */
  function InClosed(ts: seq<real>, t: real): nat {
    if ts == [] then 0
    else InClosed(ts[..|ts| - 1], t) + if t - WINDOW <= ts[|ts| - 1] <= t then 1 else 0
  }

  lemma {:induction false} ClosedIsTwoWindows(ts: seq<real>, t: real)
    ensures InClosed(ts, t) <= InWindow(ts, t) + InWindow(ts, t - WINDOW)
  {
    if ts != [] {
      ClosedIsTwoWindows(ts[..|ts| - 1], t);
    }
  }

  /** A window closed at both ends holds at most twice the limit. */
  lemma ClosedWindowBound(c: Settings, steps: seq<Step>, client: string, t: real)
    requires c.Legal() && Monotone(steps)
    ensures InClosed(Times(c, steps, |steps|, client), t) <= 2 * c.limit
  {
    ClosedIsTwoWindows(Times(c, steps, |steps|, client), t);
    WindowAdmitsAtMostLimit(c, steps, client, t);
    WindowAdmitsAtMostLimit(c, steps, client, t - WINDOW);
  }

  /** ... and it can hold that many: `limit` calls at each of its ends. */
  lemma ClosedWindowHoldsMore(c: Settings, client: string)
    requires c.Legal()
    ensures var steps := Burst(client, 0.0, c.limit) + Burst(client, WINDOW, c.limit);
            Monotone(steps) && InClosed(Times(c, steps, |steps|, client), WINDOW) == 2 * c.limit
  {
    TrailFollows(c, client);
    TwoBursts(c, client, TrailOf(c, client));
    InClosedSame(Same(0.0, c.limit), WINDOW, c.limit);
    InClosedEnd(c.limit);
  }

  lemma TwoBursts(c: Settings, client: string, run: seq<Step> -> Trail)
    requires c.Legal() && Follows(c, client, run)
    ensures run(Burst(client, 0.0, c.limit) + Burst(client, WINDOW, c.limit)).1
            == Same(0.0, c.limit) + Same(WINDOW, c.limit)
  {
    var first := Burst(client, 0.0, c.limit);
    BurstFills(c, client, run, [], map[], [], 0.0, c.limit);
    assert [] + first == first && [] + Same(0.0, c.limit) == Same(0.0, c.limit);
    RecentNone(Same(0.0, c.limit), 0.0);
    BurstFills(c, client, run, first, map[client := Same(0.0, c.limit)], Same(0.0, c.limit), WINDOW, c.limit);
  }

  lemma {:induction false} InClosedSame(ts: seq<real>, now: real, n: nat)
    ensures InClosed(ts + Same(now, n), now) == InClosed(ts, now) + n
  {
    if n > 0 {
      InClosedSame(ts, now, n - 1);
      assert (ts + Same(now, n))[..|ts| + n - 1] == ts + Same(now, n - 1);
    } else {
      assert ts + Same(now, n) == ts;
    }
  }

  lemma {:induction false} InClosedEnd(n: nat)
    ensures InClosed(Same(0.0, n), WINDOW) == n
  {
    if n > 0 {
      InClosedEnd(n - 1);
      assert Same(0.0, n)[..n - 1] == Same(0.0, n - 1);
    }
  }

  /** k times over: a burst of callers that read 0, and a cleanup that reads a full window later. */
  function Overtaken(c: Settings, client: string, k: nat): seq<Step>
    requires c.Legal()
  {
    if k == 0 then [] else Overtaken(c, client, k - 1) + Burst(client, 0.0, c.limit) + [Cleanup(WINDOW)]
  }

  /**
   The clock is read before the lock: callers that were overtaken while they waited are admitted into a window
   that was already full, and there is no bound on how many one window then holds.
   */
  lemma OvertakenCallerPasses(c: Settings, client: string, k: nat)
    requires c.Legal()
    ensures var steps := Overtaken(c, client, k);
            InWindow(Times(c, steps, |steps|, client), 0.0) == k * c.limit
  {
    TrailFollows(c, client);
    Rounds(c, client, TrailOf(c, client), k);
  }

  lemma {:induction false} Rounds(c: Settings, client: string, run: seq<Step> -> Trail, k: nat)
    requires c.Legal() && Follows(c, client, run)
    ensures run(Overtaken(c, client, k)).0 == map[] && InWindow(run(Overtaken(c, client, k)).1, 0.0) == k * c.limit
  {
    if k > 0 {
      Rounds(c, client, run, k - 1);
      var times := run(Overtaken(c, client, k - 1)).1;
      Round(c, client, run, Overtaken(c, client, k - 1), times);
      InWindowAppend(times, 0.0, c.limit);
      assert k * c.limit == (k - 1) * c.limit + c.limit;
    }
  }

  lemma Round(c: Settings, client: string, run: seq<Step> -> Trail, steps: seq<Step>, times: seq<real>)
    requires c.Legal() && Follows(c, client, run) && run(steps) == (map[], times)
    ensures run(steps + Burst(client, 0.0, c.limit) + [Cleanup(WINDOW)]) == (map[], times + Same(0.0, c.limit))
  {
    var full := map[client := Same(0.0, c.limit)];
    BurstFills(c, client, run, steps, map[], times, 0.0, c.limit);
    assert FollowsStep(c, client, run, steps + Burst(client, 0.0, c.limit), Cleanup(WINDOW));
    RecentNone(Same(0.0, c.limit), 0.0);
    assert Apply(c, full, Cleanup(WINDOW)) == map[];
    assert times + Same(0.0, c.limit) + [] == times + Same(0.0, c.limit);
  }

  class SlidingWindow {
    const c: Settings
    var store: Store
    ghost var trace: seq<Step>

    ghost predicate Valid()
      reads this
    {
      c.Legal() && store == Run(c, trace, |trace|)
    }

    constructor (c: Settings)
      requires c.Legal()
      ensures Valid() && store == map[] && trace == [] && this.c == c
    {
      this.c, store, trace := c, map[], [];
    }

    ghost method Note(before: Store, step: Step)
      requires c.Legal() && before == Run(c, trace, |trace|) && store == Apply(c, before, step)
      modifies this`trace
      ensures Valid() && trace == old(trace) + [step]
    {
      RunAppend(c, trace, step);
      trace := trace + [step];
    }

    /** `_check_window_rate_limit`. */
    method Check(client: string, now: real) returns (ok: bool)
      requires Valid()
      modifies this
      ensures Valid() && trace == old(trace) + [Call(client, now)]
      ensures ok <==> old(Admits(c, store, client, now))
    {
      ghost var before := store;
      ok := Serve(client, now);
      Note(before, Call(client, now));
    }

    /** The locked section of the check, on the store alone. */
    method Serve(client: string, now: real) returns (ok: bool)
      modifies this`store
      ensures store == Apply(c, old(store), Call(client, now))
      ensures ok <==> Admits(c, old(store), client, now)
    {
      var cutoff := now - WINDOW;
      var turned := ReclaimIfFull(client, cutoff);
      if turned {
        return false;
      }
      var timestamps := if client in store then store[client] else [];
      var recent := Recent(timestamps, cutoff);
      ok := |recent| < c.limit;
      store := store[client := if ok then recent + [now] else recent];
    }

    /** Reclaims idle buckets for a new client when the store is full; true when there is still no room. */
    method ReclaimIfFull(client: string, cutoff: real) returns (turned: bool)
      modifies this`store
      ensures store == Room(c, old(store), client, cutoff) && turned == Turned(c, old(store), client, cutoff)
      ensures Bucket(store, client) == Bucket(old(store), client)
    {
      if client !in store && |store| >= c.maxClients {
        store := map k | k in store && Recent(store[k], cutoff) != [] :: store[k];
        return |store| >= c.maxClients;
      }
      return false;
    }

    /** One pass of the hourly `_cleanup_rate_limits` over this store. */
    method Clean(now: real)
      requires Valid()
      modifies this
      ensures Valid() && trace == old(trace) + [Cleanup(now)]
    {
      ghost var before := store;
      store := ActiveBuckets(store, now - WINDOW);
      Note(before, Cleanup(now));
    }
  }

  /** The cleanup's pass over the buckets. */
  method ActiveBuckets(store: Store, cutoff: real) returns (kept: Store)
    ensures kept == map k | k in store && Recent(store[k], cutoff) != [] :: Recent(store[k], cutoff)
  {
    var clients := store.Keys;
    kept := map[];
    while clients != {}
      invariant clients <= store.Keys
      invariant kept == map k | k in store && k !in clients && Recent(store[k], cutoff) != [] :: Recent(store[k], cutoff)
      decreases clients
    {
      var k :| k in clients;
      clients := clients - {k};
      var active := Recent(store[k], cutoff);
      if active != [] {
        kept := kept[k := active];
      }
    }
  }

  // ---- In-flight authentications --------------------------------------------

  datatype Caps = Caps(perClient: int, maxClients: int) {
    predicate Legal() { perClient > 0 && maxClients > 0 }
  }

  datatype Slot = Acquired(client: string) | Refused(client: string) | Released(client: string)

  function Count(table: map<string, nat>, client: string): nat {
    if client in table then table[client] else 0
  }

  /** Whether `_acquire_auth_inflight` reserves a slot. */
  predicate Free(c: Caps, table: map<string, nat>, client: string) {
    Count(table, client) < c.perClient && (Count(table, client) > 0 || |table| < c.maxClients)
  }

  /** The slots of this client after the log; a release of nothing is ignored. */
  function Outstanding(log: seq<Slot>, client: string): nat {
    if log == [] then 0 else
    var before := Outstanding(log[..|log| - 1], client);
    if log[|log| - 1] == Acquired(client) then before + 1
    else if log[|log| - 1] == Released(client) && before > 0 then before - 1
    else before
  }

  function Events(log: seq<Slot>, s: Slot): nat {
    if log == [] then 0 else Events(log[..|log| - 1], s) + if log[|log| - 1] == s then 1 else 0
  }

  /** Every release follows an acquisition of its own: the server releases in a `finally`. */
  ghost predicate Paired(log: seq<Slot>, client: string) {
    forall n | 0 <= n <= |log| :: Balanced(log[..n], client)
  }

  ghost predicate Balanced(log: seq<Slot>, client: string) {
    Events(log, Released(client)) <= Events(log, Acquired(client))
  }

  /** What is outstanding is acquisitions minus releases. */
  lemma {:induction false} OutstandingIsDifference(log: seq<Slot>, client: string)
    requires Paired(log, client)
    ensures Outstanding(log, client) == Events(log, Acquired(client)) - Events(log, Released(client))
  {
    if log != [] {
      var init := log[..|log| - 1];
      forall n | 0 <= n <= |init| ensures Balanced(init[..n], client) {
        assert init[..n] == log[..n];
      }
      OutstandingIsDifference(init, client);
      assert log[..|log|] == log;
      assert Balanced(log[..|log|], client);
    }
  }

  class InflightTable {
    const c: Caps
    var table: map<string, nat>
    ghost var log: seq<Slot>

    /** The table is exactly what is outstanding; it is within both caps and holds no zero. */
    ghost predicate Valid()
      reads this
    {
      && c.Legal() && |table| <= c.maxClients
      && (forall k | k in table :: 0 < table[k] <= c.perClient)
      && (forall client :: Outstanding(log, client) == Count(table, client))
    }

    constructor (c: Caps)
      requires c.Legal()
      ensures Valid() && table == map[] && log == [] && this.c == c
    {
      this.c, table, log := c, map[], [];
    }

    method Acquire(client: string) returns (ok: bool)
      requires Valid()
      modifies this
      ensures Valid() && log == old(log) + [if ok then Acquired(client) else Refused(client)]
      ensures ok <==> old(Free(c, table, client))
    {
      var current := if client in table then table[client] else 0;
      if current >= c.perClient || (current == 0 && |table| >= c.maxClients) {
        OutstandingAppend(log, Refused(client));
        log := log + [Refused(client)];
        return false;
      }
      OutstandingAppend(log, Acquired(client));
      assert table[client := current + 1].Keys == table.Keys + {client};
      table := table[client := current + 1];
      log := log + [Acquired(client)];
      return true;
    }

    method Release(client: string)
      requires Valid()
      modifies this
      ensures Valid() && log == old(log) + [Released(client)]
    {
      GiveBack(client);
      OutstandingAppend(log, Released(client));
      log := log + [Released(client)];
    }

    /** The locked section of the release: one slot less, and no entry without a slot. */
    method GiveBack(client: string)
      requires c.Legal() && |table| <= c.maxClients && forall k | k in table :: 0 < table[k] <= c.perClient
      modifies this`table
      ensures |table| <= c.maxClients && forall k | k in table :: 0 < table[k] <= c.perClient
      ensures forall k | k != client :: Count(table, k) == Count(old(table), k)
      ensures Count(table, client) == if Count(old(table), client) == 0 then 0 else Count(old(table), client) - 1
    {
      var current := if client in table then table[client] else 0;
      if current <= 1 {
        TableWithout(table, client);
        table := table - {client};
      } else {
        assert table[client := current - 1].Keys == table.Keys;
        table := table[client := current - 1];
      }
    }
  }

  lemma TableWithout(table: map<string, nat>, client: string)
    ensures |table - {client}| <= |table|
  {
    assert table.Keys == (table - {client}).Keys + (table.Keys * {client});
  }

  lemma OutstandingAppend(log: seq<Slot>, s: Slot)
    ensures forall client ::
              var before := Outstanding(log, client);
              Outstanding(log + [s], client) == if s == Acquired(client) then before + 1
                                                else if s == Released(client) && before > 0 then before - 1
                                                else before
  {
    assert (log + [s])[..|log|] == log;
  }

  /** Acquire then release leaves the table as it was. */
  lemma AcquireThenRelease(c: Caps, table: map<string, nat>, client: string)
    requires Free(c, table, client) && (client in table ==> table[client] > 0)
    ensures var held := table[client := Count(table, client) + 1];
            (if Count(held, client) <= 1 then held - {client} else held[client := Count(held, client) - 1]) == table
  {
  }
}
