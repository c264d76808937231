/**
 Provider-only reconfiguration (`ProviderReconfigurer`): a journaled replacement of the API container.
 Every durable write, unlink and Docker call is one step; a step may raise with or without its effect,
 and the process may die after it. Digests are read as the text they digest.
 */
module Reconfigure {
  import opened Basics

  type Env = map<string, string>

  datatype Container = Container(id: nat, env: Env)

  datatype Status = Prepared | Replacing | Verified | RollingBack | RollbackFailed

  datatype Journal = Journal(status: Status, oldFingerprint: string, newFingerprint: string,
                             oldEnv: Env, newEnv: Env, oldId: nat, newId: Option<nat>)

  /** Deployment state, `api.env`, its two snapshots, the journal, and the API container Docker has. */
  datatype World = World(fingerprint: string, apiId: nat, active: Env, live: Option<Container>,
                         oldSnapshot: Option<Env>, newSnapshot: Option<Env>, journal: Option<Journal>,
                         nextId: nat)

  /** `Refused`: the evidence or the request does not allow it. `Raised`: a step failed. */
  datatype Outcome = Done | Refused | Raised | Died {
    predicate IsFailure() { !Done? }
    function PropagateFailure(): Outcome { this }
  }

  /** Every setting in `wanted` has its value in `env`. */
  predicate Shows(env: Env, wanted: Env) {
    forall k | k in wanted :: k in env && env[k] == wanted[k]
  }

  /** The desired settings change provider keys only; `provider` is `PROVIDER_ENVIRONMENT`. */
  predicate ProviderOnly(current: Env, desired: Env, provider: set<string>) {
    forall k | k in desired && k !in provider :: k in current && current[k] == desired[k]
  }

  /** `target_environment`. */
  function Target(current: Env, desired: Env, provider: set<string>): Env {
    map k | k in current.Keys + provider ::
      if k in provider then (if k in desired then desired[k] else "") else current[k]
  }

  /** The new environment shows every desired setting and leaves every other key alone. */
  lemma TargetShowsDesired(current: Env, desired: Env, provider: set<string>)
    requires ProviderOnly(current, desired, provider)
    ensures Shows(Target(current, desired, provider), desired)
    ensures forall k | k !in provider ::
              (k in Target(current, desired, provider) <==> k in current)
              && (k in current ==> Target(current, desired, provider)[k] == current[k])
  {
  }

  // ---- Old, new, and in between ---------------------------------------------

  /** Stored fingerprint, active environment and live environment are those of (fingerprint, env). */
  predicate Settled(w: World, fingerprint: string, env: Env) {
    w.fingerprint == fingerprint && w.active == env && w.live == Some(Container(w.apiId, env))
  }

  predicate AllOld(w: World, j: Journal) {
    Settled(w, j.oldFingerprint, j.oldEnv)
  }

  predicate AllNew(w: World, j: Journal) {
    Settled(w, j.newFingerprint, j.newEnv)
  }

  /** The deployment state is the one the attempt commits. */
  predicate Updated(w: World, j: Journal) {
    j.newId == Some(w.apiId) && w.fingerprint == j.newFingerprint
  }

  predicate Committed(w: World, j: Journal) {
    j.status == Verified && Updated(w, j)
  }

  /** The container and the environment of a verified replacement. */
  predicate Replaced(w: World, j: Journal) {
    j.newId.Some? && w.active == j.newEnv && w.live == Some(Container(j.newId.value, j.newEnv))
  }

  predicate IdsBelow(w: World) {
    && w.apiId < w.nextId && (w.live.Some? ==> w.live.value.id < w.nextId)
    && (w.journal.Some? ==> w.journal.value.oldId < w.nextId
                            && (w.journal.value.newId.Some? ==> w.journal.value.newId.value < w.nextId))
  }

  predicate Snapshots(w: World, j: Journal) {
    && (w.oldSnapshot == None || w.oldSnapshot == Some(j.oldEnv))
    && (w.newSnapshot == None || w.newSnapshot == Some(j.newEnv))
    && ((w.oldSnapshot == None || w.newSnapshot == None) ==> AllOld(w, j) || AllNew(w, j))
  }

  /** `desired` gives the API environment of the configuration with a given fingerprint. */
  ghost predicate Attempt(desired: string -> Env, provider: set<string>, j: Journal) {
    && ProviderOnly(j.oldEnv, desired(j.newFingerprint), provider)
    && j.newEnv == Target(j.oldEnv, desired(j.newFingerprint), provider) && j.newEnv != j.oldEnv
  }

  /** What every reachable state satisfies. */
  ghost predicate Inv(desired: string -> Env, provider: set<string>, w: World) {
    IdsBelow(w) &&
    match w.journal
    case None => Settled(w, w.fingerprint, w.active)
    case Some(j) =>
      && Attempt(desired, provider, j) && Snapshots(w, j)
      && (Updated(w, j) || w.fingerprint == j.oldFingerprint)
      && (j.status == Verified ==> Replaced(w, j))
  }

  predicate SameAttempt(j: Journal, k: Journal) {
    k == j.(status := k.status, newId := k.newId)
  }

  predicate SameTriple(w: World, n: World) {
    w.fingerprint == n.fingerprint && w.apiId == n.apiId && w.active == n.active && w.live == n.live
  }

  /** One step: a journal opens on the settled state and closes only when everything is old or everything is new. */
  predicate Allowed(w: World, n: World) {
    if w.journal.None? then
      SameTriple(w, n)
      && (n.journal.Some? ==> n.journal.value.oldFingerprint == w.fingerprint && n.journal.value.oldEnv == w.active)
    else if n.journal.Some? then SameAttempt(w.journal.value, n.journal.value)
    else SameTriple(w, n) && (AllOld(n, w.journal.value) || AllNew(n, w.journal.value))
  }

  /** The states one host has been in, over any number of commands, failures and crashes. */
  ghost predicate Run(desired: string -> Env, provider: set<string>, h: seq<World>) {
    && h != []
    && (forall i | 0 <= i < |h| :: InvAt(desired, provider, h, i))
    && (forall i | 0 <= i < |h| - 1 :: AllowedAt(h, i))
  }

  ghost predicate InvAt(desired: string -> Env, provider: set<string>, h: seq<World>, i: nat)
    requires i < |h|
  {
    Inv(desired, provider, h[i])
  }

  predicate AllowedAt(h: seq<World>, i: nat)
    requires i + 1 < |h|
  {
    Allowed(h[i], h[i + 1])
  }

  /** One more legal step. */
  lemma Extend(desired: string -> Env, provider: set<string>, h: seq<World>, n: World)
    requires Run(desired, provider, h) && Inv(desired, provider, n) && Allowed(h[|h| - 1], n)
    ensures Run(desired, provider, h + [n])
  {
    var longer := h + [n];
    forall i | 0 <= i < |longer| ensures InvAt(desired, provider, longer, i) {
      if i < |h| {
        assert InvAt(desired, provider, h, i);
      }
    }
    forall i | 0 <= i < |longer| - 1 ensures AllowedAt(longer, i) {
      if i < |h| - 1 {
        assert AllowedAt(h, i);
      }
    }
  }

  lemma OneAttempt(desired: string -> Env, provider: set<string>, h: seq<World>, i: nat, k: nat)
    requires Run(desired, provider, h) && i < k < |h| && h[i].journal.None?
    requires forall m | i < m <= k :: h[m].journal.Some?
    ensures SameAttempt(h[i + 1].journal.value, h[k].journal.value)
  {
    AttemptGoesOn(h, i + 1, k);
  }

  lemma {:induction false} AttemptGoesOn(h: seq<World>, i: nat, k: nat)
    requires i <= k < |h| && forall m | 0 <= m < |h| - 1 :: AllowedAt(h, m)
    requires forall m | i <= m <= k :: h[m].journal.Some?
    ensures SameAttempt(h[i].journal.value, h[k].journal.value)
  {
    if k > i {
      AttemptGoesOn(h, i, k - 1);
      assert AllowedAt(h, k - 1);
    }
  }

  /**
   Between two moments without a journal, the stored fingerprint, `api.env` and the live environment
   either all stayed old or all became those of the one attempt in between, which differs from the old
   environment in provider keys only.
   */
  lemma AllOldOrAllNew(desired: string -> Env, provider: set<string>, h: seq<World>, i: nat, k: nat)
    requires Run(desired, provider, h) && i < k < |h| && h[i].journal.None? && h[k].journal.None?
    requires forall m | i < m < k :: h[m].journal.Some?
    ensures h[k].live.Some?
    ensures
      || Settled(h[k], h[i].fingerprint, h[i].active)
      || (i + 1 < k
          && var fingerprint := h[i + 1].journal.value.newFingerprint;
             Settled(h[k], fingerprint, Target(h[i].active, desired(fingerprint), provider)))
  {
    assert AllowedAt(h, i);
    if i + 1 < k {
      OneAttempt(desired, provider, h, i, k - 1);
      assert AllowedAt(h, k - 1);
      assert InvAt(desired, provider, h, k - 1);
    } else {
      assert InvAt(desired, provider, h, i);
    }
  }

  // ---- When recovery refuses ------------------------------------------------

  /** Recovery has no further use for its evidence, or cannot tell what it would restore. */
  predicate EvidenceGone(w: World, j: Journal) {
    || w.oldSnapshot == None || w.newSnapshot == None
    || (!Committed(w, j) && (w.fingerprint != j.oldFingerprint || w.apiId != j.oldId))
  }

  /** The request changes provider keys only, and changes something. */
  ghost predicate Acceptable(desired: string -> Env, provider: set<string>, active: Env, plan: string) {
    ProviderOnly(active, desired(plan), provider) && Target(active, desired(plan), provider) != active
  }

  /** The journal a new attempt on w writes first. */
  ghost function Opening(desired: string -> Env, provider: set<string>, w: World, plan: string): Journal {
    Journal(Prepared, w.fingerprint, plan, w.active, Target(w.active, desired(plan), provider), w.apiId, None)
  }

  /** Two snapshots and the journal. */
  lemma OpenAttempt(desired: string -> Env, provider: set<string>, w: World, plan: string) returns (h: seq<World>)
    requires Inv(desired, provider, w) && w.journal == None && Acceptable(desired, provider, w.active, plan)
    ensures Run(desired, provider, h) && |h| == 4 && h[0] == w
    ensures h[1] == w.(oldSnapshot := Some(w.active))
    ensures h[2] == h[1].(newSnapshot := Some(Target(w.active, desired(plan), provider)))
    ensures h[3] == h[2].(journal := Some(Opening(desired, provider, w, plan)))
  {
    var first := w.(oldSnapshot := Some(w.active));
    var both := first.(newSnapshot := Some(Target(w.active, desired(plan), provider)));
    Extend(desired, provider, [w], first);
    Extend(desired, provider, [w] + [first], both);
    Extend(desired, provider, [w] + [first] + [both], both.(journal := Some(Opening(desired, provider, w, plan))));
    h := [w] + [first] + [both] + [both.(journal := Some(Opening(desired, provider, w, plan)))];
  }

  /** A crash on a freshly opened journal, and recovery up to the container with the old environment. */
  lemma RestartedRecovery(desired: string -> Env, provider: set<string>, w: World, plan: string) returns (h: seq<World>)
    requires Inv(desired, provider, w) && w.journal == None && Acceptable(desired, provider, w.active, plan)
    ensures Run(desired, provider, h) && |h| == 7 && h[0] == w
    ensures h[1] == w.(oldSnapshot := Some(w.active))
    ensures h[2] == h[1].(newSnapshot := Some(Target(w.active, desired(plan), provider)))
    ensures h[3] == h[2].(journal := Some(Opening(desired, provider, w, plan)))
    ensures h[4] == h[3].(journal := Some(Opening(desired, provider, w, plan).(status := RollingBack)))
    ensures h[5] == h[4].(live := None)
    ensures h[6] == h[5].(live := Some(Container(w.nextId, w.active)), nextId := w.nextId + 1)
  {
    var g := OpenAttempt(desired, provider, w, plan);
    var rolling := g[3].(journal := Some(Opening(desired, provider, w, plan).(status := RollingBack)));
    var bare := rolling.(live := None);
    var started := bare.(live := Some(Container(w.nextId, w.active)), nextId := w.nextId + 1);
    Extend(desired, provider, g, rolling);
    Extend(desired, provider, g + [rolling], bare);
    Extend(desired, provider, g + [rolling] + [bare], started);
    h := g + [rolling] + [bare] + [started];
  }

  /**
   Two windows that a second crash leaves. The process dies on a freshly opened journal; recovery removes the
   container, starts one with the old environment and saves its id. Dying then leaves an id the journal does not
   know; dying one step later, in the cleanup, leaves an open journal without its old snapshot.
   */
  lemma RefusalWindows(desired: string -> Env, provider: set<string>, w: World, plan: string) returns (h: seq<World>)
    requires Inv(desired, provider, w) && w.journal == None && Acceptable(desired, provider, w.active, plan)
    ensures Run(desired, provider, h) && |h| == 9 && h[0] == w
    ensures h[1] == w.(oldSnapshot := Some(w.active))
    ensures h[2] == h[1].(newSnapshot := Some(Target(w.active, desired(plan), provider)))
    ensures h[3] == h[2].(journal := Some(Opening(desired, provider, w, plan)))
    ensures h[4] == h[3].(journal := Some(Opening(desired, provider, w, plan).(status := RollingBack)))
    ensures h[5] == h[4].(live := None)
    ensures h[6] == h[5].(live := Some(Container(w.nextId, w.active)), nextId := w.nextId + 1)
    ensures h[7] == h[6].(apiId := w.nextId) && EvidenceGone(h[7], h[7].journal.value)
    ensures h[8] == h[7].(oldSnapshot := None) && EvidenceGone(h[8], h[8].journal.value)
  {
    var g := RestartedRecovery(desired, provider, w, plan);
    var saved := g[6].(apiId := w.nextId);
    Extend(desired, provider, g, saved);
    Extend(desired, provider, g + [saved], saved.(oldSnapshot := None));
    h := g + [saved] + [saved.(oldSnapshot := None)];
  }

  /** The attempt up to the new container: `replacing`, removal, the new environment, a container that shows it. */
  lemma SwapContainer(desired: string -> Env, provider: set<string>, w: World, plan: string) returns (h: seq<World>)
    requires Inv(desired, provider, w) && w.journal == None && Acceptable(desired, provider, w.active, plan)
    ensures Run(desired, provider, h) && |h| == 8 && h[0] == w
    ensures h[1] == w.(oldSnapshot := Some(w.active))
    ensures h[2] == h[1].(newSnapshot := Some(Target(w.active, desired(plan), provider)))
    ensures h[3] == h[2].(journal := Some(Opening(desired, provider, w, plan)))
    ensures h[4] == h[3].(journal := Some(Opening(desired, provider, w, plan).(status := Replacing)))
    ensures h[5] == h[4].(live := None)
    ensures h[6] == h[5].(active := Target(w.active, desired(plan), provider))
    ensures h[7] == h[6].(live := Some(Container(w.nextId, h[6].active)), nextId := w.nextId + 1)
  {
    var g := OpenAttempt(desired, provider, w, plan);
    var j := Opening(desired, provider, w, plan);
    var replacing := g[3].(journal := Some(j.(status := Replacing)));
    var bare := replacing.(live := None);
    var written := bare.(active := j.newEnv);
    var started := written.(live := Some(Container(w.nextId, j.newEnv)), nextId := w.nextId + 1);
    Extend(desired, provider, g, replacing);
    Extend(desired, provider, g + [replacing], bare);
    Extend(desired, provider, g + [replacing] + [bare], written);
    Extend(desired, provider, g + [replacing] + [bare] + [written], started);
    h := g + [replacing] + [bare] + [written] + [started];
  }

  /**
   The third window. The save of the new deployment state raises after its effect, so the attempt counts as not
   committed; the rollback saves its journal status, and the process dies.
   */
  lemma CommitWindow(desired: string -> Env, provider: set<string>, w: World, plan: string) returns (h: seq<World>)
    requires Inv(desired, provider, w) && w.journal == None && Acceptable(desired, provider, w.active, plan)
    ensures Run(desired, provider, h) && |h| == 11 && h[0] == w
    ensures h[1] == w.(oldSnapshot := Some(w.active))
    ensures h[2] == h[1].(newSnapshot := Some(Target(w.active, desired(plan), provider)))
    ensures h[3] == h[2].(journal := Some(Opening(desired, provider, w, plan)))
    ensures h[4] == h[3].(journal := Some(Opening(desired, provider, w, plan).(status := Replacing)))
    ensures h[5] == h[4].(live := None)
    ensures h[6] == h[5].(active := Target(w.active, desired(plan), provider))
    ensures h[7] == h[6].(live := Some(Container(w.nextId, h[6].active)), nextId := w.nextId + 1)
    ensures h[8] == h[7].(journal := Some(Opening(desired, provider, w, plan).(status := Verified, newId := Some(w.nextId))))
    ensures h[9] == h[8].(apiId := w.nextId, fingerprint := plan)
    ensures h[10] == h[9].(journal := Some(h[8].journal.value.(status := RollingBack)))
    ensures EvidenceGone(h[10], h[10].journal.value)
  {
    var g := SwapContainer(desired, provider, w, plan);
    var k := Opening(desired, provider, w, plan).(status := Verified, newId := Some(w.nextId));
    var verified := g[7].(journal := Some(k));
    var saved := verified.(apiId := w.nextId, fingerprint := plan);
    var rolling := saved.(journal := Some(k.(status := RollingBack)));
    Extend(desired, provider, g, verified);
    Extend(desired, provider, g + [verified], saved);
    Extend(desired, provider, g + [verified] + [saved], rolling);
    h := g + [verified] + [saved] + [rolling];
  }

  /** Both snapshots are there and the journal of this attempt is open, not verified. */
  ghost predicate Open(w: World, j: Journal) {
    && w.journal.Some? && SameAttempt(w.journal.value, j) && w.journal.value.status != Verified
    && w.oldSnapshot == Some(j.oldEnv) && w.newSnapshot == Some(j.newEnv)
  }

  /** n differs from w only in what Docker has. */
  predicate OnlyContainer(w: World, n: World) {
    n == w.(live := n.live, nextId := n.nextId) && n.nextId >= w.nextId
  }

  /** Whatever is left of the snapshots is this attempt's. */
  predicate Leftovers(w: World, j: Journal) {
    && (w.oldSnapshot == None || w.oldSnapshot == Some(j.oldEnv))
    && (w.newSnapshot == None || w.newSnapshot == Some(j.newEnv))
  }

  /** A failed attempt that did not commit: its evidence is complete, and `newId` is the journal held in memory. */
  ghost predicate Retractable(w: World, j: Journal, newId: Option<nat>) {
    && w.journal.Some? && SameAttempt(w.journal.value, j) && Leftovers(w, j)
    && w.oldSnapshot.Some? && w.newSnapshot.Some?
    && (newId.Some? ==> newId.value < w.nextId)
    && (w.journal.value.newId == newId || w.fingerprint == j.oldFingerprint)
  }

  // ---- The commands ---------------------------------------------------------

  class Host {
    const desired: string -> Env
    const provider: set<string>
    const unraid: bool                   // the Unraid profile; otherwise Compose
    const faultFree: bool                // no step fails and the process does not die
    var w: World
    ghost var history: seq<World>

    ghost predicate Valid()
      reads this
    {
      Run(desired, provider, history) && history[|history| - 1] == w && Inv(desired, provider, w)
    }

    constructor (desired: string -> Env, provider: set<string>, unraid: bool, faultFree: bool, w: World)
      requires Inv(desired, provider, w)
      ensures Valid() && this.w == w && history == [w]
      ensures this.unraid == unraid && this.faultFree == faultFree
    {
      this.desired, this.provider, this.unraid, this.faultFree, this.w := desired, provider, unraid, faultFree, w;
      history := [w];
    }

    /** One durable step. */
    method Become(next: World) returns (o: Outcome)
      requires Valid() && Inv(desired, provider, next) && Allowed(w, next)
      modifies this`w, this`history
      ensures Valid() && old(history) <= history
      ensures !o.Refused? && (o.Done? ==> w == next) && (faultFree ==> o.Done?)
      ensures w == next || w == old(w)
    {
      var fault: bool, happens: bool, dies: bool := *, *, *;
      fault := fault && !faultFree;
      if happens || !fault {
        Extend(desired, provider, history, next);
        history := history + [next];
        w := next;
      }
      o := if !fault then Done else if dies then Died else Raised;
    }

    /** A Docker call or a check that changes nothing here, and may fail. */
    method Pass() returns (o: Outcome)
      requires Valid()
      modifies this`w, this`history
      ensures Valid() && old(history) <= history && w == old(w)
      ensures !o.Refused? && (faultFree ==> o.Done?)
    {
      o := Become(w);
    }

    /** The journal is saved with a new status and the replacement id held in memory. */
    method SaveStatus(j: Journal, status: Status, newId: Option<nat>) returns (o: Outcome)
      requires Valid() && w.journal.Some? && SameAttempt(w.journal.value, j)
      requires newId.Some? ==> newId.value < w.nextId
      requires status == Verified ==> Replaced(w, j.(newId := newId)) && w.fingerprint == j.oldFingerprint
      requires w.journal.value.newId == newId || w.fingerprint == j.oldFingerprint
      modifies this`w, this`history
      ensures Valid() && old(history) <= history
      ensures !o.Refused? && (faultFree ==> o.Done?)
      ensures o.Done? ==> w == old(w).(journal := Some(j.(status := status, newId := newId)))
      ensures w == old(w) || w == old(w).(journal := Some(j.(status := status, newId := newId)))
    {
      o := Become(w.(journal := Some(j.(status := status, newId := newId))));
    }

    /** `_remove_owned_api`. */
    method RemoveOwnedApi(ghost j: Journal) returns (o: Outcome)
      requires Valid() && Open(w, j)
      modifies this`w, this`history
      ensures Valid() && old(history) <= history
      ensures OnlyContainer(old(w), w) && !o.Refused? && (faultFree ==> o.Done?)
      ensures o.Done? ==> w.live == None
    {
      if w.live.None? {
        return Done;
      }
      :- Pass();
      o := Become(w.(live := None));
    }

    /** Writes `api.env`. */
    method WriteActive(ghost j: Journal, env: Env) returns (o: Outcome)
      requires Valid() && Open(w, j)
      modifies this`w, this`history
      ensures Valid() && old(history) <= history && (w == old(w) || w == old(w).(active := env))
      ensures !o.Refused? && (faultFree ==> o.Done?)
      ensures o.Done? ==> w == old(w).(active := env)
    {
      o := Become(w.(active := env));
    }

    /** `_start_api` and its verification: a fresh container with the environment of the active file. */
    method StartApi(ghost j: Journal) returns (o: Outcome, id: nat)
      requires Valid() && Open(w, j) && (unraid ==> w.live == None)
      modifies this`w, this`history
      ensures Valid() && old(history) <= history
      ensures OnlyContainer(old(w), w) && !o.Refused? && (faultFree ==> o.Done?)
      ensures o.Done? ==> id < w.nextId && w.live == Some(Container(id, w.active))
    {
      id := w.nextId;
      if !unraid {
        o := Become(w.(live := None));
        if !o.Done? {
          return;
        }
      }
      o := Become(w.(live := Some(Container(id, w.active)), nextId := id + 1));
      if !o.Done? {
        return;
      }
      o := Pass();
    }

    /** A verified container with the environment `env`, in place of what there is. */
    method StartOn(ghost j: Journal, env: Env) returns (o: Outcome, id: nat)
      requires Valid() && Open(w, j)
      modifies this`w, this`history
      ensures Valid() && old(history) <= history && !o.Refused? && (faultFree ==> o.Done?)
      ensures w == old(w).(active := w.active, live := w.live, nextId := w.nextId) && w.nextId >= old(w).nextId
      ensures o.Done? ==> id < w.nextId && w.active == env && w.live == Some(Container(id, env))
    {
      id := 0;
      if unraid {
        o := RemoveOwnedApi(j);
        if !o.Done? {
          return;
        }
      }
      o := WriteActive(j, env);
      if !o.Done? {
        return;
      }
      o, id := StartApi(j);
    }

    /** `_cleanup`: both snapshots, then the journal, then the directory sync. */
    method Cleanup(ghost j: Journal) returns (o: Outcome)
      requires Valid() && w.journal == Some(j) && (AllOld(w, j) || AllNew(w, j))
      modifies this`w, this`history
      ensures Valid() && old(history) <= history
      ensures !o.Refused? && (faultFree ==> o.Done?) && SameTriple(old(w), w) && w.nextId == old(w).nextId
      ensures o.Done? ==> w.journal == None
      ensures (w.journal == None || w.journal == Some(j)) && Leftovers(w, j)
    {
      o := Become(w.(oldSnapshot := None));
      if !o.Done? {
        return;
      }
      :- Become(w.(newSnapshot := None));
      :- Become(w.(journal := None));
      o := Pass();
    }

    /** The rollback steps after the journal says so: restore, verify, save the state, clean up. */
    method RestoreOld(j: Journal) returns (o: Outcome)
      requires Valid() && Open(w, j) && w.journal == Some(j)
      modifies this`w, this`history
      ensures Valid() && old(history) <= history
      ensures !o.Refused? && (faultFree ==> o.Done?)
      ensures (w.journal == None || w.journal == Some(j)) && Leftovers(w, j)
      ensures w.journal == None ==> w.fingerprint == j.oldFingerprint && w.active == j.oldEnv
      ensures o.Done? ==> w.journal == None
      ensures w.nextId >= old(w).nextId
    {
      var id;
      o, id := StartOn(j, j.oldEnv);
      if !o.Done? {
        return;
      }
      :- Pass();
      :- Become(w.(apiId := id, fingerprint := j.oldFingerprint));
      o := Cleanup(j);
    }

    /** `_recover_if_needed` on an open journal; `committed` says whether it only had to clean up. */
    method Recover(plan: string) returns (o: Outcome, committed: bool)
      requires Valid() && w.journal.Some?
      modifies this`w, this`history
      ensures Valid() && old(history) <= history
      ensures o.Refused? ==> w == old(w) && history == old(history)
      ensures o.Refused? <==> old(w.journal.value.newFingerprint != plan || EvidenceGone(w, w.journal.value))
      ensures faultFree ==> o.Done? || o.Refused?
      ensures o.Done? ==> w.journal == None
      ensures o.Done? && committed ==> w.fingerprint == plan && Shows(w.active, desired(plan))
      ensures o.Done? && !committed ==> w.active == old(w).journal.value.oldEnv
    {
      committed := false;
      var j := w.journal.value;
      if j.newFingerprint != plan || (j.oldFingerprint != w.fingerprint && j.newFingerprint != w.fingerprint) {
        return Refused, false;
      }
      if w.oldSnapshot != Some(j.oldEnv) || w.newSnapshot != Some(j.newEnv) {
        return Refused, false;
      }
      if j.status == Verified && j.newId == Some(w.apiId) && w.fingerprint == plan {
        if w.live.None? || w.live.value.id != w.apiId {
          return Refused, false;
        }
        TargetShowsDesired(j.oldEnv, desired(plan), provider);
        if !Shows(w.live.value.env, desired(plan)) {
          return Refused, false;
        }
        o := Pass();
        if !o.Done? {
          return;
        }
        o := Cleanup(j);
        committed := true;
        return;
      }
      if w.fingerprint != j.oldFingerprint || w.apiId != j.oldId {
        return Refused, false;
      }
      o := SaveStatus(j, RollingBack, j.newId);
      if !o.Done? {
        return;
      }
      o := RestoreOld(w.journal.value);
    }

    /** The checks of `_load_current` on a settled host: provider keys only, and something to change. */
    method LoadCurrent(plan: string) returns (o: Outcome)
      requires Valid() && w.journal.None?
      modifies this`w, this`history
      ensures Valid() && old(history) <= history && w == old(w)
      ensures o.Refused? || o.Done? || !faultFree
      ensures o.Refused? ==> history == old(history)
      ensures o.Refused? <==> !Acceptable(desired, provider, w.active, plan)
    {
      if w.live.None? || w.live.value.id != w.apiId || !Shows(w.live.value.env, w.active) {
        return Refused;
      }
      if !ProviderOnly(w.active, desired(plan), provider) || Target(w.active, desired(plan), provider) == w.active {
        return Refused;
      }
      o := Pass();
    }

    /** The first half of the `try` block: a verified container with the new environment. */
    method Swap(j: Journal) returns (o: Outcome, id: nat)
      requires Valid() && Open(w, j) && w.journal == Some(j) && j.newId == None && w.fingerprint == j.oldFingerprint
      modifies this`w, this`history
      ensures Valid() && old(history) <= history && !o.Refused? && (faultFree ==> o.Done?)
      ensures Retractable(w, j, None) && w.fingerprint == j.oldFingerprint
      ensures o.Done? ==> id < w.nextId && w.live == Some(Container(id, j.newEnv)) && w.active == j.newEnv
    {
      id := 0;
      o := SaveStatus(j, Replacing, None);
      if !o.Done? {
        return;
      }
      o, id := StartOn(j, j.newEnv);
      if o.Done? {
        o := Pass();
      }
    }

    /** The second half: `verified`, the new deployment state, and the cleanup. */
    method Commit(j: Journal, id: nat) returns (o: Outcome, committed: bool)
      requires Valid() && Retractable(w, j, None) && w.fingerprint == j.oldFingerprint && id < w.nextId
      requires w.live == Some(Container(id, j.newEnv)) && w.active == j.newEnv
      modifies this`w, this`history
      ensures Valid() && old(history) <= history && !o.Refused? && (faultFree ==> o.Done?)
      ensures o.Done? ==> w.journal == None && w.fingerprint == j.newFingerprint && w.active == j.newEnv
      ensures !committed ==> o.Raised? || o.Died?
      ensures o.Raised? && !committed ==> Retractable(w, j, Some(id))
    {
      committed := false;
      o := SaveStatus(j, Verified, Some(id));
      if !o.Done? {
        return;
      }
      o := Become(w.(apiId := id, fingerprint := j.newFingerprint));
      if !o.Done? {
        return;
      }
      committed := true;
      o := Cleanup(w.journal.value);
    }

    /** The `try` block: replace the API container and commit the new state. */
    method Replace(j: Journal) returns (o: Outcome, committed: bool, newId: Option<nat>)
      requires Valid() && Open(w, j) && w.journal == Some(j) && j.newId == None && w.fingerprint == j.oldFingerprint
      modifies this`w, this`history
      ensures Valid() && old(history) <= history && !o.Refused? && (faultFree ==> o.Done?)
      ensures o.Done? ==> w.journal == None && w.fingerprint == j.newFingerprint && w.active == j.newEnv
      ensures o.Raised? && !committed ==> Retractable(w, j, newId)
    {
      committed, newId := false, None;
      var id;
      o, id := Swap(j);
      if !o.Done? {
        return;
      }
      newId := Some(id);
      o, committed := Commit(j, id);
    }

    /** `rollback-failed`, written even when cleanup has already removed the journal. */
    method SaveFailure(j: Journal, newId: Option<nat>) returns (o: Outcome)
      requires Valid() && Attempt(desired, provider, j) && j.oldId < w.nextId && (newId.Some? ==> newId.value < w.nextId)
      requires w.journal.Some? ==>
                 SameAttempt(w.journal.value, j) && (w.journal.value.newId == newId || w.fingerprint == j.oldFingerprint)
      requires Leftovers(w, j)
      requires w.journal.None? ==> w.fingerprint == j.oldFingerprint && w.active == j.oldEnv
      modifies this`w, this`history
      ensures Valid() && old(history) <= history && !o.Refused?
    {
      o := Become(w.(journal := Some(j.(status := RollbackFailed, newId := newId))));
    }

    /** The `except` block of an attempt that did not commit. It always ends in an error. */
    method RollBack(j: Journal, newId: Option<nat>) returns (o: Outcome)
      requires Valid() && Attempt(desired, provider, j) && Retractable(w, j, newId)
      modifies this`w, this`history
      ensures Valid() && old(history) <= history && (o.Raised? || o.Died?)
      ensures faultFree ==> w.journal == None && Settled(w, j.oldFingerprint, j.oldEnv)
    {
      var k := j.(status := RollingBack, newId := newId);
      o := SaveStatus(j, RollingBack, newId);
      if o.Done? {
        o := RestoreOld(k);
        if o.Done? {
          return Raised;
        }
      }
      if o.Raised? {
        o := SaveFailure(j, newId);
        o := if o.Died? then Died else Raised;
      }
    }

    /** The journal is another plan's, or its evidence is gone; without a journal, the plan is not acceptable. */
    ghost predicate RefusesPlan(plan: string)
      reads this
    {
      if w.journal.Some? then w.journal.value.newFingerprint != plan || EvidenceGone(w, w.journal.value)
      else !Acceptable(desired, provider, w.active, plan)
    }

    /** `reconfigure`. */
    method Reconfigure(plan: string) returns (o: Outcome)
      requires Valid()
      modifies this`w, this`history
      ensures Valid() && old(history) <= history
      ensures o.Done? ==> w.journal == None && w.fingerprint == plan && Shows(w.active, desired(plan))
      ensures faultFree ==> o.Done? || o.Refused?
      ensures o.Refused? <==> old(RefusesPlan(plan))
      ensures o.Refused? ==> w == old(w) && history == old(history)
    {
      if w.journal.Some? {
        var committed;
        o, committed := Recover(plan);
        if !o.Done? || committed {
          return;
        }
      }
      var j;
      o, j := Prepare(plan);
      if !o.Done? {
        return;
      }
      TargetShowsDesired(j.oldEnv, desired(plan), provider);
      var done, newId;
      o, done, newId := Replace(j);
      if o.Raised? && !done {
        o := RollBack(j, newId);
      }
    }

    /** The checks and the evidence of a new attempt: two snapshots, then the journal. */
    method Prepare(plan: string) returns (o: Outcome, j: Journal)
      requires Valid() && w.journal.None?
      modifies this`w, this`history
      ensures Valid() && old(history) <= history && (faultFree ==> o.Done? || o.Refused?)
      ensures o.Refused? ==> w == old(w) && history == old(history)
      ensures o.Refused? <==> !Acceptable(desired, provider, old(w).active, plan)
      ensures o.Done? ==>
                && Open(w, j) && w.journal == Some(j) && j.newId == None && w.fingerprint == j.oldFingerprint
                && j.newFingerprint == plan && Attempt(desired, provider, j)
    {
      j := Journal(Prepared, w.fingerprint, plan, w.active, Target(w.active, desired(plan), provider), w.apiId, None);
      o := LoadCurrent(plan);
      if !o.Done? {
        return;
      }
      o := Become(w.(oldSnapshot := Some(j.oldEnv)));
      if !o.Done? {
        return;
      }
      o := Become(w.(newSnapshot := Some(j.newEnv)));
      if !o.Done? {
        return;
      }
      o := Become(w.(journal := Some(j)));
    }
  }
}
