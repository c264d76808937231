/**
 The move from the legacy container to the split v2.2 runtime and back (`LegacyUpgrade`,
 `RuntimeUninstaller`). Every durable write, rename and Docker call is one step; it may raise with or
 without its effect, and the process may die after it. Running containers may write their data or stop
 at any time; nothing outside these commands starts one. A tree stands for its manifest.
 */
module LegacyUpgrade {
  import opened Basics

  type Tree = string

  datatype Role = Absent | Stopped | Active

  datatype StateStatus = Installed | Uninstalling | Uninstalled | StateRolledBack

  datatype Status =
    | Prepared | SnapshotComplete | UpgradeFailed | ReupgradeFailed | UpgradeJournalFailed
    | Upgraded | RollbackFailed | RolledBack

  /** The migration journal; `snapshot` and `target` are its recorded manifests. */
  datatype Journal = Journal(status: Status, attempt: nat, initialRunning: bool, snapshot: Option<Tree>,
                             target: Option<Tree>, targetVerified: bool, prior: Option<Journal>)

  /** `snapshots` and the partial work trees are named by attempt number. */
  datatype World = World(legacyRunning: bool, api: Role, proxy: Role, network: bool,
                         state: Option<StateStatus>, journal: Option<Journal>,
                         source: Tree, snapshots: map<nat, Tree>, snapshotWork: set<nat>,
                         target: Option<Tree>, targetWork: set<nat>)

  datatype Outcome = Done | Refused | Raised | Died {
    predicate IsFailure() { !Done? }
    function PropagateFailure(): Outcome { this }
  }

  // ---- Laws -----------------------------------------------------------------

  predicate RoleActive(w: World) {
    w.api == Active || w.proxy == Active
  }

  predicate NoRuntime(w: World) {
    w.api == Absent && w.proxy == Absent
  }

  /** A recorded manifest is that of the snapshot directory of its attempt. */
  predicate SnapshotKept(w: World, attempt: nat, recorded: Option<Tree>) {
    recorded.Some? ==> attempt in w.snapshots && w.snapshots[attempt] == recorded.value
  }

  predicate JournalSound(w: World, j: Journal) {
    && j.attempt >= 1 && SnapshotKept(w, j.attempt, j.snapshot)
    && (j.prior.Some? ==> j.prior.value.attempt < j.attempt
                          && SnapshotKept(w, j.prior.value.attempt, j.prior.value.snapshot))
  }

  /** The legacy container and a v2.2 role never both run; what the journal records is still there. */
  predicate Inv(w: World) {
    && !(w.legacyRunning && RoleActive(w))
    && (w.journal.Some? ==> JournalSound(w, w.journal.value))
  }

  predicate Fresh(j: Journal) {
    j.status == Prepared && j.snapshot == None
  }

  /** A journal changes within its attempt, keeping what it recorded, or opens the next attempt. */
  predicate JournalGoesOn(a: Option<Journal>, b: Option<Journal>) {
    if a.None? then b.None? || (Fresh(b.value) && b.value.attempt == 1)
    else
      && b.Some?
      && ((b.value.attempt == a.value.attempt && b.value.prior == a.value.prior
           && (a.value.snapshot.Some? ==> b.value.snapshot == a.value.snapshot))
          || (Fresh(b.value) && b.value.attempt == a.value.attempt + 1))
  }

  /** A snapshot directory goes away only while its own attempt has recorded nothing. */
  predicate SnapshotsGoOn(w: World, n: World) {
    forall a | a in w.snapshots && !(a in n.snapshots && n.snapshots[a] == w.snapshots[a]) ::
      w.journal.Some? && a == w.journal.value.attempt && w.journal.value.snapshot == None
  }

  /** What the first v2.2 container of an attempt is created from. */
  predicate InstallReady(w: World) {
    && !w.legacyRunning && w.journal.Some? && w.journal.value.status == SnapshotComplete
    && w.journal.value.attempt in w.snapshots
    && w.snapshots[w.journal.value.attempt] == w.source
    && w.journal.value.snapshot == Some(w.source)
    && (w.journal.value.prior == None ==> w.target == Some(w.source))
  }

  predicate Lawful(w: World, n: World) {
    && JournalGoesOn(w.journal, n.journal) && SnapshotsGoOn(w, n)
    && (NoRuntime(w) && !NoRuntime(n) ==> InstallReady(w))
    && (n.legacyRunning && !w.legacyRunning ==> !RoleActive(w) && !RoleActive(n))
    && (RoleActive(n) && !RoleActive(w) ==> !w.legacyRunning && !n.legacyRunning)
  }

  /** The states of one host over any chain of upgrades, failures, retries, rollbacks and re-upgrades. */
  ghost predicate Run(h: seq<World>) {
    && h != []
    && (forall i | 0 <= i < |h| :: Inv(h[i]))
    && (forall i | 0 <= i < |h| - 1 :: LawfulAt(h, i))
  }

  predicate LawfulAt(h: seq<World>, i: nat)
    requires i + 1 < |h|
  {
    Lawful(h[i], h[i + 1])
  }

  /** One more legal step. */
  lemma Extend(h: seq<World>, n: World)
    requires Run(h) && Inv(n) && Lawful(h[|h| - 1], n)
    ensures Run(h + [n])
  {
    var longer := h + [n];
    forall i | 0 <= i < |longer| - 1 ensures LawfulAt(longer, i) {
      if i < |h| - 1 {
        assert LawfulAt(h, i);
      }
    }
  }

  /** Between the legacy container running and a v2.2 role running there is a moment when neither runs. */
  lemma {:induction false} HandOver(h: seq<World>, i: nat, k: nat) returns (j: nat)
    requires Run(h) && i < k < |h|
    requires (h[i].legacyRunning && RoleActive(h[k])) || (RoleActive(h[i]) && h[k].legacyRunning)
    ensures i < j < k && !h[j].legacyRunning && !RoleActive(h[j])
  {
    assert LawfulAt(h, k - 1);
    assert Inv(h[i]) && Inv(h[k - 1]) && Inv(h[k]);
    if !h[k - 1].legacyRunning && !RoleActive(h[k - 1]) {
      j := k - 1;
    } else {
      j := HandOver(h, i, k - 1);
    }
  }

  /** The attempt number never falls, and every journal of a later attempt has a higher one. */
  lemma {:induction false} AttemptsGrow(h: seq<World>, i: nat, k: nat)
    requires Run(h) && i <= k < |h| && h[i].journal.Some?
    ensures h[k].journal.Some? && h[i].journal.value.attempt <= h[k].journal.value.attempt
    ensures h[k].journal.value.attempt == h[i].journal.value.attempt && h[i].journal.value.snapshot.Some? ==>
              h[k].journal.value.snapshot == h[i].journal.value.snapshot
  {
    if i < k {
      AttemptsGrow(h, i, k - 1);
      assert LawfulAt(h, k - 1);
    }
  }

  /** A journal that opens an attempt has a number no earlier journal had. */
  lemma NewAttemptIsNew(h: seq<World>, i: nat, k: nat)
    requires Run(h) && i < k < |h| && h[i].journal.Some? && h[k].journal.Some? && h[k - 1].journal.Some?
    requires h[k].journal.value.attempt != h[k - 1].journal.value.attempt
    ensures h[i].journal.value.attempt < h[k].journal.value.attempt && Fresh(h[k].journal.value)
  {
    AttemptsGrow(h, i, k - 1);
    assert LawfulAt(h, k - 1);
  }

  /** Once a journal has recorded a snapshot, no later attempt overwrites or removes it. */
  lemma {:induction false} RecordedSnapshotsStay(h: seq<World>, i: nat, k: nat)
    requires Run(h) && i <= k < |h| && h[i].journal.Some? && h[i].journal.value.snapshot.Some?
    ensures SnapshotKept(h[k], h[i].journal.value.attempt, h[i].journal.value.snapshot)
  {
    if i == k {
      assert Inv(h[i]);
    } else {
      RecordedSnapshotsStay(h, i, k - 1);
      AttemptsGrow(h, i, k - 1);
      assert LawfulAt(h, k - 1);
    }
  }

  /** A v2.2 runtime that did not exist was created when snapshot and source, and in a fresh upgrade the target, were equal. */
  lemma {:induction false} InstalledFromEqualTrees(h: seq<World>, i: nat, k: nat) returns (j: nat)
    requires Run(h) && i < k < |h| && NoRuntime(h[i]) && !NoRuntime(h[k])
    ensures i <= j < k && NoRuntime(h[j]) && !NoRuntime(h[j + 1]) && InstallReady(h[j])
  {
    assert LawfulAt(h, k - 1);
    if NoRuntime(h[k - 1]) {
      j := k - 1;
    } else {
      j := InstalledFromEqualTrees(h, i, k - 1);
    }
  }

  // ---- Which commands apply -------------------------------------------------

  /** `upgrade` gets past its reading of state and journal. */
  predicate UpgradeEligible(w: World) {
    match w.state
    case None =>
      w.journal.Some? ==> w.journal.value.status in {Prepared, SnapshotComplete, UpgradeFailed}
    case Some(s) =>
      && w.journal.Some?
      && ((s == Installed && w.journal.value.status in {SnapshotComplete, UpgradeJournalFailed, Upgraded})
          || (s == StateRolledBack
              && w.journal.value.status in {RolledBack, Prepared, SnapshotComplete, ReupgradeFailed}))
  }

  /** The evidence of a cutover that was made: a recorded snapshot, a target, and no legacy writer. */
  predicate CutoverStands(w: World) {
    w.journal.Some? && !w.legacyRunning && w.journal.value.snapshot.Some? && w.target.Some?
  }

  /** The rollback a re-upgrade rests on: the journal itself, or the one it carries. */
  function Evidence(j: Journal): Option<Journal> {
    if j.status == RolledBack then Some(j) else j.prior
  }

  /** A finished rollback with a recorded snapshot and a verified target, which is still as it was recorded. */
  predicate EvidenceStands(w: World, e: Option<Journal>) {
    && e.Some? && e.value.status == RolledBack && e.value.snapshot.Some? && e.value.targetVerified
    && w.target.Some? && e.value.target == w.target
  }

  /** v2.2 is there already, so that `upgrade` only has to finish its records. */
  predicate Recovers(w: World) {
    w.state == Some(Installed) || (w.state == None && w.journal.Some? && !(NoRuntime(w) && !w.network))
  }

  /** The hosts `upgrade` accepts. */
  predicate Accepted(w: World) {
    && UpgradeEligible(w)
    && (w.state == Some(StateRolledBack) ==> EvidenceStands(w, Evidence(w.journal.value)))
    && (Recovers(w) ==> CutoverStands(w) && (w.state == None ==> w.journal.value.status == SnapshotComplete))
  }

  /** The number of the next attempt. */
  function NextAttempt(w: World): nat {
    if w.journal.Some? then w.journal.value.attempt + 1 else 1
  }

  /** Nothing is in the way of the next attempt: no v2.2 object, no tree of its number, no target of a first one. */
  predicate Clear(w: World) {
    && NoRuntime(w) && !w.network && (w.journal == None ==> w.target == None)
    && NextAttempt(w) !in w.snapshots && NextAttempt(w) !in w.snapshotWork && NextAttempt(w) !in w.targetWork
  }

  /** `rollback` gets past its reading of state and journal. */
  predicate RollbackEligible(w: World) {
    && w.state.Some? && w.journal.Some?
    && match w.journal.value.status
       case RolledBack => w.state.value == StateRolledBack
       case SnapshotComplete => w.state.value == Installed
       case UpgradeJournalFailed => w.state.value == Installed
       case Upgraded => true
       case RollbackFailed => true
       case _ => false
  }

  /** The combinations neither command accepts, once both files exist. `StuckAfterRollback` and `StuckAfterInstall` reach two. */
  lemma NeitherApplies(w: World)
    requires w.state.Some? && w.journal.Some?
    ensures var s, j := w.state.value, w.journal.value.status;
            (!UpgradeEligible(w) && !RollbackEligible(w)) <==>
              || (j in {SnapshotComplete, UpgradeJournalFailed} && s in {Uninstalling, Uninstalled})
              || (j == UpgradeJournalFailed && s == StateRolledBack)
              || j == UpgradeFailed
              || (j in {Prepared, ReupgradeFailed, RolledBack} && s != StateRolledBack)
  {
  }

  // ---- How a host gets stuck ------------------------------------------------

  /** The journal of a first attempt. */
  function First(w: World): Journal {
    Journal(Prepared, 1, w.legacyRunning, None, None, false, None)
  }

  /** h begins with a first attempt on w: journal, legacy writer stopped, snapshot, target, both recorded. */
  predicate TakesTrees(w: World, h: seq<World>) {
    && 8 <= |h| && h[0] == w
    && h[1] == w.(journal := Some(First(w))) && h[2] == h[1].(legacyRunning := false)
    && h[3] == h[2].(snapshotWork := h[2].snapshotWork + {1})
    && h[4] == h[3].(snapshots := h[3].snapshots[1 := w.source], snapshotWork := h[3].snapshotWork - {1})
    && h[5] == h[4].(targetWork := h[4].targetWork + {1})
    && h[6] == h[5].(target := Some(w.source), targetWork := h[5].targetWork - {1})
    && h[7] == h[6].(journal := Some(First(w).(status := SnapshotComplete, snapshot := Some(w.source), target := Some(w.source))))
  }

  /** ... and then the v2.2 runtime is started and its state is saved. */
  predicate Installs(w: World, h: seq<World>) {
    && TakesTrees(w, h) && 14 <= |h|
    && h[8] == h[7].(network := true) && h[9] == h[8].(api := Stopped) && h[10] == h[9].(api := Active)
    && h[11] == h[10].(proxy := Stopped) && h[12] == h[11].(proxy := Active)
    && h[13] == h[12].(state := Some(Installed))
  }

  lemma TreesAttempt(w: World) returns (h: seq<World>)
    requires Inv(w) && w.journal == None && w.state == None && Clear(w)
    ensures Run(h) && TakesTrees(w, h) && |h| == 8
  {
    var g := SnapshotAttempt(w);
    var filling := g[4].(targetWork := g[4].targetWork + {1});
    var filled := filling.(target := Some(w.source), targetWork := filling.targetWork - {1});
    var j := First(w).(status := SnapshotComplete, snapshot := Some(w.source), target := Some(w.source));
    Extend(g, filling);
    Extend(g + [filling], filled);
    Extend(g + [filling] + [filled], filled.(journal := Some(j)));
    h := g + [filling] + [filled] + [filled.(journal := Some(j))];
  }

  lemma SnapshotAttempt(w: World) returns (h: seq<World>)
    requires Inv(w) && w.journal == None && w.state == None && Clear(w)
    ensures Run(h) && |h| == 5 && h[0] == w
    ensures h[1] == w.(journal := Some(First(w))) && h[2] == h[1].(legacyRunning := false)
    ensures h[3] == h[2].(snapshotWork := h[2].snapshotWork + {1})
    ensures h[4] == h[3].(snapshots := h[3].snapshots[1 := w.source], snapshotWork := h[3].snapshotWork - {1})
  {
    var prepared := w.(journal := Some(First(w)));
    var stopped := prepared.(legacyRunning := false);
    var copying := stopped.(snapshotWork := stopped.snapshotWork + {1});
    var copied := copying.(snapshots := copying.snapshots[1 := w.source], snapshotWork := copying.snapshotWork - {1});
    Extend([w], prepared);
    Extend([w] + [prepared], stopped);
    Extend([w] + [prepared] + [stopped], copying);
    Extend([w] + [prepared] + [stopped] + [copying], copied);
    h := [w] + [prepared] + [stopped] + [copying] + [copied];
  }

  lemma InstalledAttempt(w: World) returns (h: seq<World>)
    requires Inv(w) && w.journal == None && w.state == None && Clear(w)
    ensures Run(h) && Installs(w, h) && |h| == 14
  {
    var g := TreesAttempt(w);
    h := StartSteps(g);
  }

  lemma StartSteps(g: seq<World>) returns (h: seq<World>)
    requires Run(g) && InstallReady(g[|g| - 1]) && NoRuntime(g[|g| - 1])
    ensures Run(h) && g <= h && |h| == |g| + 6
    ensures h[|g|] == g[|g| - 1].(network := true)
    ensures h[|g| + 1] == h[|g|].(api := Stopped) && h[|g| + 2] == h[|g| + 1].(api := Active)
    ensures h[|g| + 3] == h[|g| + 2].(proxy := Stopped) && h[|g| + 4] == h[|g| + 3].(proxy := Active)
    ensures h[|g| + 5] == h[|g| + 4].(state := Some(Installed))
  {
    var network := g[|g| - 1].(network := true);
    var created := network.(api := Stopped);
    var api := created.(api := Active);
    var both := api.(proxy := Stopped);
    var proxy := both.(proxy := Active);
    var installed := proxy.(state := Some(Installed));
    ExtendRuntime(g, network);
    ExtendRuntime(g + [network], created);
    ExtendRuntime(g + [network] + [created], api);
    ExtendRuntime(g + [network] + [created] + [api], both);
    ExtendRuntime(g + [network] + [created] + [api] + [both], proxy);
    ExtendRuntime(g + [network] + [created] + [api] + [both] + [proxy], installed);
    h := g + [network] + [created] + [api] + [both] + [proxy] + [installed];
  }

  /** A step of the install: trees and journal stay. */
  lemma ExtendRuntime(h: seq<World>, n: World)
    requires Run(h) && !h[|h| - 1].legacyRunning
    requires n == h[|h| - 1].(network := n.network, api := n.api, proxy := n.proxy, state := n.state)
    requires NoRuntime(h[|h| - 1]) ==> InstallReady(h[|h| - 1])
    ensures Run(h + [n])
  {
    assert Inv(h[|h| - 1]);
    Extend(h, n);
  }

  /**
   The upgrade dies between its state and its journal; the rollback that the host then accepts saves
   `uninstalling` and dies. Neither command accepts the host from then on.
   */
  lemma StuckAfterRollback(w: World) returns (h: seq<World>)
    requires Inv(w) && w.journal == None && w.state == None && Clear(w)
    ensures Run(h) && Installs(w, h) && |h| == 15
    ensures RollbackEligible(h[13]) && EvidenceHolds(h[13])
    ensures h[14] == h[13].(state := Some(Uninstalling)) && !UpgradeEligible(h[14]) && !RollbackEligible(h[14])
  {
    var g := InstalledAttempt(w);
    Extend(g, g[13].(state := Some(Uninstalling)));
    h := g + [g[13].(state := Some(Uninstalling))];
  }

  /**
   The install raises after its state is saved; the legacy service is not restarted, because v2.2 is active, and
   the journal says `upgrade-failed`. Neither command accepts the host from then on.
   */
  lemma StuckAfterInstall(w: World) returns (h: seq<World>)
    requires Inv(w) && w.journal == None && w.state == None && Clear(w)
    ensures Run(h) && Installs(w, h) && |h| == 15
    ensures h[14] == h[13].(journal := Some(h[13].journal.value.(status := UpgradeFailed)))
    ensures !UpgradeEligible(h[14]) && !RollbackEligible(h[14])
  {
    var g := InstalledAttempt(w);
    var failed := g[13].(journal := Some(g[13].journal.value.(status := UpgradeFailed)));
    Extend(g, failed);
    h := g + [failed];
  }

  // ---- The host -------------------------------------------------------------

  /** What running containers do by themselves: stop, and write their own data. */
  predicate Drifts(w: World, n: World) {
    && n == w.(legacyRunning := n.legacyRunning, api := n.api, proxy := n.proxy, source := n.source, target := n.target)
    && (n.legacyRunning ==> w.legacyRunning)
    && (n.api == w.api || (w.api == Active && n.api == Stopped))
    && (n.proxy == w.proxy || (w.proxy == Active && n.proxy == Stopped))
    && (n.source == w.source || w.legacyRunning)
    && (n.target == w.target || (w.api == Active && w.target.Some? && n.target.Some?))
  }

  lemma DriftKeeps(w: World, n: World)
    requires Inv(w) && Drifts(w, n)
    ensures Inv(n) && Lawful(w, n)
  {
  }

  /** What `rollback` checks before it changes anything: a recorded snapshot, and, while v2.2 is in charge, an untouched source. */
  predicate EvidenceHolds(w: World)
    requires RollbackEligible(w)
  {
    var j := w.journal.value;
    || j.status == RolledBack
    || (j.snapshot.Some?
        && (w.state.value in {Uninstalled, StateRolledBack} || (!w.legacyRunning && j.snapshot == Some(w.source))))
  }

  /** The uninstaller will leave no v2.2 role active. */
  predicate Removable(w: World) {
    w.state.Some? && (w.state.value in {Installed, Uninstalling} || !RoleActive(w))
  }

  /** The legacy container ran, healthy, at some moment from state `from` on. */
  ghost predicate LegacyRan(h: seq<World>, from: int) {
    exists i :: from <= i < |h| && 0 <= i && h[i].legacyRunning
  }

  /** Nothing runs: every tree holds still. */
  predicate Still(w: World) {
    !w.legacyRunning && !RoleActive(w)
  }

  /** The same containers run. */
  predicate Quiet(w: World, n: World) {
    n.legacyRunning == w.legacyRunning && n.api == w.api && n.proxy == w.proxy
  }

  class Host {
    const calm: bool                     // no step fails, and no container stops by itself
    var w: World
    ghost var history: seq<World>

    ghost predicate Valid()
      reads this
    {
      Run(history) && history[|history| - 1] == w
    }

    constructor (w: World, calm: bool)
      requires Inv(w)
      ensures Valid() && this.w == w && history == [w] && this.calm == calm
    {
      this.w, this.calm, history := w, calm, [w];
    }

    ghost method Record(next: World)
      requires Run(history) && Inv(next) && Lawful(history[|history| - 1], next)
      modifies this`history
      ensures Run(history) && history == old(history) + [next]
    {
      Extend(history, next);
      history := history + [next];
    }

    /** Time passes between two steps. */
    method Meanwhile()
      requires Valid()
      modifies this`w, this`history
      ensures Valid() && old(history) <= history && Drifts(old(w), w) && (calm ==> Quiet(old(w), w))
    {
      var n: World := *;
      if Drifts(w, n) && (calm ==> Quiet(w, n)) {
        DriftKeeps(w, n);
        Record(n);
        w := n;
      }
    }

    /** One durable step, and what happens by itself after it. */
    method Become(next: World) returns (o: Outcome)
      requires Valid() && Inv(next) && Lawful(w, next)
      modifies this`w, this`history
      ensures Valid() && old(history) <= history && !o.Refused?
      ensures Drifts(next, w) || (Drifts(old(w), w) && !o.Done?)
      ensures calm ==> o.Done? && Quiet(next, w)
    {
      var fault: bool, happens: bool, dies: bool := *, *, *;
      fault := fault && !calm;
      if happens || !fault {
        Record(next);
        w := next;
      }
      Meanwhile();
      o := if !fault then Done else if dies then Died else Raised;
    }

    /** A check or a call that changes nothing itself. */
    method Pass() returns (o: Outcome)
      requires Valid()
      modifies this`w, this`history
      ensures Valid() && old(history) <= history && !o.Refused? && Drifts(old(w), w)
      ensures calm ==> o.Done? && Quiet(old(w), w)
    {
      o := Become(w);
    }

    // ---- Restoring and removing ---------------------------------------------

    /** `_restore_legacy_service`: never while a v2.2 role is active. */
    method RestoreLegacy() returns (o: Outcome)
      requires Valid()
      modifies this`w, this`history
      ensures Valid() && old(history) <= history && !o.Refused?
      ensures SameFiles(old(w), w) && (o.Done? ==> w.legacyRunning)
      ensures calm && !RoleActive(old(w)) ==> o.Done? && w.api == old(w).api && w.proxy == old(w).proxy
      ensures calm ==> !o.Died?
    {
      if RoleActive(w) {
        return Raised;
      }
      :- Pass();
      if !w.legacyRunning {
        :- Become(w.(legacyRunning := true));
      }
      :- Pass();
      o := if w.legacyRunning then Done else Raised;
    }

    /** `StateStore.save`. */
    method SaveState(status: StateStatus) returns (o: Outcome)
      requires Valid()
      modifies this`w, this`history
      ensures Valid() && old(history) <= history && !o.Refused?
      ensures w.journal == old(w).journal && w.network == old(w).network && (o.Done? ==> w.state == Some(status))
      ensures NoRuntime(old(w)) ==> NoRuntime(w)
      ensures calm ==> o.Done? && Quiet(old(w), w)
    {
      o := Become(w.(state := Some(status)));
    }

    /** Remove the stopped proxy. */
    method DropProxy() returns (o: Outcome)
      requires Valid()
      modifies this`w, this`history
      ensures Valid() && old(history) <= history && !o.Refused? && Removing(old(w), w)
      ensures o.Done? ==> w.proxy == Absent
      ensures calm ==> o.Done?
    {
      o := Pass();
      if o.Done? {
        o := Become(w.(proxy := Absent));
      }
    }

    /** Stop and remove the proxy, if it exists. */
    method RemoveProxy() returns (o: Outcome)
      requires Valid()
      modifies this`w, this`history
      ensures Valid() && old(history) <= history && !o.Refused? && Removing(old(w), w)
      ensures o.Done? ==> w.proxy == Absent
      ensures calm ==> o.Done?
    {
      if w.proxy == Absent {
        return Done;
      }
      if w.proxy == Active {
        :- Become(w.(proxy := Stopped));
      }
      o := DropProxy();
    }

    /** Remove the stopped API. */
    method DropApi() returns (o: Outcome)
      requires Valid()
      modifies this`w, this`history
      ensures Valid() && old(history) <= history && !o.Refused? && Removing(old(w), w)
      ensures o.Done? ==> w.api == Absent
      ensures calm ==> o.Done?
    {
      o := Pass();
      if o.Done? {
        o := Become(w.(api := Absent));
      }
    }

    /** Stop and remove the API, if it exists. */
    method RemoveApi() returns (o: Outcome)
      requires Valid()
      modifies this`w, this`history
      ensures Valid() && old(history) <= history && !o.Refused? && Removing(old(w), w)
      ensures o.Done? ==> w.api == Absent
      ensures calm ==> o.Done?
    {
      if w.api == Absent {
        return Done;
      }
      if w.api == Active {
        :- Become(w.(api := Stopped));
      }
      o := DropApi();
    }

    /** Remove the private network, if it exists. */
    method RemoveNetwork() returns (o: Outcome)
      requires Valid()
      modifies this`w, this`history
      ensures Valid() && old(history) <= history && !o.Refused? && Removing(old(w), w)
      ensures o.Done? ==> !w.network
      ensures calm ==> o.Done?
    {
      o := Pass();
      if !o.Done? {
        return;
      }
      o := Become(w.(network := false));
    }

    /** `RuntimeUninstaller.uninstall`; a finished removal returns at once. */
    method Uninstall() returns (o: Outcome)
      requires Valid() && w.state.Some?
      modifies this`w, this`history
      ensures Valid() && old(history) <= history && !o.Refused? && w.journal == old(w).journal
      ensures o.Done? ==> w.state == Some(Uninstalled) || (w.state == old(w).state == Some(StateRolledBack))
      ensures o.Done? && old(w).state.value in {Installed, Uninstalling} ==> NoRuntime(w) && !w.network
      ensures o.Done? && old(w).state.value in {Uninstalled, StateRolledBack} ==> w == old(w)
      ensures calm ==> o.Done?
    {
      if w.state.value in {Uninstalled, StateRolledBack} {
        return Done;
      }
      :- Pass();
      :- SaveState(Uninstalling);
      :- RemoveRuntime();
      o := SaveState(Uninstalled);
    }

    /** Proxy, then API, then network. */
    method RemoveRuntime() returns (o: Outcome)
      requires Valid()
      modifies this`w, this`history
      ensures Valid() && old(history) <= history && !o.Refused? && Removing(old(w), w)
      ensures o.Done? ==> NoRuntime(w) && !w.network
      ensures calm ==> o.Done?
    {
      o := RemoveProxy();
      if !o.Done? {
        return;
      }
      :- RemoveApi();
      o := RemoveNetwork();
    }

    /** Save the journal within its attempt; what is recorded stays recorded. */
    method SaveJournal(j: Journal) returns (o: Outcome)
      requires Valid() && w.journal.Some? && JournalSound(w, j) && JournalGoesOn(w.journal, Some(j))
      requires j.attempt == w.journal.value.attempt
      modifies this`w, this`history
      ensures Valid() && old(history) <= history && !o.Refused?
      ensures Drifts(old(w), w) || Drifts(old(w).(journal := Some(j)), w)
      ensures o.Done? ==> Drifts(old(w).(journal := Some(j)), w)
      ensures calm ==> o.Done? && Quiet(old(w), w)
    {
      o := Become(w.(journal := Some(j)));
    }

    /** `rollback`. */
    method Rollback() returns (o: Outcome)
      requires Valid()
      modifies this`w, this`history
      ensures Valid() && old(history) <= history
      ensures o.Refused? <==> !old(RollbackEligible(w) && EvidenceHolds(w))
      ensures o.Refused? ==> w == old(w) && history == old(history)
      ensures calm && old(RollbackEligible(w) && EvidenceHolds(w) && Removable(w)) ==> o.Done? && w.legacyRunning
      ensures o.Done? ==>
                && w.state == Some(StateRolledBack)
                && w.journal.Some? && w.journal.value.status == RolledBack
                && LegacyRan(history, |old(history)| - 1)
    {
      if w.journal.None? || w.state.None? {
        return Refused;
      }
      var j := w.journal.value;
      if j.status == RolledBack {
        if w.state != Some(StateRolledBack) {
          return Refused;
        }
        o := RestoreLegacy();
        assert history[|history| - 1] == w;
        return;
      }
      if j.status in {SnapshotComplete, UpgradeJournalFailed} {
        if w.state != Some(Installed) {
          return Refused;
        }
      } else if j.status !in {Upgraded, RollbackFailed} {
        return Refused;
      }
      if w.state.value !in {Uninstalled, StateRolledBack} {
        if w.legacyRunning {
          return Refused;
        }
        if j.snapshot != Some(w.source) {
          return Refused;
        }
      }
      if j.snapshot.None? {
        return Refused;
      }
      o := Pass();
      if !o.Done? {
        return;
      }
      var memory;
      o, memory := RollbackSteps(j);
      if o.Raised? {
        o := SaveJournal(memory.(status := RollbackFailed));
        o := if o.Died? then Died else Raised;
      }
    }

    /** Remove the v2.2 runtime, then restore the legacy service. */
    method GiveBack() returns (o: Outcome)
      requires Valid() && w.state.Some?
      modifies this`w, this`history
      ensures Valid() && old(history) <= history && !o.Refused? && w.journal == old(w).journal
      ensures o.Done? ==> w.legacyRunning
      ensures calm && Removable(old(w)) ==> o.Done? && !RoleActive(w)
    {
      ghost var before := w.state.value;
      o := Uninstall();
      if !o.Done? {
        return;
      }
      assert before.Installed? || before.Uninstalling? || before.Uninstalled? || before.StateRolledBack?;
      o := RestoreLegacy();
    }

    /** The `try` block of `rollback`, and the journal it holds in memory. */
    method RollbackSteps(j: Journal) returns (o: Outcome, memory: Journal)
      requires Valid() && w.journal == Some(j) && w.state.Some? && j.snapshot.Some?
      modifies this`w, this`history
      ensures Valid() && old(history) <= history && !o.Refused?
      ensures w.journal.Some? && SameAttempt(w.journal.value, memory) && SameAttempt(j, memory)
      ensures o.Done? ==> w.state == Some(StateRolledBack) && w.journal.value.status == RolledBack
      ensures o.Done? ==> LegacyRan(history, |old(history)| - 1)
      ensures calm && Removable(old(w)) ==> o.Done? && w.legacyRunning
    {
      memory := j;
      o := GiveBack();
      if !o.Done? {
        return;
      }
      ghost var restored := |history| - 1;
      assert history[restored].legacyRunning;
      o, memory := FinishRollback(j);
      assert history[restored].legacyRunning;
    }

    /** Classify the preserved target, save the state, then the journal. */
    method FinishRollback(j: Journal) returns (o: Outcome, memory: Journal)
      requires Valid() && w.journal == Some(j)
      modifies this`w, this`history
      ensures Valid() && old(history) <= history && !o.Refused?
      ensures w.journal.Some? && SameAttempt(w.journal.value, memory) && SameAttempt(j, memory)
      ensures o.Done? ==> w.state == Some(StateRolledBack) && w.journal.value.status == RolledBack
      ensures calm ==> o.Done? && Quiet(old(w), w)
    {
      var verified: bool := *;
      verified := verified && w.target.Some?;
      memory := j.(target := if verified then w.target else None, targetVerified := verified);
      o := SaveState(StateRolledBack);
      if !o.Done? {
        return;
      }
      memory := memory.(status := RolledBack);
      o := SaveJournal(memory);
    }

    // ---- Upgrade: reading state and journal ---------------------------------

    /** `_recover_active_upgrade`. */
    method RecoverActive() returns (o: Outcome)
      requires Valid() && w.journal.Some?
      modifies this`w, this`history
      ensures Valid() && old(history) <= history
      ensures o.Refused? <==> !old(CutoverStands(w) && w.state == Some(Installed))
      ensures o.Refused? ==> w == old(w) && history == old(history)
      ensures o.Done? ==> w.state == Some(Installed) && w.journal.Some? && w.journal.value.status == Upgraded
      ensures calm ==> o.Done? || o.Refused?
    {
      var j := w.journal.value;
      if w.state != Some(Installed) || w.legacyRunning || j.snapshot.None? || w.target.None? {
        return Refused;
      }
      :- Pass();
      if j.status == Upgraded {
        return Done;
      }
      o := SaveJournal(j.(status := Upgraded));
    }

    /** `_recover_journal_only_runtime`: adopt a live cutover; `None` when no v2.2 object exists. */
    method RecoverJournalOnly() returns (o: Outcome, found: bool)
      requires Valid() && w.journal.Some?
      modifies this`w, this`history
      ensures Valid() && old(history) <= history
      ensures !found ==> o.Done? && w == old(w)
      ensures found <==> !old(NoRuntime(w) && !w.network)
      ensures found ==> (o.Refused? <==> !old(CutoverStands(w) && w.journal.value.status == SnapshotComplete))
      ensures o.Refused? ==> w == old(w) && history == old(history)
      ensures calm ==> o.Done? || o.Refused?
      ensures found && o.Done? ==>
                w.state == Some(Installed) && w.journal.Some? && w.journal.value.status == Upgraded
    {
      found := !(NoRuntime(w) && !w.network);
      o := Done;
      if !found {
        return;
      }
      var j := w.journal.value;
      if j.status != SnapshotComplete || w.legacyRunning || j.snapshot.None? || w.target.None? {
        o := Refused;
        return;
      }
      o := Become(w.(state := Some(Installed)));
      if o.Done? {
        o := RecoverActive();
      }
    }

    /** The part of `upgrade` before the legacy container is looked at; `None` when it has already finished. */
    method Decide() returns (o: Outcome, plan: Option<Plan>)
      requires Valid()
      modifies this`w, this`history
      ensures Valid() && old(history) <= history
      ensures o.Refused? <==> !old(Accepted(w))
      ensures o.Refused? ==> w == old(w) && history == old(history)
      ensures plan.Some? <==> old(Accepted(w) && !Recovers(w))
      ensures plan.Some? ==> o.Done? && w == old(w) && Fits(w, plan.value)
      ensures plan.Some? ==> w.state in {None, Some(StateRolledBack)}
      ensures calm ==> o.Done? || o.Refused?
      ensures o.Done? && plan.None? ==>
                w.state == Some(Installed) && w.journal.Some? && w.journal.value.status == Upgraded
    {
      plan := None;
      o := Refused;
      if w.journal.None? {
        if w.state.None? {
          o, plan := Done, Some(Plan(None, None, false));
        }
        return;
      }
      var j := w.journal.value;
      if w.state.None? {
        if j.status !in {Prepared, SnapshotComplete, UpgradeFailed} {
          return;
        }
        var found;
        o, found := RecoverJournalOnly();
        if !found {
          plan := Some(Plan(Some(j), None, true));
        }
        return;
      }
      if w.state == Some(Installed) && j.status in {SnapshotComplete, UpgradeJournalFailed, Upgraded} {
        o := RecoverActive();
        return;
      }
      if w.state == Some(StateRolledBack) && j.status in {RolledBack, Prepared, SnapshotComplete, ReupgradeFailed} {
        if j.status != RolledBack && (j.prior.None? || j.prior.value.status != RolledBack) {
          return;
        }
        var evidence := if j.status == RolledBack then j else j.prior.value;
        if evidence.snapshot.None? || !evidence.targetVerified || w.target.None? || evidence.target != w.target {
          return;
        }
        o, plan := Done, Some(Plan(Some(j), Some(evidence), j.status != RolledBack));
      }
    }

    // ---- Upgrade: preparing an attempt --------------------------------------

    /** `_preserve_incomplete`: the partial snapshot is renamed away. */
    method PreserveSnapshotWork(j: Journal) returns (o: Outcome)
      requires Valid() && w.journal == Some(j)
      modifies this`w, this`history
      ensures Valid() && old(history) <= history && !o.Refused? && Preserving(old(w), w)
      ensures OtherTrees(old(w), w, j.attempt) && (NoRuntime(old(w)) ==> w.target == old(w).target)
      ensures calm ==> o.Done? && Quiet(old(w), w)
      ensures o.Done? ==> j.attempt !in w.snapshotWork
    {
      o := Become(w.(snapshotWork := w.snapshotWork - {j.attempt}));
    }

    /** ... and so is a published snapshot, unless the journal recorded it. */
    method PreserveSnapshot(j: Journal) returns (o: Outcome)
      requires Valid() && w.journal == Some(j)
      modifies this`w, this`history
      ensures Valid() && old(history) <= history && !o.Refused? && Preserving(old(w), w)
      ensures OtherTrees(old(w), w, j.attempt) && (NoRuntime(old(w)) ==> w.target == old(w).target)
      ensures calm ==> o.Done? && Quiet(old(w), w)
      ensures w.snapshotWork == old(w).snapshotWork && (o.Done? && j.attempt in w.snapshots ==> j.snapshot.Some?)
    {
      if j.attempt !in w.snapshots || j.snapshot.Some? {
        o := Pass();
        return;
      }
      o := Become(w.(snapshots := w.snapshots - {j.attempt}));
    }

    /** ... and the partial target. */
    method PreserveTargetWork(j: Journal) returns (o: Outcome)
      requires Valid() && w.journal == Some(j)
      modifies this`w, this`history
      ensures Valid() && old(history) <= history && !o.Refused? && Preserving(old(w), w)
      ensures OtherTrees(old(w), w, j.attempt) && (NoRuntime(old(w)) ==> w.target == old(w).target)
      ensures calm ==> o.Done? && Quiet(old(w), w)
      ensures w.snapshotWork == old(w).snapshotWork && w.snapshots == old(w).snapshots
      ensures o.Done? ==> j.attempt !in w.targetWork
    {
      o := Become(w.(targetWork := w.targetWork - {j.attempt}));
    }

    /** The trees of the interrupted attempt, all but the target. */
    method PreserveWork(j: Journal) returns (o: Outcome)
      requires Valid() && w.journal == Some(j)
      modifies this`w, this`history
      ensures Valid() && old(history) <= history && !o.Refused? && Preserving(old(w), w)
      ensures OtherTrees(old(w), w, j.attempt) && (NoRuntime(old(w)) ==> w.target == old(w).target)
      ensures calm ==> o.Done? && Quiet(old(w), w)
      ensures o.Done? ==> j.attempt !in w.snapshotWork && j.attempt !in w.targetWork
      ensures o.Done? ==> (j.attempt in w.snapshots ==> j.snapshot.Some?)
    {
      o := PreserveSnapshotWork(j);
      if !o.Done? {
        return;
      }
      o := PreserveSnapshot(j);
      if !o.Done? {
        return;
      }
      o := PreserveTargetWork(j);
    }

    /** `_prepare_failed_upgrade_retry`; a re-upgrade keeps its target. */
    method PrepareRetry(j: Journal, preserveTarget: bool) returns (o: Outcome)
      requires Valid() && w.journal == Some(j)
      modifies this`w, this`history
      ensures Valid() && old(history) <= history && !o.Refused? && Preserving(old(w), w)
      ensures o.Done? ==> j.attempt !in w.snapshotWork && j.attempt !in w.targetWork
      ensures o.Done? ==> (j.attempt in w.snapshots ==> j.snapshot.Some?) && (!preserveTarget ==> w.target == None)
      ensures OtherTrees(old(w), w, j.attempt) && (calm ==> o.Done? && Quiet(old(w), w))
      ensures preserveTarget && NoRuntime(old(w)) ==> w.target == old(w).target
    {
      o := PreserveWork(j);
      if !o.Done? {
        return;
      }
      if preserveTarget || w.target.None? {
        return Done;
      }
      o := Become(w.(target := None));
    }

    /** A retry first moves away what its attempt left. */
    method MakeRoom(plan: Plan) returns (o: Outcome)
      requires Valid() && Fits(w, plan)
      modifies this`w, this`history
      ensures Valid() && old(history) <= history && !o.Refused? && Preserving(old(w), w)
      ensures SameTrees(old(w), w, NextAttempt(old(w))) && (calm ==> o.Done? && Quiet(old(w), w))
      ensures o.Done? && plan.previous.Some? && plan.evidence.None? ==> w.target == None
      ensures (plan.previous.None? || plan.evidence.Some?) && NoRuntime(old(w)) ==> w.target == old(w).target
    {
      o := Pass();
      if o.Done? && plan.retrying {
        o := PrepareRetry(plan.previous.value, plan.evidence.Some?);
      }
    }

    /** `_prepare_upgrade_attempt`: the retry's trees, the preflight, and the numbered journal. */
    method Prepare(plan: Plan, restart: bool) returns (o: Outcome, j: Journal)
      requires Valid() && Fits(w, plan)
      modifies this`w, this`history
      ensures Valid() && old(history) <= history && !o.Refused?
      ensures o.Done? ==> Ready(w, j) && j.prior == plan.evidence && j.initialRunning == restart
      ensures o.Done? ==> j.attempt == if plan.previous.Some? then plan.previous.value.attempt + 1 else 1
      ensures w.state == old(w).state
      ensures plan.evidence.Some? && NoRuntime(old(w)) ==> w.target == old(w).target
      ensures calm ==> (o.Done? <==> Clear(old(w)))
    {
      var attempt := if plan.previous.Some? then plan.previous.value.attempt + 1 else 1;
      j := Journal(Prepared, attempt, restart, None, None, false, plan.evidence);
      o := MakeRoom(plan);
      if !o.Done? {
        return;
      }
      if !NoRuntime(w) || w.network || (plan.evidence.None? && w.target.Some?) {
        return Raised, j;
      }
      if attempt in w.snapshots || attempt in w.snapshotWork || attempt in w.targetWork {
        return Raised, j;
      }
      PlanIsSound(w, plan, j);
      o := Become(w.(journal := Some(j)));
    }

    // ---- Upgrade: the attempt -----------------------------------------------

    /** Stop the legacy writer, settle its data, and publish the snapshot through its work tree. */
    method TakeSnapshot(j: Journal) returns (o: Outcome)
      requires Valid() && Ready(w, j)
      modifies this`w, this`history
      ensures Valid() && old(history) <= history && !o.Refused? && w.journal == Some(j)
      ensures o.Done? ==> Cut(w, j) && (j.prior == None ==> w.target == None)
      ensures calm ==> o.Done? && Unmoved(old(w), w) && w.target == old(w).target
    {
      o := StopLegacy();
      if !o.Done? {
        return;
      }
      var settled: Tree := *;
      o := Become(w.(source := settled));
      if !o.Done? {
        return;
      }
      o := PublishSnapshot(j);
    }

    /** The copy through the work tree, and the rename. */
    method PublishSnapshot(j: Journal) returns (o: Outcome)
      requires Valid() && Ready(w, j) && Still(w)
      modifies this`w, this`history
      ensures Valid() && old(history) <= history && !o.Refused? && w.journal == Some(j)
      ensures o.Done? ==> Cut(w, j) && (j.prior == None ==> w.target == None)
      ensures calm ==> o.Done? && Unmoved(old(w), w) && w.target == old(w).target
    {
      o := Become(w.(snapshotWork := w.snapshotWork + {j.attempt}));
      if !o.Done? {
        return;
      }
      o := Become(w.(snapshots := w.snapshots[j.attempt := w.source], snapshotWork := w.snapshotWork - {j.attempt}));
      if o.Done? {
        o := Pass();
      }
    }

    method StopLegacy() returns (o: Outcome)
      requires Valid()
      modifies this`w, this`history
      ensures Valid() && old(history) <= history && !o.Refused? && SameFiles(old(w), w)
      ensures NoRuntime(old(w)) ==> NoRuntime(w) && w.target == old(w).target
      ensures o.Done? ==> !w.legacyRunning
      ensures calm ==> o.Done?
    {
      if w.legacyRunning {
        :- Become(w.(legacyRunning := false));
      }
      :- Pass();
      o := if w.legacyRunning then Raised else Done;
    }

    /** A fresh upgrade copies the snapshot to the target; a re-upgrade keeps its target. */
    method FillTarget(j: Journal) returns (o: Outcome)
      requires Valid() && Cut(w, j) && Fresh(j)
      modifies this`w, this`history
      ensures Valid() && old(history) <= history && !o.Refused? && w.journal == Some(j)
      ensures o.Done? ==> Cut(w, j) && w.target.Some? && (j.prior == None ==> w.target == Some(w.source))
      ensures calm && Fillable(old(w), j) ==> o.Done? && Unmoved(old(w), w)
    {
      if j.prior == None {
        if w.target.Some? || j.attempt in w.targetWork {
          return Raised;
        }
        :- Become(w.(targetWork := w.targetWork + {j.attempt}));
        :- Become(w.(target := Some(w.snapshots[j.attempt]), targetWork := w.targetWork - {j.attempt}));
      }
      :- Pass();
      o := if w.target.Some? then Done else Raised;
    }

    /** The `try` block of an install: network, API, proxy, then the state. */
    method StartRuntime() returns (o: Outcome, committed: bool)
      requires Valid() && InstallReady(w) && NoRuntime(w)
      modifies this`w, this`history
      ensures Valid() && old(history) <= history && !o.Refused? && w.journal == old(w).journal
      ensures o.Done? ==> committed && w.state == Some(Installed) && w.api != Absent && w.proxy != Absent
      ensures calm ==> o.Done? && w.api == Active && w.proxy == Active
    {
      committed := false;
      o := Become(w.(network := true));
      if !o.Done? {
        return;
      }
      o := StartRoles();
      if !o.Done? {
        return;
      }
      o := Become(w.(state := Some(Installed)));
      if o.Done? {
        committed := true;
        o := Pass();
      }
    }

    /** The API, and then the proxy. */
    method StartRoles() returns (o: Outcome)
      requires Valid() && InstallReady(w) && NoRuntime(w)
      modifies this`w, this`history
      ensures Valid() && old(history) <= history && !o.Refused? && w.journal == old(w).journal
      ensures o.Done? ==> w.api != Absent && w.proxy != Absent
      ensures calm ==> o.Done? && w.api == Active && w.proxy == Active
    {
      o := StartApi();
      if !o.Done? {
        return;
      }
      o := StartProxy();
    }

    /** Create and start the API; the first v2.2 container of the attempt. */
    method StartApi() returns (o: Outcome)
      requires Valid() && InstallReady(w) && NoRuntime(w)
      modifies this`w, this`history
      ensures Valid() && old(history) <= history && !o.Refused? && w.journal == old(w).journal
      ensures o.Done? ==> !w.legacyRunning && w.api != Absent && w.proxy == Absent
      ensures calm ==> o.Done? && w.api == Active
    {
      o := Become(w.(api := Stopped));
      if !o.Done? {
        return;
      }
      :- Become(w.(api := Active));
      o := Pass();
    }

    /** Create and start the proxy beside the API. */
    method StartProxy() returns (o: Outcome)
      requires Valid() && !w.legacyRunning && w.api != Absent
      modifies this`w, this`history
      ensures Valid() && old(history) <= history && !o.Refused? && w.journal == old(w).journal
      ensures o.Done? ==> w.api != Absent && w.proxy != Absent
      ensures calm && old(w).proxy == Absent ==> o.Done? && w.proxy == Active && w.api == old(w).api
    {
      if w.proxy != Absent {
        return Raised;
      }
      :- Become(w.(proxy := Stopped));
      :- Become(w.(proxy := Active));
      o := Pass();
    }

    /** `installer.install`: preflight, start, and the cleanup of a start that failed. */
    method Install() returns (o: Outcome)
      requires Valid() && InstallReady(w) && NoRuntime(w)
      modifies this`w, this`history
      ensures Valid() && old(history) <= history && !o.Refused? && w.journal == old(w).journal
      ensures o.Done? ==> w.state == Some(Installed) && w.api != Absent && w.proxy != Absent
      ensures calm && !old(w).network && old(w).state in {None, Some(Uninstalled), Some(StateRolledBack)} ==>
                o.Done? && w.api == Active && w.proxy == Active
    {
      if w.network || w.state in {Some(Installed), Some(Uninstalling)} {
        return Raised;
      }
      :- Pass();
      var committed;
      o, committed := StartRuntime();
      if o.Raised? && !committed {
        var removed := RemoveRuntime();
        o := if removed.Died? then Died else Raised;
      }
    }

    /** Snapshot and target, and the journal that records both. */
    method RecordTrees(j: Journal) returns (o: Outcome, memory: Journal)
      requires Valid() && Ready(w, j)
      modifies this`w, this`history
      ensures Valid() && old(history) <= history && !o.Refused?
      ensures InMemory(w, j, memory)
      ensures o.Done? ==> InstallReady(w) && NoRuntime(w) && w.journal == Some(memory)
      ensures calm && (j.prior == None || old(w).target.Some?) ==> o.Done? && Unmoved(old(w), w)
    {
      memory := j;
      o := TakeSnapshot(j);
      if !o.Done? {
        return;
      }
      o := FillTarget(j);
      if !o.Done? {
        return;
      }
      memory := j.(status := SnapshotComplete, snapshot := Some(w.source), target := w.target);
      o := SaveJournal(memory);
    }

    /** The `try` block of `upgrade`, with the journal it holds in memory. */
    method RunAttempt(j: Journal) returns (o: Outcome, memory: Journal, installed: bool)
      requires Valid() && Ready(w, j)
      modifies this`w, this`history
      ensures Valid() && old(history) <= history && !o.Refused?
      ensures InMemory(w, j, memory)
      ensures o.Done? ==> w.journal.value.status == Upgraded && w.state == Some(Installed)
      ensures calm && old(w).state in {None, Some(StateRolledBack)} && (j.prior == None || old(w).target.Some?) ==>
                o.Done? && w.api == Active && w.proxy == Active
    {
      installed := false;
      o, memory := RecordTrees(j);
      if !o.Done? {
        return;
      }
      o := Install();
      if !o.Done? {
        return;
      }
      installed := true;
      memory := memory.(status := Upgraded);
      o := SaveJournal(memory);
    }

    /** The `except` block: restart the legacy service unless v2.2 took over, and note the failure. */
    method Fail(memory: Journal, restart: bool, installed: bool) returns (o: Outcome)
      requires Valid() && InMemory(w, memory, memory)
      modifies this`w, this`history
      ensures Valid() && old(history) <= history && (o.Raised? || o.Died?)
      ensures calm ==> w.journal.Some? && w.journal.value.status in {UpgradeJournalFailed, ReupgradeFailed, UpgradeFailed}
      ensures calm && restart && !installed && !RoleActive(old(w)) ==> w.legacyRunning
    {
      var status := if installed then UpgradeJournalFailed
                    else if memory.prior.Some? then ReupgradeFailed else UpgradeFailed;
      if restart && !installed {
        o := RestoreLegacy();
        if o.Died? {
          return;
        }
      }
      o := SaveJournal(memory.(status := status));
      o := if o.Died? then Died else Raised;
    }

    /** `upgrade`: recovery of a live cutover, or a new numbered attempt. */
    method Upgrade() returns (o: Outcome)
      requires Valid()
      modifies this`w, this`history
      ensures Valid() && old(history) <= history
      ensures o.Refused? <==> !old(Accepted(w))
      ensures o.Refused? ==> w == old(w) && history == old(history)
      ensures o.Done? ==> w.journal.Some? && w.journal.value.status == Upgraded && w.state == Some(Installed)
      ensures calm ==> (o.Done? <==> old(Accepted(w) && (Recovers(w) || Clear(w))))
      ensures calm && old(Accepted(w) && !Recovers(w) && Clear(w)) ==>
                w.api == Active && w.proxy == Active && !w.legacyRunning
    {
      var found;
      o, found := Decide();
      if found.None? {
        return;
      }
      o := Attempt(found.value);
    }

    /** The next attempt, and what follows its failure. */
    method Attempt(plan: Plan) returns (o: Outcome)
      requires Valid() && Fits(w, plan) && w.state in {None, Some(StateRolledBack)}
      modifies this`w, this`history
      ensures Valid() && old(history) <= history && !o.Refused?
      ensures o.Done? ==> w.journal.Some? && w.journal.value.status == Upgraded && w.state == Some(Installed)
      ensures calm ==> (o.Done? <==> old(Clear(w)))
      ensures calm && o.Done? ==> w.api == Active && w.proxy == Active
    {
      ghost var decided := w;
      o := Pass();
      if !o.Done? {
        return;
      }
      if calm {
        DriftKeepsClear(decided, w);
      }
      var restart := w.legacyRunning || (plan.previous.Some? && plan.previous.value.initialRunning);
      var j;
      o, j := Prepare(plan, restart);
      if !o.Done? {
        if o.Raised? && restart && plan.retrying {
          o := RestoreLegacy();
          o := if o.Died? then Died else Raised;
        }
        return;
      }
      var memory, installed;
      o, memory, installed := RunAttempt(j);
      if o.Raised? {
        o := Fail(memory, restart, installed);
      }
    }
  }

  /** `memory` is a sound continuation of the journal on disk, in attempt j. */
  predicate InMemory(w: World, j: Journal, memory: Journal) {
    && w.journal.Some? && w.journal.value.attempt == j.attempt == memory.attempt
    && JournalSound(w, memory) && JournalGoesOn(w.journal, Some(memory))
  }

  /** State and network are as they were. */
  predicate Unmoved(w: World, n: World) {
    n.state == w.state && n.network == w.network && n.targetWork <= w.targetWork
  }

  /** The legacy writer is stopped and the attempt's snapshot is its data. */
  predicate Cut(w: World, j: Journal) {
    && w.journal == Some(j) && Still(w) && NoRuntime(w)
    && j.attempt in w.snapshots && w.snapshots[j.attempt] == w.source
  }

  /** A prepared attempt: its journal is on disk, nothing of it exists yet, and no v2.2 role exists. */
  predicate Ready(w: World, j: Journal) {
    && w.journal == Some(j) && Fresh(j) && NoRuntime(w) && !w.network
    && j.attempt !in w.snapshots && j.attempt !in w.targetWork && (j.prior == None ==> w.target == None)
  }

  lemma PlanIsSound(w: World, plan: Plan, j: Journal)
    requires Inv(w) && w.journal == plan.previous && Fresh(j) && j.prior == plan.evidence
    requires plan.evidence.Some? ==>
               plan.previous.Some? && (plan.evidence == plan.previous || plan.evidence == plan.previous.value.prior)
    requires j.attempt == if plan.previous.Some? then plan.previous.value.attempt + 1 else 1
    ensures JournalSound(w, j) && JournalGoesOn(w.journal, Some(j))
  {
  }

  /** Only work trees, unrecorded snapshots, the target and running containers change. */
  predicate Preserving(w: World, n: World) {
    && n == w.(legacyRunning := n.legacyRunning, api := n.api, proxy := n.proxy, source := n.source, target := n.target,
               snapshots := n.snapshots, snapshotWork := n.snapshotWork, targetWork := n.targetWork)
    && (w.api == Absent ==> n.api == Absent) && (w.proxy == Absent ==> n.proxy == Absent)
  }

  /** Trees of every attempt but a are as present as they were. */
  ghost predicate OtherTrees(w: World, n: World, a: nat) {
    && (forall b: nat | b != a :: b in n.snapshots <==> b in w.snapshots)
    && (forall b: nat | b != a :: b in n.snapshotWork <==> b in w.snapshotWork)
    && (forall b: nat | b != a :: b in n.targetWork <==> b in w.targetWork)
  }

  /** The trees of attempt a are as present as they were. */
  predicate SameTrees(w: World, n: World, a: nat) {
    && (a in n.snapshots <==> a in w.snapshots)
    && (a in n.snapshotWork <==> a in w.snapshotWork) && (a in n.targetWork <==> a in w.targetWork)
  }

  /** What a re-upgrade takes over as its target, or room for a fresh one. */
  predicate Fillable(w: World, j: Journal) {
    if j.prior == None then w.target == None && j.attempt !in w.targetWork else w.target.Some?
  }

  lemma DriftKeepsClear(w: World, n: World)
    requires Drifts(w, n) && Quiet(w, n)
    ensures Clear(n) <==> Clear(w)
  {
  }

  /** What `upgrade` found: the journal to go on from, and the rollback a re-upgrade rests on. */
  datatype Plan = Plan(previous: Option<Journal>, evidence: Option<Journal>, retrying: bool)

  /** The plan fits the host: its journal is on disk and its evidence is that journal or the one before it. */
  predicate Fits(w: World, p: Plan) {
    && w.journal == p.previous
    && (p.retrying ==> p.previous.Some?)
    && (p.evidence.Some? ==>
          p.previous.Some? && (p.evidence == p.previous || p.evidence == p.previous.value.prior))
    && (p.previous.Some? && p.evidence.None? ==> p.retrying && NoRuntime(w))
    && (p.evidence.Some? ==> w.target.Some?)
  }

  /** The same attempt, with the same snapshot and prior evidence. */
  predicate SameAttempt(a: Journal, b: Journal) {
    a.attempt == b.attempt && a.snapshot == b.snapshot && a.prior == b.prior
  }

  /** Roles and network only go away; journal, state and snapshots stay. */
  predicate Removing(w: World, n: World) {
    && n == w.(legacyRunning := n.legacyRunning, api := n.api, proxy := n.proxy, network := n.network,
               source := n.source, target := n.target)
    && (w.api == Absent ==> n.api == Absent) && (w.proxy == Absent ==> n.proxy == Absent)
    && (n.network ==> w.network) && (n.legacyRunning ==> w.legacyRunning)
  }

  /** Only running containers and the data they write differ. */
  predicate SameFiles(w: World, n: World) {
    n == w.(legacyRunning := n.legacyRunning, api := n.api, proxy := n.proxy, source := n.source, target := n.target)
  }
}
