/**
 The topology migration (`HubTopologyMigration`): split source runtimes give way to one hub, and back.
 Every durable write and Docker call is one step; it may raise with or without its effect, and the
 process may die after it. Nothing outside these commands starts a container.
 */
module HubMigration {
  import opened Basics

  datatype Container = Absent | Created | Running

  /** The hub's `state.json`. */
  datatype HubState = NoState | Installed | Uninstalling | Uninstalled | StateRolledBack

  /** The hub's install attempt file. */
  datatype AttemptFile = NoAttempt | AttemptOpen | AttemptCleaned | AttemptFailed

  datatype Status = Prepared | Copying | FailedJournal | Committed | RolledBack

  /** The topology journal, with the sources that were running when the migration began. */
  datatype Journal = Journal(status: Status, initial: set<string>)

  /** `running` are the source containers (API and proxy of each reader) that run. */
  datatype World = World(hub: Container, state: HubState, attempt: AttemptFile, journal: Option<Journal>,
                         running: set<string>)

  datatype Outcome = Done | Refused | Raised | Died {
    predicate IsFailure() { !Done? }
    function PropagateFailure(): Outcome { this }
  }

  /** The hub and a source never both run; a finished rollback, and a finished removal under a commit, mean no hub. */
  predicate Inv(w: World) {
    && (w.hub == Running ==> w.running == {})
    && (w.journal.Some? && w.journal.value.status == RolledBack ==> w.hub == Absent)
    && (w.journal.Some? && w.journal.value.status == Committed && w.state in {Uninstalled, StateRolledBack} ==> w.hub == Absent)
  }

  /** A source starts only while no hub container exists; a rolled-back migration stays rolled back. */
  predicate Lawful(w: World, n: World) {
    && (!(n.running <= w.running) ==> w.hub == Absent && n.hub == Absent)
    && (w.journal.Some? && w.journal.value.status == RolledBack ==> n.journal == w.journal)
  }

  /** The states of one host over any number of migrate and rollback commands, failures and crashes. */
  ghost predicate Run(h: seq<World>) {
    && h != []
    && (forall i | 0 <= i < |h| :: Inv(h[i]))
    && (forall i | 0 <= i < |h| - 1 :: LawfulAt(h, i))
  }

  predicate LawfulAt(h: seq<World>, i: nat)
    requires i + 1 < |h|
  {
    Lawful(h[i], h[i + 1])
  }

  /** One more legal step. */
  lemma Extend(h: seq<World>, n: World)
    requires Run(h) && Inv(n) && Lawful(h[|h| - 1], n)
    ensures Run(h + [n])
  {
    var longer := h + [n];
    forall i | 0 <= i < |longer| - 1 ensures LawfulAt(longer, i) {
      if i < |h| - 1 {
        assert LawfulAt(h, i);
      }
    }
  }

  /** A source that was stopped and runs again was started while no hub container existed. */
  lemma {:induction false} RestartedWhileHubAbsent(h: seq<World>, i: nat, k: nat, source: string) returns (j: nat)
    requires Run(h) && i < k < |h| && source !in h[i].running && source in h[k].running
    ensures i <= j < k && h[j].hub == Absent && source !in h[j].running && source in h[j + 1].running
  {
    assert LawfulAt(h, k - 1);
    if source in h[k - 1].running {
      j := RestartedWhileHubAbsent(h, i, k - 1, source);
    } else {
      j := k - 1;
    }
  }

  /** Once the journal says rolled back, no hub container exists in any later state. */
  lemma {:induction false} RolledBackIsFinal(h: seq<World>, i: nat, k: nat)
    requires Run(h) && i <= k < |h| && h[i].journal.Some? && h[i].journal.value.status == RolledBack
    ensures h[k].journal == h[i].journal && h[k].hub == Absent
  {
    if i < k {
      RolledBackIsFinal(h, i, k - 1);
      assert LawfulAt(h, k - 1);
    }
  }

  // ---- When rollback refuses ------------------------------------------------

  /** The uninstaller accepts the hub's state, and an attempt file only of the committed install. */
  predicate Removable(w: World) {
    w.state in {Installed, Uninstalling, Uninstalled} && w.attempt in {NoAttempt, AttemptOpen}
  }

  predicate RollbackApplies(w: World) {
    w.journal.Some? && (w.journal.value.status == RolledBack || (w.journal.value.status == Committed && Removable(w)))
  }

  /** Every source is stopped, one after the other. */
  lemma {:induction false} StopAll(h: seq<World>) returns (g: seq<World>)
    requires Run(h)
    ensures Run(g) && h <= g && g[|g| - 1] == h[|h| - 1].(running := {})
    ensures forall k | |h| <= k < |g| :: SourcesOnly(h[|h| - 1], g[k])
    decreases h[|h| - 1].running
  {
    g := h;
    if h[|h| - 1].running != {} {
      var name :| name in h[|h| - 1].running;
      Extend(h, h[|h| - 1].(running := h[|h| - 1].running - {name}));
      g := StopAll(h + [h[|h| - 1].(running := h[|h| - 1].running - {name})]);
    }
  }

  /** Every source in `left` is started, one after the other, with the hub gone. */
  lemma {:induction false} StartAll(h: seq<World>, left: set<string>) returns (g: seq<World>)
    requires Run(h) && h[|h| - 1].hub == Absent
    ensures Run(g) && h <= g && g[|g| - 1] == h[|h| - 1].(running := h[|h| - 1].running + left)
    ensures forall k | |h| <= k < |g| :: SourcesOnly(h[|h| - 1], g[k])
    decreases left
  {
    g := h;
    if left != {} {
      var name :| name in left;
      Extend(h, h[|h| - 1].(running := h[|h| - 1].running + {name}));
      g := StartAll(h + [h[|h| - 1].(running := h[|h| - 1].running + {name})], left - {name});
      assert h[|h| - 1].running + left == h[|h| - 1].running + {name} + (left - {name});
    }
    assert g[|g| - 1].running == h[|h| - 1].running + left;
  }

  /** n differs from w in the running sources only. */
  predicate SourcesOnly(w: World, n: World) {
    n == w.(running := n.running)
  }

  /** h begins with a migration from w, with the sources stopped up to `cut` and then the hub running. */
  ghost predicate CutsOver(w: World, h: seq<World>, cut: nat) {
    && 2 <= cut && cut + 4 <= |h| && h[0] == w
    && h[1] == w.(journal := Some(Journal(Prepared, w.running)))
    && h[2] == h[1].(journal := Some(Journal(Copying, w.running)))
    && (forall k | 3 <= k <= cut :: SourcesOnly(h[2], h[k]))
    && h[cut] == h[2].(running := {}) && h[cut + 1] == h[cut].(attempt := AttemptOpen)
    && h[cut + 2] == h[cut + 1].(hub := Created) && h[cut + 3] == h[cut + 2].(hub := Running)
  }

  /** ... and then its state is saved, the attempt file removed, and the journal committed. */
  ghost predicate Migrates(w: World, h: seq<World>, cut: nat) {
    && CutsOver(w, h, cut) && cut + 7 <= |h|
    && h[cut + 4] == h[cut + 3].(state := Installed) && h[cut + 5] == h[cut + 4].(attempt := NoAttempt)
    && h[cut + 6] == h[cut + 5].(journal := Some(Journal(Committed, w.running)))
  }

  /** The journal, and every source stopped. */
  lemma Stopping(w: World) returns (g: seq<World>)
    requires Inv(w) && w.journal == None && Installable(w)
    ensures Run(g) && 3 <= |g| && g[0] == w
    ensures g[1] == w.(journal := Some(Journal(Prepared, w.running)))
    ensures g[2] == g[1].(journal := Some(Journal(Copying, w.running)))
    ensures g[|g| - 1] == g[2].(running := {}) && forall k | 3 <= k < |g| :: SourcesOnly(g[2], g[k])
  {
    var prepared := w.(journal := Some(Journal(Prepared, w.running)));
    var copying := prepared.(journal := Some(Journal(Copying, w.running)));
    Extend([w], prepared);
    Extend([w] + [prepared], copying);
    g := StopAll([w] + [prepared] + [copying]);
  }

  lemma Migration(w: World) returns (h: seq<World>, cut: nat)
    requires Inv(w) && w.journal == None && Installable(w)
    ensures Run(h) && Migrates(w, h, cut) && |h| == cut + 7
  {
    var g := Stopping(w);
    cut := |g| - 1;
    h := InstallSteps(g);
  }

  /** The attempt file, the container, and the container running. */
  lemma HubSteps(g: seq<World>) returns (h: seq<World>)
    requires Run(g) && g[|g| - 1].running == {} && g[|g| - 1].journal.Some?
    requires g[|g| - 1].journal.value.status == Copying
    ensures Run(h) && g <= h && |h| == |g| + 3
    ensures h[|g|] == g[|g| - 1].(attempt := AttemptOpen)
    ensures h[|g| + 1] == h[|g|].(hub := Created) && h[|g| + 2] == h[|g| + 1].(hub := Running)
  {
    var begun := g[|g| - 1].(attempt := AttemptOpen);
    var created := begun.(hub := Created);
    var running := created.(hub := Running);
    Extend(g, begun);
    Extend(g + [begun], created);
    Extend(g + [begun] + [created], running);
    h := g + [begun] + [created] + [running];
  }

  lemma InstallSteps(g: seq<World>) returns (h: seq<World>)
    requires Run(g) && g[|g| - 1].running == {} && g[|g| - 1].journal.Some?
    requires g[|g| - 1].journal.value.status == Copying
    ensures Run(h) && g <= h && |h| == |g| + 6
    ensures h[|g|] == g[|g| - 1].(attempt := AttemptOpen)
    ensures h[|g| + 1] == h[|g|].(hub := Created) && h[|g| + 2] == h[|g| + 1].(hub := Running)
    ensures h[|g| + 3] == h[|g| + 2].(state := Installed) && h[|g| + 4] == h[|g| + 3].(attempt := NoAttempt)
    ensures h[|g| + 5] == h[|g| + 4].(journal := Some(h[|g| + 4].journal.value.(status := Committed)))
  {
    var f := HubSteps(g);
    var installed := f[|g| + 2].(state := Installed);
    var closed := installed.(attempt := NoAttempt);
    var committed := closed.(journal := Some(closed.journal.value.(status := Committed)));
    Extend(f, installed);
    Extend(f + [installed], closed);
    Extend(f + [installed] + [closed], committed);
    h := f + [installed] + [closed] + [committed];
  }

  /**
   The state that rollback refuses although it left it itself: after a whole migration, rollback removes the hub,
   restarts every source and saves the state as rolled back; the process dies before the journal says so.
   */
  lemma RolledBackUnderCommit(w: World) returns (h: seq<World>, cut: nat, back: nat)
    requires Inv(w) && w.journal == None && Installable(w)
    ensures Run(h) && Migrates(w, h, cut) && cut + 9 <= back && |h| == back + 2
    ensures h[cut + 7] == h[cut + 6].(state := Uninstalling) && h[cut + 8] == h[cut + 7].(hub := Absent)
    ensures h[cut + 9] == h[cut + 8].(state := Uninstalled)
    ensures forall k | cut + 10 <= k <= back :: SourcesOnly(h[cut + 9], h[k])
    ensures h[back] == h[cut + 9].(running := w.running) && h[back + 1] == h[back].(state := StateRolledBack)
    ensures h[back + 1] == World(Absent, StateRolledBack, NoAttempt, Some(Journal(Committed, w.running)), w.running)
    ensures !RollbackApplies(h[back + 1])
  {
    var g;
    g, cut := Migration(w);
    var leaving := g[cut + 6].(state := Uninstalling);
    var gone := leaving.(hub := Absent);
    var uninstalled := gone.(state := Uninstalled);
    Extend(g, leaving);
    Extend(g + [leaving], gone);
    Extend(g + [leaving] + [gone], uninstalled);
    var f := StartAll(g + [leaving] + [gone] + [uninstalled], w.running);
    back := |f| - 1;
    assert {} + w.running == w.running;
    Extend(f, f[back].(state := StateRolledBack));
    h := f + [f[back].(state := StateRolledBack)];
  }

  /**
   A host that neither command takes any further. The save of the hub's state raises after its effect, so the
   install counts as not committed: the hub is removed, the migration failed, and the sources run again, under a
   state that says `installed`.
   */
  lemma StuckAfterHubState(w: World) returns (h: seq<World>, cut: nat)
    requires Inv(w) && w.journal == None && Installable(w)
    ensures Run(h) && CutsOver(w, h, cut) && cut + 8 <= |h|
    ensures h[cut + 4] == h[cut + 3].(state := Installed) && h[cut + 5] == h[cut + 4].(hub := Absent)
    ensures h[cut + 6] == h[cut + 5].(attempt := AttemptCleaned)
    ensures h[cut + 7] == h[cut + 6].(journal := Some(Journal(FailedJournal, w.running)))
    ensures forall k | cut + 8 <= k < |h| :: SourcesOnly(h[cut + 7], h[k])
    ensures h[|h| - 1] == World(Absent, Installed, AttemptCleaned, Some(Journal(FailedJournal, w.running)), w.running)
    ensures !MigrationRefused(h[|h| - 1], true, true) && !Migratable(h[|h| - 1]) && !RollbackApplies(h[|h| - 1])
  {
    var g := Stopping(w);
    cut := |g| - 1;
    var f := HubSteps(g);
    var saved := f[cut + 3].(state := Installed);
    var removed := saved.(hub := Absent);
    var cleaned := removed.(attempt := AttemptCleaned);
    var failed := cleaned.(journal := Some(Journal(FailedJournal, w.running)));
    Extend(f, saved);
    Extend(f + [saved], removed);
    Extend(f + [saved] + [removed], cleaned);
    Extend(f + [saved] + [removed] + [cleaned], failed);
    h := StartAll(f + [saved] + [removed] + [cleaned] + [failed], w.running);
    assert {} + w.running == w.running;
  }

  class Host {
    const faultFree: bool
    var w: World
    ghost var history: seq<World>

    ghost predicate Valid()
      reads this
    {
      Run(history) && history[|history| - 1] == w
    }

    constructor (faultFree: bool, w: World)
      requires Inv(w)
      ensures Valid() && this.w == w && history == [w] && this.faultFree == faultFree
    {
      this.faultFree, this.w := faultFree, w;
      history := [w];
    }

    /** One durable step. */
    method Become(next: World) returns (o: Outcome)
      requires Valid() && Inv(next) && Lawful(w, next)
      modifies this`w, this`history
      ensures Valid() && old(history) <= history
      ensures !o.Refused? && (o.Done? ==> w == next) && (faultFree ==> o.Done?)
      ensures w == next || w == old(w)
    {
      var fault: bool, happens: bool, dies: bool := *, *, *;
      fault := fault && !faultFree;
      if happens || !fault {
        Extend(history, next);
        history := history + [next];
        w := next;
      }
      o := if !fault then Done else if dies then Died else Raised;
    }

    /** A check or a call that changes nothing here, and may fail. */
    method Pass() returns (o: Outcome)
      requires Valid()
      modifies this`w, this`history
      ensures Valid() && old(history) <= history && w == old(w)
      ensures !o.Refused? && (faultFree ==> o.Done?)
    {
      o := Become(w);
    }

    /** `_restart_sources`: one source after the other, then wait for all. */
    method RestartSources(initial: set<string>) returns (o: Outcome)
      requires Valid() && w.hub == Absent
      modifies this`w, this`history
      ensures Valid() && old(history) <= history
      ensures w == old(w).(running := w.running) && old(w).running <= w.running <= old(w).running + initial
      ensures !o.Refused? && (faultFree ==> o.Done?)
      ensures o.Done? ==> initial <= w.running
    {
      var left := initial;
      while left != {}
        invariant Valid() && old(history) <= history && left <= initial
        invariant w == old(w).(running := w.running) && old(w).running <= w.running <= old(w).running + initial
        invariant initial - left <= w.running
        decreases left
      {
        var name :| name in left;
        :- Pass();
        if name !in w.running {
          :- Become(w.(running := w.running + {name}));
        }
        left := left - {name};
      }
      o := Pass();
    }

    /** Stop every source that was found running. */
    method StopSources() returns (o: Outcome)
      requires Valid()
      modifies this`w, this`history
      ensures Valid() && old(history) <= history && w == old(w).(running := w.running) && w.running <= old(w).running
      ensures !o.Refused? && (faultFree ==> o.Done?)
      ensures o.Done? ==> w.running == {}
    {
      var statuses := w.running;
      while statuses != {}
        invariant Valid() && old(history) <= history && w == old(w).(running := w.running)
          && w.running <= statuses <= old(w).running
        decreases statuses
      {
        var name :| name in statuses;
        :- Become(w.(running := w.running - {name}));
        statuses := statuses - {name};
      }
      o := Done;
    }

    /** `HubUninstaller.uninstall`. */
    method Uninstall() returns (o: Outcome)
      requires Valid()
      modifies this`w, this`history
      ensures Valid() && old(history) <= history
      ensures w.journal == old(w).journal && w.running == old(w).running
      ensures o.Refused? <==> !old(Removable(w))
      ensures o.Refused? ==> w == old(w)
      ensures faultFree ==> o.Done? || o.Refused?
      ensures o.Done? ==> w.state == Uninstalled && w.attempt == NoAttempt
      ensures o.Done? && (old(w).state != Uninstalled || old(w).hub == Absent) ==> w.hub == Absent
    {
      if w.state !in {Installed, Uninstalling, Uninstalled} {
        return Refused;
      }
      if w.attempt !in {NoAttempt, AttemptOpen} {
        return Refused;
      }
      if w.state == Uninstalled {
        if w.attempt == AttemptOpen {
          o := Become(w.(attempt := NoAttempt));
        } else {
          o := Done;
        }
        return;
      }
      :- Pass();
      if w.state == Installed {
        :- Become(w.(state := Uninstalling));
      }
      if w.hub != Absent {
        :- Become(w.(hub := Absent));
      }
      :- Pass();
      :- Become(w.(state := Uninstalled));
      if w.attempt == AttemptOpen {
        :- Become(w.(attempt := NoAttempt));
      }
      o := Done;
    }

    /** `rollback`. */
    method Rollback() returns (o: Outcome)
      requires Valid()
      modifies this`w, this`history
      ensures Valid() && old(history) <= history
      ensures o.Refused? <==> !old(RollbackApplies(w))
      ensures o.Refused? ==> w == old(w)
      ensures faultFree ==> o.Done? || o.Refused?
      ensures o.Done? ==>
                && w.hub == Absent && w.journal.Some? && w.journal.value.status == RolledBack
                && w.journal.value.initial == old(w).journal.value.initial <= w.running
    {
      if w.journal.None? {
        return Refused;
      }
      var j := w.journal.value;
      if j.status == RolledBack {
        o := RestartSources(j.initial);
        return;
      }
      if j.status != Committed {
        return Refused;
      }
      o := Uninstall();
      if !o.Done? {
        return;
      }
      :- RestartSources(j.initial);
      :- Become(w.(state := StateRolledBack));
      o := Become(w.(journal := Some(j.(status := RolledBack))));
    }

    /** The `try` block of `HubInstaller.install`; `committed` once the hub's state is saved. */
    method StartHub() returns (o: Outcome, committed: bool)
      requires Valid() && w.hub == Absent && w.running == {} && w.journal.Some? && w.journal.value.status == Copying
      modifies this`w, this`history
      ensures Valid() && old(history) <= history
      ensures w.journal == old(w).journal && w.running == {} && !o.Refused? && (faultFree ==> o.Done?)
      ensures o.Done? ==> committed && w == old(w).(hub := Running, state := Installed, attempt := NoAttempt)
    {
      committed := false;
      o := Pass();
      if !o.Done? {
        return;
      }
      o := Become(w.(hub := Created));
      if !o.Done? {
        return;
      }
      o := Become(w.(hub := Running));
      if !o.Done? {
        return;
      }
      o := Pass();
      if !o.Done? {
        return;
      }
      o := Become(w.(state := Installed));
      if !o.Done? {
        return;
      }
      committed := true;
      o := Become(w.(attempt := NoAttempt));
    }

    /** `HubInstaller.install`, called with every source stopped. Its errors are raised. */
    method InstallHub() returns (o: Outcome)
      requires Valid() && w.running == {} && w.journal.Some? && w.journal.value.status == Copying
      modifies this`w, this`history
      ensures Valid() && old(history) <= history
      ensures w.journal == old(w).journal && w.running == {} && !o.Refused?
      ensures o.Done? ==> w.hub == Running && w.state == Installed && w.attempt == NoAttempt
      ensures faultFree ==> (o.Done? <==> old(Installable(w)))
    {
      if w.attempt !in {NoAttempt, AttemptCleaned} || w.hub != Absent || w.state in {Installed, Uninstalling} {
        return Raised;
      }
      assert w.state.NoState? || w.state.Uninstalled? || w.state.StateRolledBack?;
      :- Become(w.(attempt := AttemptOpen));
      var committed;
      o, committed := StartHub();
      if o.Raised? && !committed {
        var removed := Done;
        if w.hub != Absent {
          removed := Become(w.(hub := Absent));
        }
        if removed.Died? {
          return Died;
        }
        var closed := Become(w.(attempt := if removed.Done? then AttemptCleaned else AttemptFailed));
        o := if closed.Died? then Died else Raised;
      }
    }

    /** The `try` block of `migrate`: stop the sources, copy their data, install the hub. */
    method CutOver() returns (o: Outcome, installed: bool)
      requires Valid() && w.journal.Some? && w.journal.value.status == Copying
      modifies this`w, this`history
      ensures Valid() && old(history) <= history && w.journal == old(w).journal && !o.Refused?
      ensures installed ==> w.state == Installed && w.attempt == NoAttempt
      ensures o.Done? ==> installed && w.hub == Running && w.state == Installed
      ensures faultFree ==> (o.Done? <==> old(Installable(w)))
    {
      installed := false;
      o := StopSources();
      if !o.Done? {
        return;
      }
      o := Pass();
      if !o.Done? {
        return;
      }
      o := InstallHub();
      installed := o.Done?;
      if installed {
        o := Pass();
      }
    }

    /** The `except` block: the sources start again only if the hub container is known to be gone. */
    method RecoverSources(installed: bool) returns (o: Outcome)
      requires Valid() && w.journal.Some? && w.journal.value.status == Copying
      requires installed ==> w.state == Installed && w.attempt == NoAttempt
      modifies this`w, this`history
      ensures Valid() && old(history) <= history && (o.Raised? || o.Died?)
      ensures faultFree && (installed || old(w).hub == Absent) ==>
                && w.hub == Absent && old(w).journal.value.initial <= w.running
                && w.journal == Some(old(w).journal.value.(status := FailedJournal))
    {
      var j := w.journal.value;
      var cleanupFailed;
      if installed {
        o := Uninstall();
        cleanupFailed := !o.Done?;
      } else {
        o := Pass();
        cleanupFailed := !o.Done? || w.hub != Absent;
      }
      if o.Died? {
        return;
      }
      o := Become(w.(journal := Some(j.(status := FailedJournal))));
      if o.Died? {
        return;
      }
      if !cleanupFailed {
        o := RestartSources(j.initial);
      }
      o := if o.Died? then Died else Raised;
    }

    /**
     `migrate`, with the checks of its inputs taken as parameters; a new journal carries the plan's own
     fingerprint, so only an existing one can disagree with it.
     */
    method Migrate(sourcesMatch: bool, planMatches: bool) returns (o: Outcome)
      requires Valid()
      modifies this`w, this`history
      ensures Valid() && old(history) <= history
      ensures o.Refused? <==> old(MigrationRefused(w, sourcesMatch, planMatches))
      ensures o.Refused? ==> w == old(w) && history == old(history)
      ensures o.Done? ==>
                && w.hub == Running && w.running == {} && w.state == Installed
                && w.journal.Some? && w.journal.value.status == Committed
      ensures faultFree ==> (o.Done? <==> old(!MigrationRefused(w, sourcesMatch, planMatches) && Migratable(w)))
    {
      if w.journal.Some? && w.journal.value.status !in {Prepared, Copying, FailedJournal} {
        return Refused;
      }
      if !sourcesMatch {
        return Refused;
      }
      if w.journal.Some? && !planMatches {
        return Refused;
      }
      if w.journal.None? {
        o := Become(w.(journal := Some(Journal(Prepared, w.running))));
        if !o.Done? {
          return;
        }
      }
      o := Proceed(w.journal.value);
    }

    /** The part of `migrate` from the hub's state file on: finish a cutover that was already made, or make it. */
    method Proceed(j: Journal) returns (o: Outcome)
      requires Valid() && w.journal == Some(j) && j.status in {Prepared, Copying, FailedJournal}
      modifies this`w, this`history
      ensures Valid() && old(history) <= history && !o.Refused?
      ensures o.Done? ==>
                && w.hub == Running && w.running == {} && w.state == Installed
                && w.journal.Some? && w.journal.value.status == Committed
      ensures faultFree ==> (o.Done? <==> old(Migratable(w)))
    {
      if w.state == Installed {
        if w.hub != Running {
          return Raised;
        }
        o := Pass();
        if o.Done? {
          o := Become(w.(journal := Some(j.(status := Committed))));
        }
        return;
      }
      o := Pass();
      if !o.Done? {
        return;
      }
      o := Become(w.(journal := Some(j.(status := Copying))));
      if !o.Done? {
        return;
      }
      var installed;
      o, installed := CutOver();
      if o.Raised? {
        o := RecoverSources(installed);
        return;
      }
      if o.Done? {
        o := Become(w.(journal := Some(j.(status := Committed))));
      }
    }
  }

  /** The migration is over, or what it is asked for is not what the journal says. */
  predicate MigrationRefused(w: World, sourcesMatch: bool, planMatches: bool) {
    || (w.journal.Some? && w.journal.value.status !in {Prepared, Copying, FailedJournal})
    || !sourcesMatch || (w.journal.Some? && !planMatches)
  }

  /** The cutover has been made, or nothing is in its way. */
  predicate Migratable(w: World) {
    if w.state == Installed then w.hub == Running else Installable(w)
  }

  /** Nothing is in the way of a hub install. */
  predicate Installable(w: World) {
    w.attempt in {NoAttempt, AttemptCleaned} && w.hub == Absent && w.state in {NoState, Uninstalled, StateRolledBack}
  }
}
