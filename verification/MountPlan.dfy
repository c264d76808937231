/**
 The least-privilege mount planner (`create_mount_plan`): it builds a map from host paths to modes,
 whose meaning is that the deepest enclosing mount decides. A path is its list of components.
 */
module MountPlan {
  import opened Basics

  type Path = seq<string>

  datatype Mode = RO | RW

  datatype Name = State | Data | Backup | Template | Legacy

  datatype Command = Plan | AuthSnippet | Doctor | Adopt | Install | Reconfigure | Uninstall | Upgrade | Rollback

  datatype Kind = Directory | RegularFile | Other

  type Files = map<Path, Kind>

  datatype Result = Planned(mounts: map<Path, Mode>, lock: bool) | ConfigError

  /** `_COMMAND_ACCESS`. */
  function CommandAccess(command: Command): seq<(Name, Mode)> {
    match command
    case Plan => []
    case AuthSnippet => []
    case Doctor => [(State, RO), (Data, RO), (Template, RO)]
    case Adopt => [(State, RW), (Data, RO), (Template, RO)]
    case Install => [(State, RW), (Data, RW), (Template, RW)]
    case Reconfigure => [(State, RW), (Data, RO), (Template, RO)]
    case Uninstall => [(State, RW), (Data, RO), (Template, RW)]
    case Upgrade => [(State, RW), (Data, RW), (Backup, RW), (Legacy, RW), (Template, RW)]
    case Rollback => [(State, RW), (Data, RO), (Backup, RO), (Legacy, RO), (Template, RW)]
  }

  /** A hub has neither a template nor a legacy path. */
  function Access(command: Command, hub: bool): seq<(Name, Mode)> {
    OnlyFor(CommandAccess(command), hub)
  }

  function OnlyFor(access: seq<(Name, Mode)>, hub: bool): (r: seq<(Name, Mode)>)
    ensures forall a | a in r :: a in access
  {
    if access == [] then []
    else (if hub && access[0].0 in {Template, Legacy} then [] else [access[0]]) + OnlyFor(access[1..], hub)
  }

  predicate Granted(access: seq<(Name, Mode)>, name: Name, mode: Mode) {
    (name, mode) in access
  }

  /** `paths_overlap`: equal, or one inside the other. */
  predicate Overlap(a: Path, b: Path) {
    a <= b || b <= a
  }

  function Parent(p: Path): Path {
    if p == [] then [] else p[..|p| - 1]
  }

  lemma AboveParent(k: Path, x: Path)
    requires k <= x && k != x
    ensures k <= Parent(x) && |k| < |x|
  {
    assert x[..|x|] == x;
    assert x[..|k|] == Parent(x)[..|k|];
  }

  // ---- The meaning of a mount map -------------------------------------------

  /** The mode a path has inside the container: that of the deepest mount at or above it. */
  function Effective(mounts: map<Path, Mode>, x: Path): Option<Mode> {
    if x in mounts then Some(mounts[x])
    else if x == [] then None
    else Effective(mounts, Parent(x))
  }

  predicate Writable(mounts: map<Path, Mode>, x: Path) {
    Effective(mounts, x) == Some(RW)
  }

  /** m is the deepest mount at or above x. */
  ghost predicate Deepest(mounts: map<Path, Mode>, x: Path, m: Path) {
    && m in mounts && m <= x
    && forall k | k in mounts && k <= x :: k <= m
  }

  lemma {:induction false} EffectiveIsDeepest(mounts: map<Path, Mode>, x: Path)
    requires Effective(mounts, x).Some?
    ensures exists m :: Deepest(mounts, x, m) && Effective(mounts, x) == Some(mounts[m])
  {
    if x in mounts {
      assert Deepest(mounts, x, x);
    } else {
      EffectiveIsDeepest(mounts, Parent(x));
      var m :| Deepest(mounts, Parent(x), m) && Effective(mounts, Parent(x)) == Some(mounts[m]);
      forall k | k in mounts && k <= x ensures k <= m {
        AboveParent(k, x);
      }
      assert Deepest(mounts, x, m);
    }
  }

  lemma {:induction false} MountedIsEffective(mounts: map<Path, Mode>, x: Path, m: Path)
    requires m in mounts && m <= x
    ensures Effective(mounts, x).Some?
    decreases |x|
  {
    if x !in mounts {
      AboveParent(m, x);
      MountedIsEffective(mounts, Parent(x), m);
    }
  }

  lemma Comparable(a: Path, b: Path, x: Path)
    requires a <= x && b <= x
    ensures Overlap(a, b)
  {
  }

  // ---- The file system ------------------------------------------------------

  /** The root exists, and whatever exists has only directories above it. */
  ghost predicate Coherent(files: Files) {
    && [] in files && files[[]] == Directory
    && forall p, q | p in files && q < p :: q in files && files[q] == Directory
  }

  lemma AboveParents(files: Files, path: Path)
    requires path !in files
    ensures forall q | q in files && q <= path :: q <= Parent(path)
  {
    forall q | q in files && q <= path ensures q <= Parent(path) {
      AboveParent(q, path);
    }
  }

  /** The deepest existing path at or above `path`. */
  ghost function NearestOf(files: Files, path: Path): (r: Path)
    requires [] in files
    ensures r in files && r <= path && forall q | q in files && q <= path :: q <= r
    decreases |path|
  {
    if path in files then path
    else
      AboveParents(files, path);
      NearestOf(files, Parent(path))
  }

  /** The minimum is missing, or what exists at or above the path is no directory. */
  ghost predicate Blocked(files: Files, path: Path, minimum: Path)
    requires [] in files
  {
    (minimum <= path && minimum !in files) || files[NearestOf(files, path)] != Directory
  }

  /** `_nearest_existing_directory`; `None` for its ConfigError. */
  method NearestExistingDirectory(files: Files, path: Path, minimum: Path) returns (r: Option<Path>)
    requires Coherent(files)
    ensures r == if Blocked(files, path, minimum) then None else Some(NearestOf(files, path))
    ensures r.Some? && minimum <= path ==> minimum <= r.value
  {
    var candidate := path;
    while candidate !in files
      invariant candidate <= path && NearestOf(files, candidate) == NearestOf(files, path)
      invariant minimum <= path && minimum !in files ==> minimum <= candidate
      decreases |candidate|
    {
      if candidate == minimum {
        return None;
      }
      if minimum <= candidate {
        AboveParent(minimum, candidate);
      }
      candidate := Parent(candidate);
    }
    assert candidate == NearestOf(files, path);
    assert minimum <= path ==> minimum in files by {
      assert minimum <= candidate && minimum != candidate ==> minimum < candidate;
    }
    if files[candidate] != Directory {
      return None;
    }
    return Some(candidate);
  }

  /** The deepest existing path at or above `path`, a directory. */
  ghost predicate Nearest(files: Files, path: Path, r: Path) {
    && r in files && files[r] == Directory && r <= path
    && forall q | q in files && q <= path :: q <= r
  }

  /** Where the mount for this name has to reach: its parent when the directory itself is replaced. */
  function Required(command: Command, name: Name, path: Path): Path {
    if name == State || (command == Upgrade && name == Data) then Parent(path) else path
  }

  /** `storage_minimum`, and `/boot` for the template directory. */
  function Minimum(name: Name, path: Path): Path {
    if name == Template then ["boot"]
    else if |path| > 2 && path[1] in {"user", "user0"} then path[..3]
    else if |path| > 1 then path[..2]
    else path
  }

  // ---- What every mount in the map is ---------------------------------------

  datatype Request = Request(command: Command, access: seq<(Name, Mode)>, checkout: Path, environment: Path,
                             paths: map<Name, Path>, files: Files)

  /** The checks before the map is built. */
  ghost predicate Separate(q: Request) {
    && Coherent(q.files)
    && q.environment in q.files && q.files[q.environment] == RegularFile
    && (forall n | n in q.paths :: !Overlap(q.checkout, q.paths[n]))
    && (forall a, b | a in q.paths && b in q.paths && a != b :: !Overlap(q.paths[a], q.paths[b]))
    && (forall n :: !(Granted(q.access, n, RO) && Granted(q.access, n, RW)))
  }

  /** m is what the planner binds so that the command can reach the path called n. */
  ghost predicate SourceOf(q: Request, n: Name, m: Path) {
    && n in q.paths
    && ((m == q.paths[n] && m in q.files) || Nearest(q.files, Required(q.command, n, q.paths[n]), m))
  }

  /** A managed path the command may not write, mounted read-only over a broader bind. */
  ghost predicate Protected(q: Request, n: Name, m: Path) {
    n in q.paths && m == q.paths[n] && m in q.files && !Granted(q.access, n, RW)
  }

  ghost predicate Origin(q: Request, m: Path, mode: Mode) {
    || (mode == RO && (m == q.checkout || m == q.environment))
    || (exists n :: Granted(q.access, n, mode) && SourceOf(q, n, m))
    || (mode == RO && exists n :: Protected(q, n, m))
  }

  /** Every mount has an origin, and the checkout and the environment file are read-only mounts. */
  ghost predicate Accounted(q: Request, mounts: map<Path, Mode>) {
    && (forall m | m in mounts :: Origin(q, m, mounts[m]))
    && q.checkout in mounts && mounts[q.checkout] == RO
    && q.environment in mounts && mounts[q.environment] == RO
  }

  /** The name has a mount of its own with this mode; a read-only missing state directory needs none. */
  ghost predicate Served(q: Request, mounts: map<Path, Mode>, n: Name, mode: Mode) {
    || (exists m :: m in mounts && mounts[m] == mode && SourceOf(q, n, m))
    || (n == State && mode == RO)
  }

  /** Every existing path not granted `rw` below a writable mount is itself mounted read-only. */
  ghost predicate Shielded(q: Request, mounts: map<Path, Mode>) {
    forall n, m | n in q.paths && Protected(q, n, q.paths[n]) && m in mounts && mounts[m] == RW && m < q.paths[n] ::
      q.paths[n] in mounts && mounts[q.paths[n]] == RO
  }

  // ---- Least privilege ------------------------------------------------------

  /** A writable mount lies at or above a path that was granted `rw`. */
  lemma WritableReachesGrant(q: Request, mounts: map<Path, Mode>, m: Path) returns (n: Name)
    requires Accounted(q, mounts) && m in mounts && mounts[m] == RW
    ensures Granted(q.access, n, RW) && n in q.paths && m <= q.paths[n] && m in q.files
  {
    n :| Granted(q.access, n, RW) && SourceOf(q, n, m);
    assert Parent(q.paths[n]) <= q.paths[n];
  }

  /** The checkout, and everything in it, is never writable. */
  lemma CheckoutNeverWritable(q: Request, mounts: map<Path, Mode>, x: Path)
    requires Separate(q) && Accounted(q, mounts) && q.checkout <= x
    ensures !Writable(mounts, x)
  {
    if Writable(mounts, x) {
      EffectiveIsDeepest(mounts, x);
      var m :| Deepest(mounts, x, m) && mounts[m] == RW;
      var n := WritableReachesGrant(q, mounts, m);
    }
  }

  lemma ShieldAt(q: Request, mounts: map<Path, Mode>, name: Name, m: Path)
    requires Shielded(q, mounts) && name in q.paths && Protected(q, name, q.paths[name])
    requires m in mounts && mounts[m] == RW && m < q.paths[name]
    ensures q.paths[name] in mounts && mounts[q.paths[name]] == RO
  {
  }

  /** An existing managed path that was not granted `rw`, and everything in it, is never writable. */
  lemma UngrantedNeverWritable(q: Request, mounts: map<Path, Mode>, name: Name, x: Path)
    requires Separate(q) && Accounted(q, mounts) && Shielded(q, mounts)
    requires name in q.paths && q.paths[name] in q.files && !Granted(q.access, name, RW)
    requires q.paths[name] <= x
    ensures !Writable(mounts, x)
  {
    var p := q.paths[name];
    if Writable(mounts, x) {
      EffectiveIsDeepest(mounts, x);
      var m :| Deepest(mounts, x, m) && mounts[m] == RW;
      var n := WritableReachesGrant(q, mounts, m);
      SourceIsAboveOthers(q, name, n, m, x);
      ShieldAt(q, mounts, name, m);
    }
  }

  /** A path at or above one managed path that meets the tree of another lies strictly above that other one. */
  lemma SourceIsAboveOthers(q: Request, name: Name, n: Name, m: Path, x: Path)
    requires Separate(q) && name in q.paths && n in q.paths && name != n
    requires m <= q.paths[n] && m <= x && q.paths[name] <= x
    ensures m < q.paths[name]
  {
    Comparable(q.paths[name], m, x);
    assert !Overlap(q.paths[name], q.paths[n]);
    assert !(q.paths[name] <= m);
  }

  lemma NothingBelowFile(files: Files, file: Path, m: Path)
    requires Coherent(files) && file in files && files[file] == RegularFile && m in files && file <= m
    ensures m == file
  {
  }

  /** The environment file is read-only, wherever it lies. */
  lemma EnvironmentNeverWritable(q: Request, mounts: map<Path, Mode>, x: Path)
    requires Separate(q) && Accounted(q, mounts) && q.environment <= x
    ensures !Writable(mounts, x)
  {
    if Writable(mounts, x) {
      EffectiveIsDeepest(mounts, x);
      var m :| Deepest(mounts, x, m) && mounts[m] == RW;
      var n := WritableReachesGrant(q, mounts, m);
      NothingBelowFile(q.files, q.environment, m);
    }
  }

  /** No read-only mount of another origin lies between a writable source and a path it serves. */
  lemma NothingReadOnlyBetween(q: Request, mounts: map<Path, Mode>, name: Name, source: Path, m: Path, x: Path)
    requires Separate(q) && Accounted(q, mounts)
    requires Granted(q.access, name, RW) && SourceOf(q, name, source) && source in mounts && mounts[source] == RW
    requires q.paths[name] <= x && m in mounts && m <= x && source <= m && mounts[m] == RO
    ensures m == q.environment
  {
    var p := q.paths[name];
    if m != q.environment {
      if m == q.checkout {
        Comparable(p, m, x);
      } else if n :| Protected(q, n, m) {
        Comparable(p, m, x);
      } else {
        var n :| Granted(q.access, n, RO) && SourceOf(q, n, m);
        Comparable(p, m, x);
        ReadOnlySourceIsNotBetween(q, name, source, n, m);
      }
    }
  }

  /** A read-only source above a granted path is no deeper than that path's own source. */
  lemma ReadOnlySourceIsNotBetween(q: Request, name: Name, source: Path, n: Name, m: Path)
    requires Separate(q) && Granted(q.access, name, RW) && Granted(q.access, n, RO)
    requires SourceOf(q, name, source) && SourceOf(q, n, m) && Overlap(q.paths[name], m) && source <= m
    ensures source == m
  {
    var p := q.paths[name];
    assert Parent(q.paths[n]) <= q.paths[n];
    assert m <= q.paths[n];
    assert !(p <= m);
    AboveParent(m, p);
  }

  /**
   A path granted `rw` is writable, even when only an ancestor of it exists; and so is everything
   below it except the environment file.
   */
  lemma GrantedIsWritable(q: Request, mounts: map<Path, Mode>, name: Name, x: Path)
    requires Separate(q) && Accounted(q, mounts) && Granted(q.access, name, RW)
    requires name in q.paths && Served(q, mounts, name, RW) && q.paths[name] <= x
    ensures Writable(mounts, x) <==> !(q.environment <= x)
  {
    if q.environment <= x {
      EnvironmentNeverWritable(q, mounts, x);
    } else {
      var source :| source in mounts && mounts[source] == RW && SourceOf(q, name, source);
      assert source <= q.paths[name] by {
        assert Parent(q.paths[name]) <= q.paths[name];
      }
      MountedIsEffective(mounts, x, source);
      EffectiveIsDeepest(mounts, x);
      var m :| Deepest(mounts, x, m) && Effective(mounts, x) == Some(mounts[m]);
      if mounts[m] == RO {
        NothingReadOnlyBetween(q, mounts, name, source, m, x);
      }
    }
  }

  // ---- The planner ----------------------------------------------------------

  datatype Config = Config(hub: bool, state: Path, data: Path, backup: Path, template: Path, legacy: Option<Path>)

  /** The managed paths of the configuration, by name. */
  function ManagedPaths(c: Config): map<Name, Path> {
    var base := map[State := c.state, Data := c.data, Backup := c.backup];
    if c.hub then base
    else if c.legacy.Some? then base[Template := c.template][Legacy := c.legacy.value]
    else base[Template := c.template]
  }

  const NAMES := [State, Data, Backup, Template, Legacy]

  lemma EveryName(n: Name)
    ensures n in NAMES
  {
    assert NAMES[0] == State && NAMES[1] == Data && NAMES[2] == Backup && NAMES[3] == Template && NAMES[4] == Legacy;
    match n
    case State => case Data => case Backup => case Template => case Legacy =>
  }

  /** The overlap checks, pair by pair; `false` for their ConfigError. */
  method CheckSeparate(checkout: Path, paths: map<Name, Path>) returns (ok: bool)
    ensures ok <==> (forall n | n in paths :: !Overlap(checkout, paths[n]))
                    && (forall a, b | a in paths && b in paths && a != b :: !Overlap(paths[a], paths[b]))
  {
    for i := 0 to |NAMES|
      invariant forall k | 0 <= k < i && NAMES[k] in paths :: !Overlap(checkout, paths[NAMES[k]])
    {
      if NAMES[i] in paths && Overlap(checkout, paths[NAMES[i]]) {
        return false;
      }
    }
    for i := 0 to |NAMES|
      invariant forall k, l | 0 <= k < i && k < l < |NAMES| && NAMES[k] in paths && NAMES[l] in paths ::
                  !Overlap(paths[NAMES[k]], paths[NAMES[l]])
    {
      for j := i + 1 to |NAMES|
        invariant forall l | i < l < j && NAMES[i] in paths
          && NAMES[l] in paths :: !Overlap(paths[NAMES[i]], paths[NAMES[l]])
      {
        if NAMES[i] in paths && NAMES[j] in paths && Overlap(paths[NAMES[i]], paths[NAMES[j]]) {
          assert NAMES[i] != NAMES[j];
          return false;
        }
      }
    }
    forall n | n in paths ensures !Overlap(checkout, paths[n]) {
      EveryName(n);
      var k :| 0 <= k < |NAMES| && NAMES[k] == n;
    }
    forall a, b | a in paths && b in paths && a != b ensures !Overlap(paths[a], paths[b]) {
      EveryName(a);
      EveryName(b);
      var k :| 0 <= k < |NAMES| && NAMES[k] == a;
      var l :| 0 <= l < |NAMES| && NAMES[l] == b;
      assert k < l || l < k;
    }
    return true;
  }

  lemma OneModeEach(command: Command, hub: bool, n: Name)
    ensures !(Granted(Access(command, hub), n, RO) && Granted(Access(command, hub), n, RW))
  {
    assert (n, RO) in CommandAccess(command) ==> (n, RW) !in CommandAccess(command);
  }

  /** The map being built; `AddMount` is false when the same source is asked for in both modes. */
  class Mounts {
    var modes: map<Path, Mode>

    constructor (checkout: Path, environment: Path)
      ensures modes == map[checkout := RO, environment := RO]
    {
      modes := map[checkout := RO, environment := RO];
    }

    method AddMount(source: Path, mode: Mode) returns (ok: bool)
      modifies this
      ensures ok <==> (source in old(modes) ==> old(modes)[source] == mode)
      ensures modes == if ok then old(modes)[source := mode] else old(modes)
    {
      if source in modes && modes[source] != mode {
        return false;
      }
      modes := modes[source := mode];
      return true;
    }
  }

  /** The mounts for the first n access entries. */
  ghost predicate ServedUpTo(q: Request, mounts: map<Path, Mode>, n: nat) {
    && Accounted(q, mounts) && n <= |q.access|
    && (forall i | 0 <= i < n :: q.access[i].0 in q.paths && Served(q, mounts, q.access[i].0, q.access[i].1))
  }

  /** Adding a mount that does not contradict the map keeps what was served. */
  lemma AddKeepsServed(q: Request, mounts: map<Path, Mode>, n: nat, source: Path, mode: Mode)
    requires ServedUpTo(q, mounts, n) && (source in mounts ==> mounts[source] == mode) && Origin(q, source, mode)
    ensures ServedUpTo(q, mounts[source := mode], n)
  {
    var more := mounts[source := mode];
    forall i | 0 <= i < n ensures Served(q, more, q.access[i].0, q.access[i].1) {
      var name, m := q.access[i].0, q.access[i].1;
      if !(name == State && m == RO) {
        var s :| s in mounts && mounts[s] == m && SourceOf(q, name, s);
        assert s in more && more[s] == m;
      }
    }
  }

  /** What is bound for access entry i, if anything. */
  ghost function SourceAt(q: Request, i: nat): Option<Path>
    requires Coherent(q.files) && i < |q.access|
  {
    var (name, mode) := q.access[i];
    if name !in q.paths then None
    else if name == State && q.paths[name] in q.files then Some(q.paths[name])
    else if name == State && mode == RO then None
    else Some(NearestOf(q.files, Required(q.command, name, q.paths[name])))
  }

  /** The entry's name has a path, with a directory to bind at or below the minimum. */
  ghost predicate Reachable(q: Request, i: nat)
    requires Coherent(q.files) && i < |q.access|
  {
    var name := q.access[i].0;
    name in q.paths
    && !Blocked(q.files, Required(q.command, name, q.paths[name]), Minimum(name, q.paths[name]))
  }

  /** No source is asked for in both modes. */
  ghost predicate Servable(q: Request)
    requires Coherent(q.files)
  {
    && (forall i | 0 <= i < |q.access| :: Reachable(q, i))
    && (forall i | 0 <= i < |q.access| :: SourceAt(q, i) in {Some(q.checkout), Some(q.environment)} ==> q.access[i].1 == RO)
    && forall i, j | 0 <= i < |q.access| && 0 <= j < |q.access| && SourceAt(q, i).Some? && SourceAt(q, i) == SourceAt(q, j) ::
         q.access[i].1 == q.access[j].1
  }

  /** A mount of the map comes from one of the first n entries. */
  ghost predicate FromEntry(q: Request, m: Path, mode: Mode, n: nat)
    requires Coherent(q.files) && n <= |q.access|
  {
    exists i: nat :: i < n && SourceAt(q, i) == Some(m) && q.access[i].1 == mode
  }

  /** Access entry i is reachable, and its source is mounted in its mode. */
  ghost predicate EntryMounted(q: Request, mounts: map<Path, Mode>, i: nat)
    requires Coherent(q.files) && i < |q.access|
  {
    Reachable(q, i)
    && (SourceAt(q, i).Some? ==> SourceAt(q, i).value in mounts && mounts[SourceAt(q, i).value] == q.access[i].1)
  }

  /** The mount of m is that of the checkout or the environment, or comes from one of the first n entries. */
  ghost predicate Known(q: Request, mounts: map<Path, Mode>, m: Path, n: nat)
    requires Coherent(q.files) && n <= |q.access| && m in mounts
  {
    (m in {q.checkout, q.environment} && mounts[m] == RO) || FromEntry(q, m, mounts[m], n)
  }

  /** The map holds checkout, environment and the sources of the first n entries, and nothing else. */
  ghost predicate Mounted(q: Request, mounts: map<Path, Mode>, n: nat)
    requires Coherent(q.files)
  {
    && n <= |q.access| && q.checkout in mounts && mounts[q.checkout] == RO
    && q.environment in mounts && mounts[q.environment] == RO
    && (forall m | m in mounts :: Known(q, mounts, m, n))
    && forall i | 0 <= i < n :: EntryMounted(q, mounts, i)
  }

  lemma KnownLater(q: Request, mounts: map<Path, Mode>, more: map<Path, Mode>, m: Path, n: nat)
    requires Coherent(q.files) && n < |q.access| && m in mounts && m in more && more[m] == mounts[m]
    requires Known(q, mounts, m, n)
    ensures Known(q, more, m, n + 1)
  {
    if FromEntry(q, m, mounts[m], n) {
      var i: nat :| i < n && SourceAt(q, i) == Some(m) && q.access[i].1 == mounts[m];
      assert i < n + 1;
    }
  }

  lemma MountedOn(q: Request, mounts: map<Path, Mode>, n: nat)
    requires Coherent(q.files) && n < |q.access| && Mounted(q, mounts, n) && Reachable(q, n)
    requires var s := SourceAt(q, n);
             s.Some? && s.value in mounts ==> mounts[s.value] == q.access[n].1
    ensures var s := SourceAt(q, n);
            Mounted(q, if s.Some? then mounts[s.value := q.access[n].1] else mounts, n + 1)
  {
    var s := SourceAt(q, n);
    var more := if s.Some? then mounts[s.value := q.access[n].1] else mounts;
    forall m | m in more ensures Known(q, more, m, n + 1) {
      if s == Some(m) {
        assert FromEntry(q, m, more[m], n + 1);
      } else {
        KnownLater(q, mounts, more, m, n);
      }
    }
    forall i | 0 <= i < n + 1 ensures EntryMounted(q, more, i) {
      if i < n {
        assert EntryMounted(q, mounts, i);
      }
    }
  }

  lemma MountedIsServed(q: Request, mounts: map<Path, Mode>, n: nat)
    requires Separate(q) && Mounted(q, mounts, n)
    ensures ServedUpTo(q, mounts, n)
  {
    forall m | m in mounts ensures Origin(q, m, mounts[m]) {
      MountHasOrigin(q, mounts, n, m);
    }
    forall i | 0 <= i < n ensures q.access[i].0 in q.paths && Served(q, mounts, q.access[i].0, q.access[i].1) {
      assert EntryMounted(q, mounts, i);
      EntryIsServed(q, mounts, i);
    }
  }

  lemma MountHasOrigin(q: Request, mounts: map<Path, Mode>, n: nat, m: Path)
    requires Separate(q) && Mounted(q, mounts, n) && m in mounts
    ensures Origin(q, m, mounts[m])
  {
    assert Known(q, mounts, m, n);
    if !(m in {q.checkout, q.environment} && mounts[m] == RO) {
      var i: nat :| i < n && SourceAt(q, i) == Some(m) && q.access[i].1 == mounts[m];
      assert EntryMounted(q, mounts, i);
      EntryHasSource(q, i);
    }
  }

  lemma EntryIsServed(q: Request, mounts: map<Path, Mode>, i: nat)
    requires Separate(q) && i < |q.access| && EntryMounted(q, mounts, i)
    ensures q.access[i].0 in q.paths && Served(q, mounts, q.access[i].0, q.access[i].1)
  {
    if SourceAt(q, i).Some? {
      EntryHasSource(q, i);
    }
  }

  lemma MountedIsServable(q: Request, mounts: map<Path, Mode>)
    requires Coherent(q.files) && Mounted(q, mounts, |q.access|)
    ensures Servable(q)
  {
    forall i | 0 <= i < |q.access|
      ensures Reachable(q, i)
      ensures SourceAt(q, i) in {Some(q.checkout), Some(q.environment)} ==> q.access[i].1 == RO
    {
      assert EntryMounted(q, mounts, i);
    }
    forall i, j | 0 <= i < |q.access| && 0 <= j < |q.access| && SourceAt(q, i).Some? && SourceAt(q, i) == SourceAt(q, j)
      ensures q.access[i].1 == q.access[j].1
    {
      assert EntryMounted(q, mounts, i) && EntryMounted(q, mounts, j);
    }
  }

  lemma EntryHasSource(q: Request, i: nat)
    requires Separate(q) && i < |q.access| && SourceAt(q, i).Some? && Reachable(q, i)
    ensures Granted(q.access, q.access[i].0, q.access[i].1) && SourceOf(q, q.access[i].0, SourceAt(q, i).value)
  {
  }

  /** No bind is broader than the share or pool root of a path strictly below it. */
  ghost predicate WithinShare(q: Request, mounts: map<Path, Mode>) {
    forall m | m in mounts && m != q.checkout && m != q.environment :: exists n :: BindsWithin(q, n, m)
  }

  ghost predicate BindsWithin(q: Request, n: Name, m: Path) {
    && n in q.paths && m <= q.paths[n]
    && (Minimum(n, q.paths[n]) < q.paths[n] ==> Minimum(n, q.paths[n]) <= m)
  }

  lemma EntryWithinShare(q: Request, i: nat)
    requires Separate(q) && i < |q.access| && SourceAt(q, i).Some? && Reachable(q, i)
    ensures BindsWithin(q, q.access[i].0, SourceAt(q, i).value)
  {
    var n := q.access[i].0;
    var p, minimum := q.paths[n], Minimum(n, q.paths[n]);
    assert Parent(p) <= p;
    if minimum < p {
      AboveParent(minimum, p);
    }
  }

  lemma MountedWithinShare(q: Request, mounts: map<Path, Mode>)
    requires Separate(q) && Mounted(q, mounts, |q.access|)
    ensures WithinShare(q, mounts)
  {
    forall m | m in mounts && m != q.checkout && m != q.environment ensures exists n :: BindsWithin(q, n, m) {
      assert Known(q, mounts, m, |q.access|);
      var i: nat :| i < |q.access| && SourceAt(q, i) == Some(m) && q.access[i].1 == mounts[m];
      assert EntryMounted(q, mounts, i);
      EntryWithinShare(q, i);
    }
  }

  /** One access entry; `false` for a ConfigError. */
  method Serve(ghost q: Request, command: Command, files: Files, name: Name, mode: Mode, desired: Path,
          mounts: Mounts, ghost n: nat)
      returns (ok: bool)
    requires Separate(q) && q.command == command && q.files == files
    requires n < |q.access| && q.access[n] == (name, mode) && name in q.paths && q.paths[name] == desired
    requires Mounted(q, mounts.modes, n)
    modifies mounts
    ensures ok ==> Mounted(q, mounts.modes, n + 1)
    ensures ok <==>
              && Reachable(q, n)
              && (SourceAt(q, n).Some? && SourceAt(q, n).value in old(mounts.modes) ==>
                    old(mounts.modes)[SourceAt(q, n).value] == mode)
  {
    var minimum := Minimum(name, desired);
    var found := NearestExistingDirectory(files, Required(command, name, desired), minimum);
    if found.None? {
      return false;
    }
    if name == State && desired !in files && mode == RO {
      MountedOn(q, mounts.modes, n);
      return true;
    }
    var source := if name == State && desired in files then desired else found.value;
    ghost var before := mounts.modes;
    ok := mounts.AddMount(source, mode);
    if ok {
      MountedOn(q, before, n);
    }
  }

  /** Every access entry, in order; a hub or a missing legacy directory may leave a name without a path. */
  method ServeAll(ghost q: Request, command: Command, access: seq<(Name, Mode)>, files: Files, paths: map<Name,
          Path>, mounts: Mounts)
      returns (ok: bool)
    requires Separate(q) && q.command == command && q.access == access && q.files == files && q.paths == paths
    requires Mounted(q, mounts.modes, 0)
    modifies mounts
    ensures ok ==> Mounted(q, mounts.modes, |access|)
    ensures ok <==> Servable(q)
  {
    for i := 0 to |access|
      invariant Mounted(q, mounts.modes, i)
    {
      var (name, mode) := access[i];
      if name !in paths {
        assert !Reachable(q, i);
        return false;
      }
      ghost var before := mounts.modes;
      var served := Serve(q, command, files, name, mode, paths[name], mounts, i);
      if !served {
        ClashIsFatal(q, before, i);
        return false;
      }
    }
    MountedIsServable(q, mounts.modes);
    return true;
  }

  /** An entry that cannot be reached, or whose source is mounted in the other mode, makes the plan impossible. */
  lemma ClashIsFatal(q: Request, mounts: map<Path, Mode>, n: nat)
    requires Coherent(q.files) && n < |q.access| && Mounted(q, mounts, n)
    requires Reachable(q, n) ==>
               SourceAt(q, n).Some? && SourceAt(q, n).value in mounts && mounts[SourceAt(q, n).value] != q.access[n].1
    ensures !Servable(q)
  {
    if Reachable(q, n) {
      var m := SourceAt(q, n).value;
      assert Known(q, mounts, m, n);
      if FromEntry(q, m, mounts[m], n) {
        var i: nat :| i < n && SourceAt(q, i) == Some(m) && q.access[i].1 == mounts[m];
      }
    }
  }

  /** The names handled so far are shielded. */
  ghost predicate ShieldedUpTo(q: Request, mounts: map<Path, Mode>, writable: set<Path>, i: nat) {
    && i <= |NAMES| && ServedUpTo(q, mounts, |q.access|)
    && writable == (set m | m in mounts && mounts[m] == RW)
    && forall k | 0 <= k < i :: ShieldedName(q, mounts, NAMES[k])
  }

  ghost predicate ShieldedName(q: Request, mounts: map<Path, Mode>, n: Name) {
    forall m | n in q.paths && Protected(q, n, q.paths[n]) && m in mounts && mounts[m] == RW && m < q.paths[n] ::
      q.paths[n] in mounts && mounts[q.paths[n]] == RO
  }

  lemma AddKeepsShield(q: Request, mounts: map<Path, Mode>, n: Name, p: Path)
    requires ShieldedName(q, mounts, n) && (p in mounts ==> mounts[p] == RO)
    ensures ShieldedName(q, mounts[p := RO], n)
  {
  }

  lemma AddShield(q: Request, mounts: map<Path, Mode>, writable: set<Path>, i: nat, p: Path)
    requires ShieldedUpTo(q, mounts, writable, i) && i < |NAMES| && NAMES[i] in q.paths && p == q.paths[NAMES[i]]
    requires Protected(q, NAMES[i], p) && (p in mounts ==> mounts[p] == RO)
    ensures ShieldedUpTo(q, mounts[p := RO], writable, i + 1)
  {
    AddKeepsServed(q, mounts, |q.access|, p, RO);
    var more := mounts[p := RO];
    assert ShieldedName(q, more, NAMES[i]);
    forall k | 0 <= k < i ensures ShieldedName(q, more, NAMES[k]) {
      AddKeepsShield(q, mounts, NAMES[k], p);
    }
    assert writable == set m | m in more && more[m] == RW;
  }

  lemma SkipShield(q: Request, mounts: map<Path, Mode>, writable: set<Path>, i: nat)
    requires ShieldedUpTo(q, mounts, writable, i) && i < |NAMES|
    requires ShieldedName(q, mounts, NAMES[i])
    ensures ShieldedUpTo(q, mounts, writable, i + 1)
  {
  }

  /** A path that was not granted `rw` is no writable source of another one, so its override never conflicts. */
  lemma UngrantedIsNotRW(q: Request, mounts: map<Path, Mode>, name: Name)
    requires Separate(q) && Accounted(q, mounts) && name in q.paths && !Granted(q.access, name, RW)
    ensures q.paths[name] in mounts ==> mounts[q.paths[name]] == RO
  {
    var p := q.paths[name];
    if p in mounts && mounts[p] == RW {
      var n := WritableReachesGrant(q, mounts, p);
      assert Overlap(q.paths[name], q.paths[n]);
    }
  }

  lemma ShieldWithinShare(q: Request, mounts: map<Path, Mode>, name: Name)
    requires WithinShare(q, mounts) && name in q.paths
    ensures WithinShare(q, mounts[q.paths[name] := RO])
  {
    var p := q.paths[name];
    assert BindsWithin(q, name, p);
    var more := mounts[p := RO];
    forall m | m in more && m != q.checkout && m != q.environment ensures exists n :: BindsWithin(q, n, m) {
      assert m != p ==> m in mounts;
    }
  }

  /** One managed path: an override if it exists, was not granted `rw`, and lies below a writable bind. */
  method ShieldOne(ghost q: Request, access: seq<(Name, Mode)>, files: Files, name: Name, p: Path, mounts: Mounts,
                   writable: set<Path>, ghost i: nat) returns (ok: bool)
    requires q.access == access && q.files == files && i < |NAMES| && NAMES[i] == name
    requires name in q.paths && q.paths[name] == p && ShieldedUpTo(q, mounts.modes, writable, i)
    requires Separate(q) && WithinShare(q, mounts.modes)
    modifies mounts
    ensures ok && ShieldedUpTo(q, mounts.modes, writable, i + 1) && WithinShare(q, mounts.modes)
  {
    ghost var before := mounts.modes;
    var below := exists m :: m in writable && m < p;
    if p in files && (name, RW) !in access && below {
      UngrantedIsNotRW(q, before, name);
      ok := mounts.AddMount(p, RO);
      AddShield(q, before, writable, i, p);
      ShieldWithinShare(q, before, name);
    } else {
      assert ShieldedName(q, mounts.modes, name) by {
        assert !below ==> forall m | m in mounts.modes && mounts.modes[m] == RW :: m in writable;
      }
      SkipShield(q, mounts.modes, writable, i);
      ok := true;
    }
  }

  /** Read-only overrides under broader writable binds; their conflict error cannot be raised. */
  method Shield(ghost q: Request, access: seq<(Name, Mode)>, files: Files, paths: map<Name, Path>, mounts: Mounts)
      returns (ok: bool)
    requires q.access == access && q.files == files && q.paths == paths && ServedUpTo(q, mounts.modes, |access|)
    requires Separate(q) && WithinShare(q, mounts.modes)
    modifies mounts
    ensures ok && ServedUpTo(q, mounts.modes, |access|) && Shielded(q, mounts.modes) && WithinShare(q, mounts.modes)
  {
    var writable := set m | m in mounts.modes && mounts.modes[m] == RW;
    for i := 0 to |NAMES|
      invariant ShieldedUpTo(q, mounts.modes, writable, i) && WithinShare(q, mounts.modes)
    {
      if NAMES[i] in paths {
        ok := ShieldOne(q, access, files, NAMES[i], paths[NAMES[i]], mounts, writable, i);
      } else {
        SkipShield(q, mounts.modes, writable, i);
      }
    }
    AllShielded(q, mounts.modes, writable);
    ok := true;
  }

  lemma AllShielded(q: Request, mounts: map<Path, Mode>, writable: set<Path>)
    requires ShieldedUpTo(q, mounts, writable, |NAMES|)
    ensures Shielded(q, mounts)
  {
    forall n | n in q.paths ensures ShieldedName(q, mounts, n) {
      EveryName(n);
    }
  }

  /** What a finished plan promises, for every path x inside the container. */
  ghost predicate LeastPrivilege(q: Request, mounts: map<Path, Mode>) {
    && (forall x | q.checkout <= x :: !Writable(mounts, x))
    && (forall x | q.environment <= x :: !Writable(mounts, x))
    && (forall n, x | n in q.paths && q.paths[n] in q.files && !Granted(q.access, n, RW) && q.paths[n] <= x ::
          !Writable(mounts, x))
    && (forall n, x | Granted(q.access, n, RW) && n in q.paths && q.paths[n] <= x ::
          (Writable(mounts, x) <==> !(q.environment <= x)))
    && (forall n, mode | Granted(q.access, n, mode) :: n in q.paths)
  }

  lemma PlanIsLeastPrivilege(q: Request, mounts: map<Path, Mode>)
    requires Separate(q) && ServedUpTo(q, mounts, |q.access|) && Shielded(q, mounts)
    ensures LeastPrivilege(q, mounts)
  {
    forall x | q.checkout <= x ensures !Writable(mounts, x) {
      CheckoutNeverWritable(q, mounts, x);
    }
    forall x | q.environment <= x ensures !Writable(mounts, x) {
      EnvironmentNeverWritable(q, mounts, x);
    }
    forall n, x | n in q.paths && q.paths[n] in q.files && !Granted(q.access, n, RW) && q.paths[n] <= x
      ensures !Writable(mounts, x)
    {
      UngrantedNeverWritable(q, mounts, n, x);
    }
    forall n, mode | Granted(q.access, n, mode) ensures n in q.paths && Served(q, mounts, n, mode) {
      var i :| 0 <= i < |q.access| && q.access[i] == (n, mode);
    }
    forall n, x | Granted(q.access, n, RW) && n in q.paths && q.paths[n] <= x
      ensures Writable(mounts, x) <==> !(q.environment <= x)
    {
      GrantedIsWritable(q, mounts, n, x);
    }
  }

  /** Everything the planner checks itself: environment file, separate paths, reachable and unambiguous sources. */
  ghost predicate Acceptable(q: Request)
    requires Coherent(q.files)
  {
    && q.environment in q.files && q.files[q.environment] == RegularFile
    && (forall n | n in q.paths :: !Overlap(q.checkout, q.paths[n]))
    && (forall a, b | a in q.paths && b in q.paths && a != b :: !Overlap(q.paths[a], q.paths[b]))
    && Servable(q)
  }

  /** The map for separate paths: the binds of the access entries, then the overrides. */
  method BuildMounts(ghost q: Request, command: Command, checkout: Path, environment: Path,
                     access: seq<(Name, Mode)>, files: Files, paths: map<Name, Path>)
      returns (r: Option<map<Path, Mode>>)
    requires Separate(q) && q == Request(command, access, checkout, environment, paths, files)
    ensures r.Some? <==> Servable(q)
    ensures r.Some? ==> LeastPrivilege(q, r.value) && WithinShare(q, r.value)
  {
    var mounts := new Mounts(checkout, environment);
    var served := ServeAll(q, command, access, files, paths, mounts);
    if !served {
      return None;
    }
    MountedIsServed(q, mounts.modes, |access|);
    MountedWithinShare(q, mounts.modes);
    var shielded := Shield(q, access, files, paths, mounts);
    PlanIsLeastPrivilege(q, mounts.modes);
    r := Some(mounts.modes);
  }

  /** What the checks before the map is built establish. */
  lemma ChecksSeparate(q: Request, hub: bool)
    requires Coherent(q.files) && q.access == Access(q.command, hub)
    requires q.environment in q.files && q.files[q.environment] == RegularFile
    requires forall n | n in q.paths :: !Overlap(q.checkout, q.paths[n])
    requires forall a, b | a in q.paths && b in q.paths && a != b :: !Overlap(q.paths[a], q.paths[b])
    ensures Separate(q)
  {
    forall n ensures !(Granted(q.access, n, RO) && Granted(q.access, n, RW)) {
      OneModeEach(q.command, hub, n);
    }
  }

  /** `create_mount_plan`, for a validated configuration and one snapshot of the file system. */
  method CreateMountPlan(command: Command, checkout: Path, environment: Path, c: Config, files: Files)
      returns (r: Result)
    requires Coherent(files)
    ensures var q := Request(command, Access(command, c.hub), checkout, environment, ManagedPaths(c), files);
            && (r.Planned? <==> Acceptable(q))
            && (r.Planned? ==> LeastPrivilege(q, r.mounts) && WithinShare(q, r.mounts))
    ensures r.Planned? ==> (r.lock <==> exists mode :: Granted(Access(command, c.hub), State, mode))
  {
    var access := Access(command, c.hub);
    var modes := CheckedMounts(command, checkout, environment, c.hub, access, files, ManagedPaths(c));
    if modes.None? {
      return ConfigError;
    }
    var lock := (State, RO) in access || (State, RW) in access;
    assert lock <==> Granted(access, State, RO) || Granted(access, State, RW);
    r := Planned(modes.value, lock);
  }

  /** The checks, and then the map. */
  method CheckedMounts(command: Command, checkout: Path, environment: Path, ghost hub: bool,
                       access: seq<(Name, Mode)>, files: Files, paths: map<Name, Path>)
      returns (r: Option<map<Path, Mode>>)
    requires Coherent(files) && access == Access(command, hub)
    ensures var q := Request(command, access, checkout, environment, paths, files);
            && (r.Some? <==> Acceptable(q))
            && (r.Some? ==> LeastPrivilege(q, r.value) && WithinShare(q, r.value))
  {
    if environment !in files || files[environment] != RegularFile {
      return None;
    }
    var separate := CheckSeparate(checkout, paths);
    if !separate {
      return None;
    }
    ghost var q := Request(command, access, checkout, environment, paths, files);
    ChecksSeparate(q, hub);
    r := BuildMounts(q, command, checkout, environment, access, files, paths);
  }
}
