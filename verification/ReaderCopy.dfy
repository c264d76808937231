/**
 The reader-data copy of the topology migration (`_copy_reader_data`). Every directory entry written or
 removed, every rename and the journal write is one step; any step may fail with or without its effect,
 and the process may die after it.
 */
module ReaderCopy {
  import opened Basics

  /** A path relative to the tree's root, component by component. */
  type Path = seq<string>

  /** The files and directories below a root. */
  datatype Tree = Tree(files: map<Path, string>, dirs: set<Path>)

  /** A tree a disk can hold: no entry is both, and every entry lies in directories of the tree. */
  ghost predicate OnDisk(t: Tree) {
    && (forall p | p in t.files :: p !in t.dirs && Housed(t, p))
    && (forall d | d in t.dirs :: Housed(t, d))
  }

  ghost predicate Housed(t: Tree, p: Path) {
    forall q: Path | q < p && q != [] :: q in t.dirs
  }

  /** Nothing lies below the directory. */
  ghost predicate Empty(t: Tree, d: Path) {
    (forall p | p in t.files :: !(d < p)) && (forall e | e in t.dirs :: !(d < e))
  }

  /** `_tree_manifest`, with its digest read as injective: the files and their bytes, but no directories. */
  function Manifest(t: Tree): map<Path, string> {
    t.files
  }

  /** The work tree, the published target, and whether the journal holds the copy's evidence. */
  datatype World = World(work: Option<Tree>, target: Option<Tree>, journaled: bool)

  datatype Outcome = Done | Refused | Failed | Died {
    predicate IsFailure() { !Done? }
    function PropagateFailure(): Outcome { this }
  }

  /** Some entries of `source`, with arbitrary bytes: an interrupted copy or an interrupted removal. */
  ghost predicate PartOf(t: Tree, source: Tree) {
    t.files.Keys <= source.files.Keys && t.dirs <= source.dirs
  }

  /** The states the copy can leave behind, wherever it stopped. */
  ghost predicate Recoverable(source: Tree, w: World) {
    if w.target.Some? then
      w.work == None && Manifest(w.target.value) == Manifest(source) && w.target.value.dirs <= source.dirs
    else
      !w.journaled && (w.work.Some? ==> PartOf(w.work.value, source))
  }

  // ---- What a resumed copy publishes ----------------------------------------

  /** An already published tree, a complete work tree, or else a new copy. */
  function Published(source: Tree, w: World): Tree {
    if w.target.Some? then w.target.value
    else if w.work.Some? && Manifest(w.work.value) == Manifest(source) then w.work.value
    else source
  }

  /** Whatever the interruption, the published files are the source's files. */
  lemma PublishedFiles(source: Tree, w: World)
    requires Recoverable(source, w)
    ensures Published(source, w).files == source.files && Published(source, w).dirs <= source.dirs
  {
  }

  /** All files are there, and a directory that holds none is not. */
  predicate LacksEmptyDirectory(source: Tree, t: Tree) {
    Manifest(t) == Manifest(source) && t.dirs < source.dirs
  }

  /**
   The published tree is the whole source, empty directories included, unless the copy was interrupted
   after its last file and before its last directory: the manifest does not see directories.
   */
  lemma WholeSourceExactly(source: Tree, w: World)
    requires Recoverable(source, w)
    ensures Published(source, w) == source <==>
              !(w.target.Some? && LacksEmptyDirectory(source, w.target.value))
              && !(w.target.None? && w.work.Some? && LacksEmptyDirectory(source, w.work.value))
  {
    var t := Published(source, w);
    if t.files == source.files && t.dirs == source.dirs {
      assert t == source;
    }
  }

  /**
   A stop between the last file and the last directory loses that directory for good: the work tree without it is
   one a disk can hold exactly when the directory is empty, and it is then published as it is.
   */
  lemma LastDirectoryCanBeLost(source: Tree, d: Path)
    requires OnDisk(source) && d in source.dirs && d != []
    ensures var t := Tree(source.files, source.dirs - {d});
            var w := World(Some(t), None, false);
            && (OnDisk(t) <==> Empty(source, d))
            && Recoverable(source, w) && Published(source, w) == t
  {
    var t := Tree(source.files, source.dirs - {d});
    assert t.files.Keys <= source.files.Keys;
    if Empty(source, d) {
      forall p | p in t.files || p in t.dirs ensures Housed(t, p) {
        assert Housed(source, p);
      }
    } else {
      var p :| (p in source.files || p in source.dirs) && d < p;
      assert !Housed(t, p);
    }
  }

  /** Running the copy again on its own result changes nothing. */
  lemma PublishedIsStable(source: Tree, w: World, journaled: bool)
    requires Recoverable(source, w)
    ensures var after := World(None, Some(Published(source, w)), journaled);
            Recoverable(source, after) && Published(source, after) == Published(source, w)
  {
  }

  // ---- The copy -------------------------------------------------------------

  class Copier {
    const source: Tree
    const faultFree: bool               // no step fails and the process does not die
    var w: World
    ghost var history: seq<World>       // every state the disk has been in

    ghost predicate Valid()
      reads this
    {
      && Recoverable(source, w)
      && forall i | 0 <= i < |history| :: Recoverable(source, history[i])
    }

    constructor (source: Tree, w: World, faultFree: bool)
      requires Recoverable(source, w)
      ensures Valid() && this.w == w && this.source == source && this.faultFree == faultFree
    {
      this.source, this.w, this.faultFree := source, w, faultFree;
      history := [w];
    }

    /** One durable step. */
    method Become(next: World) returns (o: Outcome)
      requires Valid() && Recoverable(source, next)
      modifies this
      ensures Valid() && old(history) <= history
      ensures !o.Refused? && (o.Done? ==> w == next) && (faultFree ==> o.Done?)
      ensures w == next || w == old(w)
    {
      var happens: bool, fault: bool := *, *;
      if happens || faultFree || fault == false {
        w := next;
        history := history + [next];
      }
      o := Done;
      if !faultFree && fault {
        var dies: bool := *;
        o := if dies then Died else Failed;
      }
    }

    /** The removal of the work tree: entries disappear one by one, in any order. */
    method RemoveWork() returns (o: Outcome)
      requires Valid() && w.target.None? && w.work.Some?
      modifies this
      ensures Valid() && !o.Refused? && (faultFree ==> o.Done?)
      ensures o.Done? ==> w == old(w).(work := None)
    {
      ghost var start := w;
      while w.work.value.files != map[] || w.work.value.dirs != {}
        invariant Valid() && w.work.Some? && w == start.(work := w.work)
        decreases |w.work.value.files| + |w.work.value.dirs|
      {
        var t := w.work.value;
        if t.files != map[] {
          var p :| p in t.files;
          RemovalShrinks(t.files, p);
          :- Become(w.(work := Some(t.(files := t.files - {p}))));
        } else {
          var d :| d in t.dirs;
          :- Become(w.(work := Some(t.(dirs := t.dirs - {d}))));
        }
      }
      o := Become(w.(work := None));
    }

    /** One more directory of the work tree. */
    method MakeDirectory(files: set<Path>, dirs: set<Path>, d: Path) returns (o: Outcome)
      requires Valid() && w.target.None? && w.work == Some(Copied(source, files, dirs)) && d in dirs
               && dirs <= source.dirs
      modifies this
      ensures Valid() && !o.Refused? && (faultFree ==> o.Done?)
      ensures o.Done? ==> w == old(w).(work := Some(Copied(source, files, dirs - {d})))
    {
      var t := w.work.value;
      assert Copied(source, files, dirs - {d}) == t.(dirs := t.dirs + {d});
      o := Become(w.(work := Some(t.(dirs := t.dirs + {d}))));
    }

    /** One more file, which a crash may leave half-written. */
    method CopyFile(files: set<Path>, dirs: set<Path>, p: Path) returns (o: Outcome)
      requires Valid() && w.target.None? && w.work == Some(Copied(source, files, dirs)) && p in files
               && files <= source.files.Keys
      modifies this
      ensures Valid() && !o.Refused? && (faultFree ==> o.Done?)
      ensures o.Done? ==> w == old(w).(work := Some(Copied(source, files - {p}, dirs)))
    {
      var t := w.work.value;
      var partial: string := *;
      :- Become(w.(work := Some(t.(files := t.files[p := partial]))));
      assert Copied(source, files - {p}, dirs).files == t.files[p := source.files[p]];
      o := Become(w.(work := Some(t.(files := t.files[p := source.files[p]]))));
    }

    /** `_secure_copy` into a fresh work tree: directories and files appear in any order. */
    method FillWork() returns (o: Outcome)
      requires Valid() && w.target.None? && w.work.None?
      modifies this
      ensures Valid() && !o.Refused? && (faultFree ==> o.Done?)
      ensures o.Done? ==> w == old(w).(work := Some(source))
    {
      var files, dirs := source.files.Keys, source.dirs;
      assert Copied(source, files, dirs) == Tree(map[], {});
      :- Become(w.(work := Some(Tree(map[], {}))));
      while files != {} || dirs != {}
        invariant Valid() && files <= source.files.Keys && dirs <= source.dirs
        invariant w == old(w).(work := Some(Copied(source, files, dirs)))
        decreases files, dirs
      {
        var directory: bool := *;
        if files == {} || (directory && dirs != {}) {
          var d :| d in dirs;
          :- MakeDirectory(files, dirs, d);
          dirs := dirs - {d};
        } else {
          var p :| p in files;
          :- CopyFile(files, dirs, p);
          files := files - {p};
        }
      }
      assert Copied(source, {}, {}) == source;
      o := Done;
    }

    /** The rename that publishes the work tree, and the directory sync after it. */
    method Publish() returns (o: Outcome)
      requires Valid() && w.target.None? && w.work.Some? && Manifest(w.work.value) == Manifest(source)
      modifies this
      ensures Valid() && !o.Refused? && (faultFree ==> o.Done?)
      ensures o.Done? ==> w == old(w).(work := None, target := old(w).work)
    {
      o := Become(w.(work := None, target := w.work));
      if !o.Done? {
        return;
      }
      o := Become(w);
    }

    /** `_secure_copy_atomic`. */
    method CopyAtomic() returns (o: Outcome)
      requires Valid()
      modifies this
      ensures Valid() && (faultFree && old(w).target.None? && old(w).work.None? ==> o.Done?)
      ensures old(w).target.None? && old(w).work.None? ==> !o.Refused?
      ensures o.Done? ==> w == World(None, Some(source), old(w).journaled)
    {
      if w.target.Some? || w.work.Some? {
        return Refused;
      }
      :- FillWork();
      if Manifest(source) != Manifest(w.work.value) {
        return Refused;
      }
      :- Become(w);
      o := Publish();
    }

    /** `_copy_reader_data`. */
    method Copy() returns (o: Outcome)
      requires Valid()
      modifies this
      ensures Valid()
      ensures !o.Refused? && (faultFree ==> o.Done?)
      ensures o.Done? ==> w == World(None, Some(Published(source, old(w))), old(w).journaled)
    {
      if w.journaled {
        if w.work.Some? || w.target.None? || Manifest(w.target.value) != Manifest(source) {
          return Refused;
        }
        return Done;
      }
      if w.target.Some? {
        if w.work.Some? || Manifest(w.target.value) != Manifest(source) {
          return Refused;
        }
        return Done;
      }
      if w.work.Some? {
        if Manifest(w.work.value) == Manifest(source) {
          :- Become(w);
          o := Publish();
          return;
        }
        :- RemoveWork();
        :- Become(w);
      }
      :- CopyAtomic();
      if Manifest(w.target.value) != Manifest(source) {
        return Refused;
      }
      o := Done;
    }

    /** The copy and the journal save that records its evidence. */
    method CopyAndRecord() returns (o: Outcome)
      requires Valid()
      modifies this
      ensures Valid()
      ensures !o.Refused? && (faultFree ==> o.Done?)
      ensures o.Done? ==> w == World(None, Some(Published(source, old(w))), true)
    {
      o := Copy();
      if !o.Done? {
        return;
      }
      o := Become(w.(journaled := true));
    }
  }

  /** The source without the entries still to be copied. */
  function Copied(source: Tree, files: set<Path>, dirs: set<Path>): Tree {
    Tree((map p | p in source.files && p !in files :: source.files[p]), source.dirs - dirs)
  }

  lemma RemovalShrinks(files: map<Path, string>, p: Path)
    requires p in files
    ensures |files - {p}| < |files|
  {
    assert (files - {p}).Keys == files.Keys - {p};
  }
}
