/**
 The installers and their cleanup of a failed attempt (`UnraidInstaller`, `ComposeInstaller`,
 `HubInstaller`). Every journal save, file write and Docker call is one step; it may raise with or
 without its effect, and the process may die after it. Meanwhile others may create objects under free
 names, and a running container of an attempt may create its session keys.
 */
module Installers {
  import opened Basics

  datatype Role = Api | Proxy | Hub

  /**
   Whose labels an object carries: one install attempt's, or somebody else's. `Shared` is somebody else's object that
   carries the labels of the same compose project and service.
   */
  datatype Owner = Own(id: nat) | Foreign | Shared

  datatype Status = Prepared | Starting | Cleaned | CleanupFailed

  datatype Attempt = Attempt(id: nat, status: Status)

  /** `keys` maps a session key file, one of `readers`, to the attempt whose container wrote it. */
  datatype World = World(containers: map<Role, Owner>, network: Option<Owner>, keys: map<string, nat>,
                         readers: set<string>, templates: set<Role>, journal: Option<Attempt>,
                         committed: Option<nat>, nextId: nat)

  datatype Outcome = Done | Refused | Raised | Died

  // ---- What the journal promises --------------------------------------------

  /** No container, private network or session key made by attempt i exists. */
  predicate Gone(w: World, i: nat) {
    && (forall r | r in w.containers :: w.containers[r] != Own(i))
    && w.network != Some(Own(i))
    && (forall k | k in w.keys :: w.keys[k] != i)
  }

  /** Attempts are numbered in order; nothing carries a number not yet given out. */
  predicate Numbered(w: World) {
    && (forall r | r in w.containers :: w.containers[r].Own? ==> w.containers[r].id < w.nextId)
    && (w.network.Some? && w.network.value.Own? ==> w.network.value.id < w.nextId)
    && (forall k | k in w.keys :: k in w.readers && w.keys[k] < w.nextId)
    && (w.journal.Some? ==> w.journal.value.id < w.nextId)
  }

  /** The journal on disk reads `cleaned` only if nothing of that attempt is left. */
  predicate Inv(w: World) {
    Numbered(w) && (w.journal.Some? && w.journal.value.status == Cleaned ==> Gone(w, w.journal.value.id))
  }

  /** A container or network disappears only if it carries the labels of the attempt in the journal. */
  predicate Lawful(w: World, n: World) {
    && (forall r | r in w.containers && !(r in n.containers && n.containers[r] == w.containers[r]) ::
          w.journal.Some? && w.containers[r] == Own(w.journal.value.id))
    && (w.network.Some? && n.network != w.network ==>
          w.journal.Some? && w.network == Some(Own(w.journal.value.id)))
  }

  /** Objects of attempt i are made only while the journal says i is starting, and no attempt starts twice. */
  predicate Forward(w: World, n: World) {
    && w.nextId <= n.nextId
    && (forall r | r in n.containers && n.containers[r].Own? && !(r in w.containers
      && w.containers[r] == n.containers[r]) ::
          w.journal == Some(Attempt(n.containers[r].id, Starting)))
    && (n.network != w.network && n.network.Some? && n.network.value.Own? ==>
          w.journal == Some(Attempt(n.network.value.id, Starting)))
    && (forall k | k in n.keys && !(k in w.keys && w.keys[k] == n.keys[k]) :: RunsAttempt(w, n.keys[k]))
    && (n.journal.Some? && n.journal.value.status == Starting && n.journal != w.journal ==>
          w.journal == Some(Attempt(n.journal.value.id, Prepared)))
    && (n.journal.Some? && n.journal.value.status == Prepared && n.journal != w.journal ==>
          n.journal.value.id >= w.nextId)
  }

  /** What others do meanwhile: objects of their own under free names, and keys written by running containers. */
  predicate Grows(w: World, n: World) {
    && n == w.(containers := n.containers, network := n.network, keys := n.keys)
    && (forall r | r in w.containers :: r in n.containers && n.containers[r] == w.containers[r])
    && (forall r | r in n.containers && r !in w.containers :: !n.containers[r].Own?)
    && (w.network.Some? ==> n.network == w.network)
    && (w.network.None? && n.network.Some? ==> !n.network.value.Own?)
    && (forall k | k in w.keys :: k in n.keys && n.keys[k] == w.keys[k])
    && (forall k | k in n.keys && k !in w.keys :: k in w.readers && RunsAttempt(w, n.keys[k]))
  }

  /** Some container of attempt i exists, and could write its keys. */
  predicate RunsAttempt(w: World, i: nat) {
    || (Api in w.containers && w.containers[Api] == Own(i))
    || (Hub in w.containers && w.containers[Hub] == Own(i))
  }

  lemma GrowthKeeps(w: World, n: World)
    requires Inv(w) && Grows(w, n)
    ensures Inv(n) && Lawful(w, n) && Forward(w, n)
  {
  }

  /** A key of attempt i cannot appear once none of its containers is left. */
  lemma NothingComesBack(w: World, n: World, i: nat)
    requires Gone(w, i) && Grows(w, n)
    ensures Gone(n, i)
  {
  }

  /** The states of one host, over any number of installs, failures and crashes. */
  ghost predicate Run(strict: bool, h: seq<World>) {
    && h != []
    && (forall i | 0 <= i < |h| :: Inv(h[i]))
    && (forall i | 0 <= i < |h| - 1 :: ForwardAt(h, i))
    && (strict ==> forall i | 0 <= i < |h| - 1 :: LawfulAt(h, i))
  }

  predicate LawfulAt(h: seq<World>, i: nat)
    requires i + 1 < |h|
  {
    Lawful(h[i], h[i + 1])
  }

  predicate ForwardAt(h: seq<World>, i: nat)
    requires i + 1 < |h|
  {
    Forward(h[i], h[i + 1])
  }

  /** One more legal step. */
  lemma Extend(strict: bool, h: seq<World>, n: World)
    requires Run(strict, h) && Inv(n) && Forward(h[|h| - 1], n) && (strict ==> Lawful(h[|h| - 1], n))
    ensures Run(strict, h + [n])
  {
    var longer := h + [n];
    forall i | 0 <= i < |longer| - 1 ensures ForwardAt(longer, i) && (strict ==> LawfulAt(longer, i)) {
      if i < |h| - 1 {
        assert ForwardAt(h, i) && (strict ==> LawfulAt(h, i));
      }
    }
  }

  /** Attempt a is over: nothing of it exists and it cannot start again. */
  predicate Over(w: World, a: nat) {
    && Gone(w, a) && a < w.nextId
    && (w.journal.Some? && w.journal.value.id == a ==> w.journal.value.status in {Cleaned, CleanupFailed})
  }

  lemma OverStays(w: World, n: World, a: nat)
    requires Over(w, a) && Forward(w, n)
    ensures Over(n, a)
  {
  }

  /** Once the journal has read `cleaned` for an attempt, nothing of that attempt ever exists again. */
  lemma {:induction false} CleanedStaysTrue(strict: bool, h: seq<World>, i: nat, k: nat)
    requires Run(strict, h) && i <= k < |h| && h[i].journal.Some? && h[i].journal.value.status == Cleaned
    ensures Over(h[k], h[i].journal.value.id)
  {
    if i == k {
      assert Inv(h[i]);
    } else {
      CleanedStaysTrue(strict, h, i, k - 1);
      assert ForwardAt(h, k - 1);
      OverStays(h[k - 1], h[k], h[i].journal.value.id);
    }
  }

  /** Somebody else's container stays as it is through a run of lawful steps. */
  lemma {:induction false} ForeignContainersStay(h: seq<World>, i: nat, k: nat, r: Role)
    requires Run(true, h) && i <= k < |h| && r in h[i].containers && !h[i].containers[r].Own?
    ensures r in h[k].containers && h[k].containers[r] == h[i].containers[r]
  {
    if i < k {
      ForeignContainersStay(h, i, k - 1, r);
      assert LawfulAt(h, k - 1);
    }
  }

  lemma {:induction false} ForeignNetworkStays(h: seq<World>, i: nat, k: nat)
    requires Run(true, h) && i <= k < |h| && h[i].network.Some? && !h[i].network.value.Own?
    ensures h[k].network == h[i].network
  {
    if i < k {
      ForeignNetworkStays(h, i, k - 1);
      assert LawfulAt(h, k - 1);
    }
  }

  // ---- One attempt ----------------------------------------------------------

  /** Attempt i is in the journal and still open. */
  predicate Open(w: World, i: nat) {
    w.journal.Some? && w.journal.value.id == i && w.journal.value.status != Cleaned
  }

  /** Everything attempt i has made so far is on the installer's list. */
  predicate Listed(w: World, i: nat, roles: seq<Role>, network: bool, preexisting: set<string>) {
    && (forall r | r in w.containers && w.containers[r] == Own(i) :: r in roles)
    && (w.network == Some(Own(i)) ==> network)
    && (forall k | k in preexisting :: k in w.keys && w.keys[k] != i)
  }

  class Host {
    const faultFree: bool
    var w: World
    ghost var lawful: bool               // every step so far removed only what was the attempt's own
    ghost var history: seq<World>

    ghost predicate Valid()
      reads this
    {
      Run(lawful, history) && history[|history| - 1] == w
    }

    constructor (faultFree: bool, w: World)
      requires Inv(w)
      ensures Valid() && this.w == w && lawful && history == [w]
    {
      this.faultFree, this.w, lawful := faultFree, w, true;
      history := [w];
    }

    ghost method Record(next: World)
      requires history != [] && Run(lawful, history) && Inv(next)
      requires Forward(history[|history| - 1], next)
      requires lawful ==> Lawful(history[|history| - 1], next)
      modifies this`history
      ensures Run(lawful, history) && history == old(history) + [next]
    {
      Extend(lawful, history, next);
      history := history + [next];
    }

    /** What others do between two steps. */
    method Meanwhile()
      requires Valid()
      modifies this`w, this`history
      ensures Valid() && old(history) <= history && Grows(old(w), w)
    {
      var n: World := *;
      if Grows(w, n) {
        GrowthKeeps(w, n);
        Record(n);
        w := n;
      }
    }

    /** One durable step, and what others do after it. */
    method Become(next: World) returns (o: Outcome)
      requires Valid() && Inv(next) && Forward(w, next) && (lawful ==> Lawful(w, next))
      modifies this`w, this`history
      ensures Valid() && old(history) <= history
      ensures o.Done? || o.Raised? || o.Died?
      ensures Grows(next, w) || (Grows(old(w), w) && !o.Done?)
      ensures o.Done? ==> |old(history)| < |history| && history[|old(history)|] == next
      ensures faultFree ==> o.Done?
    {
      var fault: bool, happens: bool, dies: bool := *, *, *;
      fault := fault && !faultFree;
      if happens || !fault {
        Record(next);
        w := next;
      }
      Meanwhile();
      o := if !fault then Done else if dies then Died else Raised;
    }

    /** A step of an open attempt that leaves the installer's list complete. */
    method Do(next: World, ghost i: nat, ghost roles: seq<Role>, ghost network: bool, ghost preexisting: set<string>)
        returns (o: Outcome)
      requires Valid() && Inv(next) && Forward(w, next) && (lawful ==> Lawful(w, next))
      requires Open(w, i) && Listed(w, i, roles, network, preexisting)
      requires Open(next, i) && Listed(next, i, roles, network, preexisting)
      modifies this`w, this`history
      ensures Valid() && old(history) <= history && (o.Done? || o.Raised? || o.Died?)
      ensures Open(w, i) && Listed(w, i, roles, network, preexisting)
      ensures Grows(next, w) || (Grows(old(w), w) && !o.Done?)
      ensures o.Done? ==> |old(history)| < |history| && history[|old(history)|] == next
      ensures faultFree ==> o.Done?
    {
      ListedKeeps(w, next, i, roles, network, preexisting);
      o := Become(next);
    }

    /** A Docker call or a check that changes nothing itself. */
    method Pass(ghost i: nat, ghost roles: seq<Role>, ghost network: bool, ghost preexisting: set<string>)
        returns (o: Outcome)
      requires Valid() && Open(w, i) && Listed(w, i, roles, network, preexisting)
      modifies this`w, this`history
      ensures Valid() && old(history) <= history && (o.Done? || o.Raised? || o.Died?) && w.journal == old(w).journal
      ensures Open(w, i) && Listed(w, i, roles, network, preexisting) && Grows(old(w), w)
      ensures faultFree ==> o.Done?
    {
      o := Do(w, i, roles, network, preexisting);
    }

    /** `create_network`: a name conflict raises. */
    method CreateNetwork(i: nat, ghost preexisting: set<string>) returns (o: Outcome)
      requires Valid() && w.journal == Some(Attempt(i, Starting)) && Listed(w, i, [], true, preexisting)
      modifies this`w, this`history
      ensures Valid() && old(history) <= history && (o.Done? || o.Raised? || o.Died?)
      ensures w.journal == old(w).journal && Listed(w, i, [], true, preexisting) && w.templates == old(w).templates
      ensures o.Done? ==> w.network == Some(Own(i))
    {
      if w.network.Some? {
        return Raised;
      }
      o := Do(w.(network := Some(Own(i))), i, [], true, preexisting);
    }

    /** `create_container`, connect, start and wait; the container is already on the list. */
    method RunContainer(i: nat, role: Role, ghost roles: seq<Role>, ghost preexisting: set<string>) returns (o: Outcome)
      requires Valid() && w.journal == Some(Attempt(i, Starting)) && Listed(w, i, roles, true, preexisting)
               && role in roles
      modifies this`w, this`history
      ensures Valid() && old(history) <= history && (o.Done? || o.Raised? || o.Died?)
      ensures w.journal == old(w).journal && Listed(w, i, roles, true, preexisting) && w.templates == old(w).templates
      ensures o.Done? ==> Keeps(old(w), w) && Holds(w, role, i)
    {
      if role in w.containers {
        return Raised;
      }
      o := Launch(i, role, roles, preexisting);
    }

    /** The container under its name, in place of one that must not be there lawfully, and everything until it is healthy. */
    method Launch(i: nat, role: Role, ghost roles: seq<Role>, ghost preexisting: set<string>) returns (o: Outcome)
      requires Valid() && w.journal == Some(Attempt(i, Starting)) && Listed(w, i, roles, true, preexisting)
      requires role in roles && (role in w.containers && w.containers[role] != Own(i) ==> !lawful)
      modifies this`w, this`history
      ensures Valid() && old(history) <= history && (o.Done? || o.Raised? || o.Died?)
      ensures w.journal == old(w).journal && Listed(w, i, roles, true, preexisting) && w.templates == old(w).templates
      ensures o.Done? ==> Holds(w, role, i) && forall r | Holds(old(w), r, i) :: Holds(w, r, i)
      ensures o.Done? && role !in old(w).containers ==> Keeps(old(w), w)
    {
      o := Do(w.(containers := w.containers[role := Own(i)]), i, roles, true, preexisting);
      if o.Done? {
        o := Pass(i, roles, true, preexisting);
      }
    }

    /**
     Templates are published one by one, and one is listed as copied only after its write returned.
     `stray` is the template whose write did not return although it is on disk.
     */
    method CopyTemplates(i: nat, roles: seq<Role>, ghost preexisting: set<string>)
        returns (o: Outcome, copied: seq<Role>, ghost stray: set<Role>)
      requires Valid() && Open(w, i) && Listed(w, i, roles, true, preexisting) && w.templates == {}
      requires forall m, n | 0 <= m < n < |roles| :: roles[m] != roles[n]
      modifies this`w, this`history
      ensures Valid() && old(history) <= history && (o.Done? || o.Raised? || o.Died?)
      ensures Open(w, i) && Listed(w, i, roles, true, preexisting)
      ensures copied <= roles && (o.Done? <==> copied == roles) && w.templates == Elements(copied) + stray
      ensures stray == if !o.Done? && roles[|copied|] in w.templates then {roles[|copied|]} else {}
      ensures o.Done? ==> Keeps(old(w), w)
    {
      copied, stray := [], {};
      for n := 0 to |roles|
        invariant Valid() && old(history) <= history && Open(w, i) && Listed(w, i, roles, true, preexisting)
        invariant Keeps(old(w), w) && copied == roles[..n] && w.templates == Elements(copied)
      {
        o := Do(w.(templates := w.templates + {roles[n]}), i, roles, true, preexisting);
        if !o.Done? {
          stray := w.templates - Elements(copied);
          return;
        }
        copied := copied + [roles[n]];
      }
      o := Done;
    }

    /** The state file, and then the journal is removed. */
    method Commit(i: nat, ghost roles: seq<Role>, ghost network: bool, ghost preexisting: set<string>)
        returns (o: Outcome, committed: bool)
      requires Valid() && Open(w, i) && Listed(w, i, roles, network, preexisting)
      modifies this`w, this`history
      ensures Valid() && old(history) <= history && (o.Done? || o.Raised? || o.Died?)
      ensures !committed ==> Open(w, i) && Listed(w, i, roles, network, preexisting)
      ensures Open(w, i) || w.journal == None
      ensures o.Done? ==> committed && w.committed == Some(i) && w.journal == None && Keeps(old(w), w)
      ensures w.templates == old(w).templates
    {
      committed := false;
      o := Do(w.(committed := Some(i)), i, roles, network, preexisting);
      if o.Done? {
        committed := true;
        o := Become(w.(journal := None));
      }
    }

    // ---- Cleanup ------------------------------------------------------------

    /** Takes back the templates on the list, last one first; errors are collected, not raised. */
    method UnlinkTemplates(i: nat, copied: seq<Role>, ghost roles: seq<Role>, ghost network: bool,
            ghost preexisting: set<string>)
        returns (died: bool, errors: bool)
      requires Valid() && Open(w, i) && Listed(w, i, roles, network, preexisting)
      modifies this`w, this`history
      ensures Valid() && old(history) <= history && Open(w, i) && Listed(w, i, roles, network, preexisting)
      ensures w.templates <= old(w).templates
      ensures !died && !errors ==> w.templates == old(w).templates - Elements(copied)
      ensures (faultFree ==> !died && !errors) && (OnlyThis(old(w), i) ==> OnlyThis(w, i))
    {
      died, errors := false, false;
      for n := |copied| downto 0
        invariant Valid() && old(history) <= history && Open(w, i) && Listed(w, i, roles, network, preexisting)
        invariant w.templates <= old(w).templates
        invariant !errors ==> w.templates == old(w).templates - Elements(copied[n..])
        invariant (faultFree ==> !errors) && (OnlyThis(old(w), i) ==> OnlyThis(w, i))
      {
        var o := Do(w.(templates := w.templates - {copied[n]}), i, roles, network, preexisting);
        if o.Died? {
          return true, errors;
        }
        errors := errors || o.Raised?;
        assert copied[n..] == [copied[n]] + copied[n + 1..];
      }
      assert copied[0..] == copied;
    }

    /** Takes back the containers on the list, last one first: only one with this attempt's labels is removed. */
    method RemoveContainers(i: nat, roles: seq<Role>, ghost network: bool, ghost preexisting: set<string>)
        returns (died: bool, errors: bool)
      requires Valid() && Open(w, i) && Listed(w, i, roles, network, preexisting)
      modifies this`w, this`history
      ensures Valid() && old(history) <= history && Open(w, i) && Listed(w, i, roles, network, preexisting)
      ensures w.templates == old(w).templates
      ensures !died && !errors ==> NoContainer(w, i)
      ensures (faultFree ==> !died && !errors) && (OnlyThis(old(w), i) ==> OnlyThis(w, i))
    {
      died, errors := false, false;
      for n := |roles| downto 0
        invariant Valid() && old(history) <= history && Open(w, i) && Listed(w, i, roles, network, preexisting)
        invariant w.templates == old(w).templates
        invariant !errors ==> forall p | n <= p < |roles| :: Removed(w, roles[p], i)
        invariant (faultFree ==> !errors) && (OnlyThis(old(w), i) ==> OnlyThis(w, i))
      {
        var o := RemoveOne(i, roles[n], roles, network, preexisting);
        if o.Died? {
          return true, errors;
        }
        errors := errors || o.Raised?;
      }
    }

    /** Inspect one name, and remove the container if its labels are this attempt's. */
    method RemoveOne(i: nat, role: Role, ghost roles: seq<Role>, ghost network: bool, ghost preexisting: set<string>)
        returns (o: Outcome)
      requires Valid() && Open(w, i) && Listed(w, i, roles, network, preexisting)
      modifies this`w, this`history
      ensures Valid() && old(history) <= history && (o.Done? || o.Raised? || o.Died?)
      ensures Open(w, i) && Listed(w, i, roles, network, preexisting) && w.templates == old(w).templates
      ensures forall r | Removed(old(w), r, i) :: Removed(w, r, i)
      ensures (o.Done? ==> Removed(w, role, i)) && (faultFree ==> o.Done?)
      ensures OnlyThis(old(w), i) ==> OnlyThis(w, i)
    {
      o := Pass(i, roles, network, preexisting);
      if o.Done? && role in w.containers && w.containers[role] == Own(i) {
        o := Do(w.(containers := w.containers - {role}), i, roles, network, preexisting);
      }
    }

    /** The private network: somebody else's is an error, never removed. */
    method RemoveNetwork(i: nat, ghost roles: seq<Role>, network: bool, ghost preexisting: set<string>)
        returns (died: bool, errors: bool)
      requires Valid() && Open(w, i) && Listed(w, i, roles, network, preexisting)
      modifies this`w, this`history
      ensures Valid() && old(history) <= history && Open(w, i) && Listed(w, i, roles, network, preexisting)
      ensures w.templates == old(w).templates && (NoContainer(old(w), i) ==> NoContainer(w, i))
      ensures !died && !errors ==> w.network != Some(Own(i))
      ensures network && old(w).network.Some? && old(w).network != Some(Own(i)) ==> died || errors
      ensures faultFree && OnlyThis(old(w), i) && OwnNetwork(w) ==> !died && !errors
      ensures faultFree && old(w).network == Some(Own(i)) ==> !died && !errors
      ensures OnlyThis(old(w), i) ==> OnlyThis(w, i)
    {
      died, errors := false, false;
      if network {
        var o := Pass(i, roles, network, preexisting);
        if o.Done? && w.network.Some? {
          if w.network != Some(Own(i)) {
            return false, true;
          }
          o := Do(w.(network := None), i, roles, network, preexisting);
        }
        died, errors := o.Died?, o.Raised?;
      }
    }

    /** `_remove_new_session_key`, for every session key file of the deployment. */
    method RemoveKeys(i: nat, ghost roles: seq<Role>, ghost network: bool, preexisting: set<string>)
        returns (died: bool, errors: bool)
      requires Valid() && Open(w, i) && Listed(w, i, roles, network, preexisting) && NoContainer(w, i)
      modifies this`w, this`history
      ensures Valid() && old(history) <= history && Open(w, i) && Listed(w, i, roles, network, preexisting)
      ensures w.templates == old(w).templates && NoContainer(w, i)
      ensures old(w).network != Some(Own(i)) ==> w.network != Some(Own(i))
      ensures !died && !errors ==> forall k | k in w.keys :: w.keys[k] != i
      ensures w.network == old(w).network || old(w).network == None
      ensures faultFree && OnlyThis(old(w), i) ==> !died && !errors
    {
      died, errors := false, false;
      var left := w.readers - preexisting;
      while left != {}
        invariant Valid() && old(history) <= history && Open(w, i) && Listed(w, i, roles, network, preexisting)
        invariant w.templates == old(w).templates && NoContainer(w, i)
        invariant old(w).network != Some(Own(i)) ==> w.network != Some(Own(i))
        invariant w.network == old(w).network || old(w).network == None
        invariant OnlyThis(old(w), i) ==> OnlyThis(w, i)
        invariant forall k | k in w.keys && w.keys[k] == i :: k in left
        invariant left <= w.readers - preexisting && w.readers == old(w).readers
        decreases left
      {
        var k :| k in left;
        left := left - {k};
        var o := RemoveKey(i, k, roles, network, preexisting);
        if !o.Done? {
          return o.Died?, true;
        }
      }
    }

    /** Remove one credential file and look again. */
    method RemoveKey(i: nat, k: string, ghost roles: seq<Role>, ghost network: bool, ghost preexisting: set<string>)
        returns (o: Outcome)
      requires Valid() && Open(w, i) && Listed(w, i, roles, network, preexisting) && NoContainer(w, i)
               && k !in preexisting
      modifies this`w, this`history
      ensures Valid() && old(history) <= history && Open(w, i) && Listed(w, i, roles, network, preexisting)
      ensures o.Done? || o.Raised? || o.Died?
      ensures w.templates == old(w).templates && NoContainer(w, i) && w.readers == old(w).readers
      ensures w.network == old(w).network || (old(w).network == None && w.network.Some? && !w.network.value.Own?)
      ensures OnlyThis(old(w), i) ==> OnlyThis(w, i)
      ensures forall l | l in w.keys && w.keys[l] == i :: l in old(w).keys && old(w).keys[l] == i
      ensures o.Done? ==> k !in w.keys
      ensures faultFree && OnlyThis(old(w), i) ==> o.Done?
    {
      if k !in w.keys {
        return Done;
      }
      o := Do(w.(keys := w.keys - {k}), i, roles, network, preexisting);
      if o.Done? && k in w.keys {
        o := Raised;
      }
    }

    /** The verdict of the cleanup: `cleaned`, or `cleanup-failed` with whatever went wrong. */
    method CloseAttempt(i: nat, errors: bool) returns (o: Outcome)
      requires Valid() && Open(w, i) && (!errors ==> Gone(w, i))
      modifies this`w, this`history
      ensures Valid() && old(history) <= history && (o.Raised? || o.Died?) && w.templates == old(w).templates
      ensures w.journal.Some? && w.journal.value.id == i && (errors ==> Open(w, i))
      ensures faultFree && !errors ==> w.journal == Some(Attempt(i, Cleaned))
      ensures w.network == old(w).network || old(w).network == None
    {
      if !errors {
        o := Become(w.(journal := Some(Attempt(i, Cleaned))));
        if o.Died? {
          return;
        }
        if o.Done? {
          return Raised;
        }
      }
      o := Become(w.(journal := Some(Attempt(i, CleanupFailed))));
      o := if o.Died? then Died else Raised;
    }

    // ---- Before anything is created -----------------------------------------

    /** A step that touches at most the journal; attempt i and the retried attempt still own nothing. */
    method Early(next: World, ghost i: nat, ghost retry: Option<Attempt>) returns (o: Outcome)
      requires Valid() && Inv(next) && Forward(w, next) && next == w.(journal := next.journal, nextId := next.nextId)
      requires Gone(w, i) && (retry.Some? ==> Gone(w, retry.value.id))
      modifies this`w, this`history
      ensures Valid() && old(history) <= history && (o.Done? || o.Raised? || o.Died?)
      ensures Gone(w, i) && (retry.Some? ==> Gone(w, retry.value.id)) && w.templates == old(w).templates
      ensures old(w).keys.Keys <= w.keys.Keys
      ensures w.journal == old(w).journal || w.journal == next.journal
      ensures o.Done? ==> w.journal == next.journal && w.nextId == next.nextId
      ensures w.nextId == old(w).nextId || w.nextId == next.nextId
    {
      o := Become(next);
      ghost var from := if Grows(next, w) then next else old(w);
      NothingComesBack(from, w, i);
      if retry.Some? {
        NothingComesBack(from, w, retry.value.id);
      }
    }

    /** A failure before the first Docker object: forget the attempt, or put the retry evidence back. */
    method Withdraw(i: nat, retry: Option<Attempt>) returns (o: Outcome)
      requires Valid() && Gone(w, i) && i < w.nextId
      requires retry.Some? ==> retry.value.status == Cleaned && Gone(w, retry.value.id) && retry.value.id < w.nextId
      modifies this`w, this`history
      ensures Valid() && old(history) <= history && (o.Raised? || o.Died?)
      ensures w.journal == old(w).journal || w.journal == retry || w.journal == Some(Attempt(i, CleanupFailed))
    {
      o := Early(w.(journal := retry), i, retry);
      if o.Raised? {
        o := Early(w.(journal := Some(Attempt(i, CleanupFailed))), i, retry);
      }
      o := if o.Died? then Died else Raised;
    }

    /** Image, data directory and private files, before any Docker object; which session keys exist already. */
    method EarlyWork(i: nat, ghost retry: Option<Attempt>) returns (o: Outcome, preexisting: set<string>)
      requires Valid() && Gone(w, i) && (retry.Some? ==> Gone(w, retry.value.id))
      modifies this`w, this`history
      ensures Valid() && old(history) <= history && (o.Done? || o.Raised? || o.Died?)
      ensures Gone(w, i) && (retry.Some? ==> Gone(w, retry.value.id))
      ensures w.journal == old(w).journal && w.templates == old(w).templates && w.nextId == old(w).nextId
      ensures Listed(w, i, [], false, preexisting)
    {
      preexisting := {};
      o := Early(w, i, retry);
      if o.Done? {
        preexisting := set k | k in w.keys && k in w.readers;
        o := Early(w, i, retry);
      }
    }

    /** Preflight, the new attempt, and everything up to the first Docker object. */
    method Begin(retryMatches: bool) returns (o: Outcome, i: nat, preexisting: set<string>, retry: Option<Attempt>)
      requires Valid()
      modifies this`w, this`history
      ensures Valid() && old(history) <= history
      ensures i == old(w).nextId
      ensures o.Refused? ==> w == old(w)
      ensures !o.Done? ==> w.journal != Some(Attempt(i, Cleaned))
      ensures retry.Some? ==> retry.value.status == Cleaned && retry.value.id < i
      ensures o.Done? ==> retry.Some? ==> Gone(w, retry.value.id)
      ensures o.Done? ==> w.journal == Some(Attempt(i, Prepared)) && Gone(w, i) && Listed(w, i, [], false, preexisting) && w.templates == {}
    {
      i, preexisting, retry := w.nextId, {}, None;
      if Api in w.containers || Proxy in w.containers || w.network.Some? || w.templates != {} || w.committed.Some? {
        return Refused, i, preexisting, None;
      }
      if w.journal.Some? && !(w.journal.value.status == Cleaned && retryMatches) {
        return Refused, i, preexisting, None;
      }
      retry := w.journal;
      o := Early(w.(journal := Some(Attempt(i, Prepared)), nextId := i + 1), i, retry);
      if !o.Done? {
        return;
      }
      o, preexisting := EarlyWork(i, retry);
      if o.Raised? {
        o := Withdraw(i, retry);
      }
    }

    // ---- The Unraid installer -----------------------------------------------

    /** The first half of the `try` block: network, API, proxy; the lists say what may have been made. */
    method UnraidStart(i: nat, ghost preexisting: set<string>) returns (o: Outcome, roles: seq<Role>, network: bool)
      requires Valid() && w.journal == Some(Attempt(i, Prepared)) && Listed(w, i, [], false, preexisting)
               && w.templates == {}
      modifies this`w, this`history
      ensures Valid() && old(history) <= history && (o.Done? || o.Raised? || o.Died?)
      ensures Open(w, i) && Listed(w, i, roles, network, preexisting) && w.templates == {}
      ensures o.Done? ==> network && roles == [Api, Proxy] && Holds(w, Api, i) && Holds(w, Proxy, i) && w.network == Some(Own(i))
    {
      roles, network := [], false;
      o := Do(w.(journal := Some(Attempt(i, Starting))), i, [], false, preexisting);
      if !o.Done? {
        return;
      }
      network := true;
      o := CreateNetwork(i, preexisting);
      if !o.Done? {
        return;
      }
      roles := [Api];
      o := RunContainer(i, Api, roles, preexisting);
      if !o.Done? {
        return;
      }
      roles := [Api, Proxy];
      o := RunContainer(i, Proxy, roles, preexisting);
    }

    /** The `try` block: containers, templates, state. */
    method UnraidTry(i: nat, ghost preexisting: set<string>)
        returns (o: Outcome, roles: seq<Role>, network: bool, copied: seq<Role>, ghost stray: set<Role>, committed: bool)
      requires Valid() && w.journal == Some(Attempt(i, Prepared)) && Listed(w, i, [], false, preexisting)
               && w.templates == {}
      modifies this`w, this`history
      ensures Valid() && old(history) <= history && (o.Done? || o.Raised? || o.Died?)
      ensures o.Done? ==> committed && UnraidInstalled(w, i)
      ensures Open(w, i) || w.journal == None
      ensures !committed ==> Open(w, i) && Listed(w, i, roles, network, preexisting)
      ensures !committed ==> w.templates == Elements(copied) + stray && stray !! Elements(copied) && |stray| <= 1
    {
      copied, stray, committed := [], {}, false;
      o, roles, network := UnraidStart(i, preexisting);
      if !o.Done? {
        return;
      }
      o, copied, stray := CopyTemplates(i, roles, preexisting);
      if !o.Done? {
        return;
      }
      o, committed := Commit(i, roles, network, preexisting);
    }

    /** The `except` block: reverse cleanup; `cleaned` only when no step of it failed. */
    method UnraidCleanup(i: nat, roles: seq<Role>, network: bool, copied: seq<Role>, preexisting: set<string>)
        returns (o: Outcome)
      requires Valid() && Open(w, i) && Listed(w, i, roles, network, preexisting)
      modifies this`w, this`history
      ensures Valid() && old(history) <= history && (o.Raised? || o.Died?)
      ensures w.templates <= old(w).templates
      ensures !Open(w, i) ==> w.templates == old(w).templates - Elements(copied)
      ensures faultFree && OnlyThis(old(w), i) && OwnNetwork(w) ==> w.journal == Some(Attempt(i, Cleaned))
    {
      var died, errors := UnlinkTemplates(i, copied, roles, network, preexisting);
      if died {
        return Died;
      }
      var died1, errors1 := RemoveContainers(i, roles, network, preexisting);
      if died1 {
        return Died;
      }
      var died2, errors2 := RemoveNetwork(i, roles, network, preexisting);
      if died2 {
        return Died;
      }
      var failed := errors || errors1 || errors2;
      if !failed {
        var died3, errors3 := RemoveKeys(i, roles, network, preexisting);
        if died3 {
          return Died;
        }
        failed := errors3;
      }
      o := CloseAttempt(i, failed);
    }

    /**
     `UnraidInstaller.install`. When the journal reads `cleaned`, what is left of the templates is exactly
     what was on disk, at the failure, without being listed as copied; `CopyTemplates` says which that is.
     */
    method InstallUnraid(retryMatches: bool)
        returns (o: Outcome, ghost i: nat, ghost copied: seq<Role>, ghost stray: set<Role>)
      requires Valid()
      modifies this`w, this`history
      ensures Valid() && old(history) <= history
      ensures o.Refused? ==> w == old(w)
      ensures i == old(w).nextId
      ensures o.Done? ==> UnraidInstalled(w, i)
      ensures w.journal == Some(Attempt(i, Cleaned)) ==> Gone(w, i) && w.templates == stray
      ensures |stray| <= 1 && stray !! Elements(copied)
      ensures stray != {} ==> Elements(copied) + stray in OnDisk(history)
    {
      var id, preexisting, retry;
      copied, stray := [], {};
      o, id, preexisting, retry := Begin(retryMatches);
      i := id;
      if !o.Done? {
        return;
      }
      var roles, network, listed, committed;
      o, roles, network, listed, stray, committed := UnraidTry(id, preexisting);
      copied := listed;
      if committed {
        stray := {};
      }
      ghost var m := |history| - 1;
      assert history[m].templates in OnDisk(history);
      if o.Raised? && !committed {
        ghost var before := w.templates;
        o := UnraidCleanup(id, roles, network, listed, preexisting);
        WithoutCopies(before, Elements(copied), stray);
        assert history[m].templates in OnDisk(history);
      }
    }

    // ---- The Compose installer ----------------------------------------------

    /** The private network of `compose up`: one of the same project is taken over, any other is a conflict. */
    method UpNetwork(i: nat, ghost preexisting: set<string>) returns (o: Outcome)
      requires Valid() && w.journal == Some(Attempt(i, Starting)) && Listed(w, i, [Api, Proxy], true, preexisting)
      modifies this`w, this`history
      ensures Valid() && old(history) <= history && (o.Done? || o.Raised? || o.Died?)
      ensures w.journal == old(w).journal && Listed(w, i, [Api, Proxy], true, preexisting)
    {
      if w.network == Some(Foreign) {
        return Raised;
      }
      if w.network.Some? {
        o := Pass(i, [Api, Proxy], true, preexisting);
        return;
      }
      o := Do(w.(network := Some(Own(i))), i, [Api, Proxy], true, preexisting);
    }

    /**
     One service of `compose up`: a container of the same project under its name is recreated, any other is a
     conflict. `met` is the state in which that container was somebody else's.
     */
    method UpService(i: nat, role: Role, ghost preexisting: set<string>) returns (o: Outcome, ghost met: Option<World>)
      requires Valid() && w.journal == Some(Attempt(i, Starting)) && Listed(w, i, [Api, Proxy], true, preexisting)
               && role in [Api, Proxy]
      modifies this`w, this`history, this`lawful
      ensures Valid() && old(history) <= history && (o.Done? || o.Raised? || o.Died?)
      ensures w.journal == old(w).journal && Listed(w, i, [Api, Proxy], true, preexisting)
      ensures o.Done? ==> Holds(w, role, i) && forall r | Holds(old(w), r, i) :: Holds(w, r, i)
      ensures met.None? ==> lawful == old(lawful)
      ensures met.Some? ==> met.value in history && MeetsOther(met.value, i)
    {
      met := None;
      if role in w.containers && w.containers[role] == Foreign {
        return Raised, None;
      }
      if role in w.containers && w.containers[role] != Own(i) {
        met, lawful := Some(w), false;
      }
      ghost var before := history;
      o := Launch(i, role, [Api, Proxy], preexisting);
      SeenStays(before, history, met);
    }

    /** `compose up`: network and containers, stopping anywhere. */
    method ComposeUp(i: nat, ghost preexisting: set<string>) returns (o: Outcome, ghost met: Option<World>)
      requires Valid() && w.journal == Some(Attempt(i, Starting)) && Listed(w, i, [Api, Proxy], true, preexisting)
      modifies this`w, this`history, this`lawful
      ensures Valid() && old(history) <= history && (o.Done? || o.Raised? || o.Died?)
      ensures w.journal == old(w).journal && Listed(w, i, [Api, Proxy], true, preexisting)
      ensures o.Done? ==> Holds(w, Api, i) && Holds(w, Proxy, i)
      ensures met.None? ==> lawful == old(lawful)
      ensures met.Some? ==> met.value in history && MeetsOther(met.value, i)
    {
      met := None;
      o := UpNetwork(i, preexisting);
      if !o.Done? {
        return;
      }
      var apiFirst: bool := *;
      o, met := UpService(i, if apiFirst then Api else Proxy, preexisting);
      if !o.Done? {
        return;
      }
      ghost var before, also := history, None;
      o, also := UpService(i, if apiFirst then Proxy else Api, preexisting);
      SeenStays(before, history, met);
      met := if met.Some? then met else also;
    }

    /** One service of `compose down`: whatever carries the project's labels goes, whoever made it. */
    method DownService(i: nat, role: Role, ghost preexisting: set<string>) returns (o: Outcome, ghost met: Option<World>)
      requires role in {Api, Proxy} && Valid() && Open(w, i) && Listed(w, i, [Api, Proxy], true, preexisting)
      modifies this`w, this`history, this`lawful
      ensures Valid() && old(history) <= history && (o.Done? || o.Raised? || o.Died?)
      ensures Open(w, i) && Listed(w, i, [Api, Proxy], true, preexisting)
      ensures forall r | Removed(old(w), r, i) :: Removed(w, r, i)
      ensures (o.Done? ==> Removed(w, role, i)) && (faultFree ==> o.Done?)
      ensures OnlyThis(old(w), i) ==> OnlyThis(w, i)
      ensures met.None? ==> lawful == old(lawful)
      ensures met.Some? ==> met.value in history && MeetsOther(met.value, i)
    {
      met := None;
      if role !in w.containers || w.containers[role] == Foreign {
        o := Pass(i, [Api, Proxy], true, preexisting);
        return;
      }
      if w.containers[role] != Own(i) {
        met, lawful := Some(w), false;
      }
      ghost var before := history;
      o := Do(w.(containers := w.containers - {role}), i, [Api, Proxy], true, preexisting);
      SeenStays(before, history, met);
    }

    /** The network of `compose down`. */
    method DownNetwork(i: nat, ghost preexisting: set<string>) returns (o: Outcome, ghost met: Option<World>)
      requires Valid() && Open(w, i) && Listed(w, i, [Api, Proxy], true, preexisting)
      modifies this`w, this`history, this`lawful
      ensures Valid() && old(history) <= history && (o.Done? || o.Raised? || o.Died?)
      ensures Open(w, i) && Listed(w, i, [Api, Proxy], true, preexisting) && (NoContainer(old(w), i) ==> NoContainer(w, i))
      ensures (o.Done? ==> w.network != Some(Own(i))) && (faultFree ==> o.Done?)
      ensures OnlyThis(old(w), i) ==> OnlyThis(w, i)
      ensures met.None? ==> lawful == old(lawful)
      ensures met.Some? ==> met.value in history && MeetsOther(met.value, i)
    {
      met := None;
      if w.network.None? || w.network == Some(Foreign) {
        o := Pass(i, [Api, Proxy], true, preexisting);
        return;
      }
      if w.network != Some(Own(i)) {
        met, lawful := Some(w), false;
      }
      ghost var before := history;
      o := Do(w.(network := None), i, [Api, Proxy], true, preexisting);
      SeenStays(before, history, met);
    }

    /** `compose down`, which ends at its first failure. */
    method ComposeDown(i: nat, ghost preexisting: set<string>) returns (o: Outcome, ghost met: Option<World>)
      requires Valid() && Open(w, i) && Listed(w, i, [Api, Proxy], true, preexisting)
      modifies this`w, this`history, this`lawful
      ensures Valid() && old(history) <= history && (o.Done? || o.Raised? || o.Died?)
      ensures Open(w, i) && Listed(w, i, [Api, Proxy], true, preexisting)
      ensures o.Done? ==> NoContainer(w, i) && w.network != Some(Own(i))
      ensures (faultFree ==> o.Done?) && (OnlyThis(old(w), i) ==> OnlyThis(w, i))
      ensures met.None? ==> lawful == old(lawful)
      ensures met.Some? ==> met.value in history && MeetsOther(met.value, i)
    {
      o, met := DownService(i, Proxy, preexisting);
      if !o.Done? {
        return;
      }
      ghost var before, also := history, None;
      o, also := DownService(i, Api, preexisting);
      SeenStays(before, history, met);
      met := if met.Some? then met else also;
      if !o.Done? {
        return;
      }
      before := history;
      o, also := DownNetwork(i, preexisting);
      SeenStays(before, history, met);
      met := if met.Some? then met else also;
    }

    /** `compose down`, then the keys; `cleaned` only when both finished. */
    method ComposeCleanup(i: nat, preexisting: set<string>) returns (o: Outcome, ghost met: Option<World>)
      requires Valid() && Open(w, i) && Listed(w, i, [Api, Proxy], true, preexisting)
      modifies this`w, this`history, this`lawful
      ensures Valid() && old(history) <= history && (o.Raised? || o.Died?)
      ensures Open(w, i) || Gone(w, i)
      ensures faultFree && OnlyThis(old(w), i) ==> w.journal == Some(Attempt(i, Cleaned))
      ensures met.None? ==> lawful == old(lawful)
      ensures met.Some? ==> met.value in history && MeetsOther(met.value, i)
    {
      o, met := ComposeDown(i, preexisting);
      if o.Died? {
        return;
      }
      ghost var before := history;
      var errors := o.Raised?;
      if !errors {
        var died;
        died, errors := RemoveKeys(i, [Api, Proxy], true, preexisting);
        if died {
          o := Died;
          SeenStays(before, history, met);
          return;
        }
      }
      o := CloseAttempt(i, errors);
      SeenStays(before, history, met);
    }

    /** The part of the `try` block from `compose up` on; the network is verified after the start. */
    method ComposeTry(i: nat, ghost preexisting: set<string>)
        returns (o: Outcome, committed: bool, ghost met: Option<World>)
      requires Valid() && w.journal == Some(Attempt(i, Starting)) && Listed(w, i, [Api, Proxy], true, preexisting)
      modifies this`w, this`history, this`lawful
      ensures Valid() && old(history) <= history && (o.Done? || o.Raised? || o.Died?)
      ensures !committed ==> Open(w, i) && Listed(w, i, [Api, Proxy], true, preexisting)
      ensures o.Done? ==> committed && ComposeInstalled(w, i)
      ensures met.None? ==> lawful == old(lawful)
      ensures met.Some? ==> met.value in history && MeetsOther(met.value, i)
    {
      committed := false;
      o, met := ComposeUp(i, preexisting);
      if !o.Done? {
        return;
      }
      if w.network != Some(Own(i)) {
        o := Raised;
        return;
      }
      ghost var before := history;
      o, committed := Commit(i, [Api, Proxy], true, preexisting);
      SeenStays(before, history, met);
    }

    /**
     `ComposeInstaller.install`. Every step is lawful unless the project's labels are found on an object that is not
     this attempt's; `met` is the state in which one is.
     */
    method InstallCompose(retryMatches: bool) returns (o: Outcome, i: nat, ghost met: Option<World>)
      requires Valid()
      modifies this`w, this`history, this`lawful
      ensures Valid() && old(history) <= history && i == old(w).nextId
      ensures o.Refused? ==> w == old(w)
      ensures o.Done? ==> ComposeInstalled(w, i)
      ensures w.journal == Some(Attempt(i, Cleaned)) ==> Gone(w, i)
      ensures met.None? ==> lawful == old(lawful)
      ensures met.Some? ==> met.value in history && MeetsOther(met.value, i)
    {
      met := None;
      var preexisting, retry;
      o, i, preexisting, retry := Begin(retryMatches);
      if !o.Done? {
        return;
      }
      o := Early(w.(journal := Some(Attempt(i, Starting))), i, retry);
      if o.Raised? {
        o := Withdraw(i, retry);
      }
      if !o.Done? {
        return;
      }
      o, met := ComposeAttempt(i, preexisting);
    }

    /** From `compose up` on: the `try` block, and the `except` block that answers it. */
    method ComposeAttempt(i: nat, preexisting: set<string>) returns (o: Outcome, ghost met: Option<World>)
      requires Valid() && w.journal == Some(Attempt(i, Starting)) && Listed(w, i, [Api, Proxy], true, preexisting)
      modifies this`w, this`history, this`lawful
      ensures Valid() && old(history) <= history && !o.Refused? && (o.Done? ==> ComposeInstalled(w, i))
      ensures met.None? ==> lawful == old(lawful)
      ensures met.Some? ==> met.value in history && MeetsOther(met.value, i)
    {
      var committed;
      o, committed, met := ComposeTry(i, preexisting);
      if o.Raised? && !committed {
        ghost var before, also := history, None;
        o, also := ComposeCleanup(i, preexisting);
        SeenStays(before, history, met);
        met := if met.Some? then met else also;
      }
    }

    // ---- The hub installer --------------------------------------------------

    /** The hub container, under the Unraid profile; a name conflict raises. */
    method HubUp(i: nat, ghost preexisting: set<string>) returns (o: Outcome)
      requires Valid() && w.journal == Some(Attempt(i, Starting)) && Listed(w, i, [Hub], false, preexisting)
      modifies this`w, this`history
      ensures Valid() && old(history) <= history && (o.Done? || o.Raised? || o.Died?)
      ensures Open(w, i) && Listed(w, i, [Hub], false, preexisting) && (o.Done? ==> Holds(w, Hub, i))
    {
      if Hub in w.containers {
        return Raised;
      }
      o := Do(w.(containers := w.containers[Hub := Own(i)]), i, [Hub], false, preexisting);
      if o.Done? {
        o := Pass(i, [Hub], false, preexisting);
      }
    }

    /** `remove_container` by name: lawful only if the container is this attempt's. */
    method RemoveHub(i: nat, ghost preexisting: set<string>) returns (o: Outcome)
      requires Valid() && Open(w, i) && Listed(w, i, [Hub], false, preexisting) && Hub in w.containers
      modifies this`w, this`history, this`lawful
      ensures Valid() && old(history) <= history && (o.Done? || o.Raised? || o.Died?)
      ensures Open(w, i) && Listed(w, i, [Hub], false, preexisting) && (o.Done? ==> NoContainer(w, i))
      ensures old(w).containers[Hub] == Own(i) ==> lawful == old(lawful)
      ensures o.Done? ==> |old(history)| < |history| && LosesHubAt(history, |old(history)| - 1, old(w).containers[Hub])
      ensures (faultFree ==> o.Done?) && (OnlyThis(old(w), i) ==> OnlyThis(w, i))
    {
      if w.containers[Hub] != Own(i) {
        lawful := false;
      }
      o := Do(w.(containers := w.containers - {Hub}), i, [Hub], false, preexisting);
    }

    /** `inspect_container`, and `remove_container` if there is one. */
    method RemoveByName(i: nat, ghost preexisting: set<string>)
        returns (o: Outcome, ghost inspected: Option<Owner>, ghost removed: bool)
      requires Valid() && Open(w, i) && Listed(w, i, [Hub], false, preexisting)
      modifies this`w, this`history, this`lawful
      ensures Valid() && old(history) <= history && (o.Done? || o.Raised? || o.Died?)
      ensures Open(w, i) && Listed(w, i, [Hub], false, preexisting) && (o.Done? ==> NoContainer(w, i))
      ensures inspected in {None, Some(Own(i))} ==> lawful == old(lawful)
      ensures inspected.Some? && (removed || o.Done?) ==> LosesHub(history, |old(history)| - 1, inspected.value)
      ensures faultFree ==> o.Done?
      ensures faultFree && Hub in old(w).containers ==> inspected == Some(old(w).containers[Hub]) && removed
      ensures OnlyThis(old(w), i) ==> OnlyThis(w, i)
    {
      inspected, removed := None, false;
      o := Pass(i, [Hub], false, preexisting);
      if o.Done? && Hub in w.containers {
        inspected := Some(w.containers[Hub]);
        ghost var from, at := |old(history)| - 1, |history| - 1;
        o := RemoveHub(i, preexisting);
        removed := o.Done?;
        assert removed ==> from <= at < |history| - 1 && LosesHubAt(history, at, inspected.value);
      }
    }

    /** The container by its name, then the session keys. */
    method HubUndo(i: nat, preexisting: set<string>)
        returns (died: bool, errors: bool, ghost inspected: Option<Owner>, ghost removed: bool)
      requires Valid() && Open(w, i) && Listed(w, i, [Hub], false, preexisting)
      modifies this`w, this`history, this`lawful
      ensures Valid() && old(history) <= history && Open(w, i) && Listed(w, i, [Hub], false, preexisting)
      ensures !died && !errors ==> Gone(w, i)
      ensures inspected in {None, Some(Own(i))} ==> lawful == old(lawful)
      ensures inspected.Some? && (removed || (!died && !errors)) ==>
                LosesHub(history, |old(history)| - 1, inspected.value)
      ensures faultFree && Hub in old(w).containers ==> inspected == Some(old(w).containers[Hub]) && removed
      ensures faultFree && OnlyThis(old(w), i) ==> !died && !errors
    {
      var o;
      o, inspected, removed := RemoveByName(i, preexisting);
      died, errors := o.Died?, o.Raised?;
      ghost var undone, from := history, |old(history)| - 1;
      if o.Done? {
        died, errors := RemoveKeys(i, [Hub], false, preexisting);
        if inspected.Some? {
          LosesHubLonger(undone, from, history, from, inspected.value);
        }
      }
    }

    /**
     The hub's cleanup goes by the container's name; unlike the Unraid installer it does not look at labels.
     `inspected` is whose container the inspection showed, if any; `removed` says that the removal returned.
     */
    method HubCleanup(i: nat, started: bool, preexisting: set<string>)
        returns (o: Outcome, ghost inspected: Option<Owner>, ghost removed: bool)
      requires Valid() && Open(w, i) && Listed(w, i, [Hub], false, preexisting)
      requires !started ==> Gone(w, i)
      modifies this`w, this`history, this`lawful
      ensures Valid() && old(history) <= history && (o.Raised? || o.Died?)
      ensures !started ==> inspected == None
      ensures inspected in {None, Some(Own(i))} ==> lawful == old(lawful)
      ensures inspected.Some? && (removed || w.journal == Some(Attempt(i, Cleaned))) ==>
                LosesHub(history, |old(history)| - 1, inspected.value)
      ensures started && faultFree && Hub in old(w).containers ==> inspected == Some(old(w).containers[Hub]) && removed
      ensures faultFree && OnlyThis(old(w), i) ==> w.journal == Some(Attempt(i, Cleaned))
    {
      inspected, removed := None, false;
      var died, errors := false, false;
      if started {
        died, errors, inspected, removed := HubUndo(i, preexisting);
        if died {
          o := Died;
          return;
        }
      }
      ghost var undone, from := history, |old(history)| - 1;
      o := CloseAttempt(i, errors);
      if inspected.Some? && (removed || !errors) {
        LosesHubLonger(undone, from, history, from, inspected.value);
      }
    }

    /** `HubInstaller.install`. */
    method InstallHub(retryMatches: bool)
        returns (o: Outcome, i: nat, ghost inspected: Option<Owner>, ghost removed: bool)
      requires Valid()
      modifies this`w, this`history, this`lawful
      ensures Valid() && old(history) <= history && i == old(w).nextId
      ensures o.Refused? ==> w == old(w)
      ensures o.Done? ==> HubInstalled(w, i)
      ensures w.journal == Some(Attempt(i, Cleaned)) ==> Gone(w, i)
      ensures inspected in {None, Some(Own(i))} ==> lawful == old(lawful)
      ensures inspected.Some? ==> Hub !in old(w).containers
      ensures inspected.Some? && (removed || w.journal == Some(Attempt(i, Cleaned))) ==>
                LosesHub(history, |old(history)| - 1, inspected.value)
    {
      i := w.nextId;
      inspected, removed := None, false;
      if Hub in w.containers || w.committed.Some?
         || (w.journal.Some? && !(w.journal.value.status == Cleaned && retryMatches)) {
        return Refused, i, None, false;
      }
      o := Early(w.(journal := Some(Attempt(i, Prepared)), nextId := i + 1), i, None);
      if !o.Done? {
        return;
      }
      ghost var from := |history| - 1;
      o, inspected, removed := HubAttempt(i);
      if inspected.Some? && (removed || w.journal == Some(Attempt(i, Cleaned))) {
        LosesHubLonger(history, from, history, |old(history)| - 1, inspected.value);
      }
    }

    /** The `try` block and its `except` block. */
    method HubAttempt(i: nat) returns (o: Outcome, ghost inspected: Option<Owner>, ghost removed: bool)
      requires Valid() && w.journal == Some(Attempt(i, Prepared)) && Gone(w, i)
      modifies this`w, this`history, this`lawful
      ensures Valid() && old(history) <= history && !o.Refused? && (o.Done? ==> HubInstalled(w, i))
      ensures inspected in {None, Some(Own(i))} ==> lawful == old(lawful)
      ensures inspected.Some? && (removed || w.journal == Some(Attempt(i, Cleaned))) ==>
                LosesHub(history, |old(history)| - 1, inspected.value)
    {
      inspected, removed := None, false;
      var started, preexisting, committed;
      o, started, preexisting, committed := HubTry(i);
      if o.Raised? && !committed {
        ghost var from := |history| - 1;
        o, inspected, removed := HubCleanup(i, started, preexisting);
        if inspected.Some? && (removed || w.journal == Some(Attempt(i, Cleaned))) {
          LosesHubLonger(history, from, history, |old(history)| - 1, inspected.value);
        }
      }
    }

    /** `starting`, the image and the data directory; which session keys exist already. */
    method HubPrepare(i: nat) returns (o: Outcome, preexisting: set<string>)
      requires Valid() && w.journal == Some(Attempt(i, Prepared)) && Gone(w, i)
      modifies this`w, this`history
      ensures Valid() && old(history) <= history && (o.Done? || o.Raised? || o.Died?)
      ensures Open(w, i) && Gone(w, i) && Listed(w, i, [Hub], false, preexisting)
      ensures o.Done? ==> w.journal == Some(Attempt(i, Starting))
    {
      preexisting := {};
      o := Early(w.(journal := Some(Attempt(i, Starting))), i, None);
      if !o.Done? {
        return;
      }
      o := Early(w, i, None);
      preexisting := set k | k in w.keys && k in w.readers;
    }

    /** The `try` block; `started` says whether the container may exist. */
    method HubTry(i: nat) returns (o: Outcome, started: bool, preexisting: set<string>, committed: bool)
      requires Valid() && w.journal == Some(Attempt(i, Prepared)) && Gone(w, i)
      modifies this`w, this`history
      ensures Valid() && old(history) <= history && (o.Done? || o.Raised? || o.Died?)
      ensures !committed ==> Open(w, i) && Listed(w, i, [Hub], false, preexisting) && (!started ==> Gone(w, i))
      ensures o.Done? ==> committed && HubInstalled(w, i)
    {
      started, committed := false, false;
      o, preexisting := HubPrepare(i);
      if !o.Done? {
        return;
      }
      started := true;
      o := HubUp(i, preexisting);
      if !o.Done? {
        return;
      }
      o, committed := Commit(i, [Hub], false, preexisting);
    }
  }

  /** An object of the Compose installer's carries the project's labels and is not attempt i's. */
  predicate MeetsOther(w: World, i: nat) {
    || (exists r | r in {Api, Proxy} :: r in w.containers && w.containers[r] !in {Own(i), Foreign})
    || (w.network.Some? && w.network.value !in {Own(i), Foreign})
  }

  lemma SeenStays(before: seq<World>, after: seq<World>, met: Option<World>)
    requires before <= after && (met.Some? ==> met.value in before)
    ensures met.Some? ==> met.value in after
  {
    if met.Some? {
      var k :| 0 <= k < |before| && before[k] == met.value;
      assert after[k] == met.value;
    }
  }

  /** At some step from `from` on, the container under the hub's name, owned by `owner`, is gone. */
  ghost predicate LosesHub(h: seq<World>, from: int, owner: Owner) {
    exists j :: 0 <= from <= j < |h| - 1 && LosesHubAt(h, j, owner)
  }

  lemma LosesHubLonger(h: seq<World>, from: int, longer: seq<World>, start: int, owner: Owner)
    requires LosesHub(h, from, owner) && h <= longer && 0 <= start <= from
    ensures LosesHub(longer, start, owner)
  {
    var j :| 0 <= from <= j < |h| - 1 && LosesHubAt(h, j, owner);
    assert LosesHubAt(longer, j, owner);
  }

  predicate LosesHubAt(h: seq<World>, j: nat, owner: Owner)
    requires j + 1 < |h|
  {
    Hub in h[j].containers && h[j].containers[Hub] == owner && Hub !in h[j + 1].containers
  }

  ghost function OnDisk(h: seq<World>): set<set<Role>> {
    set w | w in h :: w.templates
  }

  /** The first two journal saves of an attempt. */
  lemma OpenAttempt(strict: bool, w: World) returns (h: seq<World>)
    requires Inv(w) && w.journal == None
    ensures Run(strict, h) && |h| == 3 && h[0] == w && Gone(h[2], w.nextId)
    ensures h[1] == w.(journal := Some(Attempt(w.nextId, Prepared)), nextId := w.nextId + 1)
    ensures h[2] == h[1].(journal := Some(Attempt(w.nextId, Starting)))
  {
    var prepared := w.(journal := Some(Attempt(w.nextId, Prepared)), nextId := w.nextId + 1);
    var starting := prepared.(journal := Some(Attempt(w.nextId, Starting)));
    Extend(strict, [w], prepared);
    Extend(strict, [w] + [prepared], starting);
    h := [w] + [prepared] + [starting];
  }

  /**
   A failed hub install removes somebody else's container: the name is free at the preflight, a foreign
   container takes it while the image is built, `create` raises on the conflict, and the cleanup removes by name.
   */
  lemma ForeignHubRemoved(w: World) returns (h: seq<World>)
    requires Inv(w) && Hub !in w.containers && w.committed == None && w.journal == None
    ensures Run(false, h) && TakenAway(w, h, Hub, Foreign)
    ensures LosesHub(h, 0, Foreign) && !Run(true, h)
  {
    h := TakeAway(w, Hub, Foreign);
    assert LosesHubAt(h, 3, Foreign);
    assert !LawfulAt(h, 3);
  }

  /**
   A failed Compose install removes somebody else's container of the same project: the name is free at the
   preflight, the container takes it while the image is built, `compose up` fails, and `compose down` removes it.
   */
  lemma SharedServiceRemoved(w: World, role: Role) returns (h: seq<World>)
    requires Inv(w) && role in {Api, Proxy} && Api !in w.containers && Proxy !in w.containers
    requires w.network == None && w.templates == {} && w.committed == None && w.journal == None
    ensures Run(false, h) && TakenAway(w, h, role, Shared)
    ensures MeetsOther(h[3], w.nextId) && !Run(true, h)
  {
    h := TakeAway(w, role, Shared);
    assert role in h[3].containers;
    assert !LawfulAt(h, 3);
  }

  /** The states of such a run: two journal saves, the taken name, the removal, and a `cleaned` journal. */
  predicate TakenAway(w: World, h: seq<World>, role: Role, owner: Owner) {
    && |h| == 6 && h[0] == w
    && h[1] == w.(journal := Some(Attempt(w.nextId, Prepared)), nextId := w.nextId + 1)
    && h[2] == h[1].(journal := Some(Attempt(w.nextId, Starting)))
    && h[3] == h[2].(containers := h[2].containers[role := owner]) && Grows(h[2], h[3])
    && h[4] == h[3].(containers := h[3].containers - {role})
    && h[5] == h[4].(journal := Some(Attempt(w.nextId, Cleaned)))
  }

  lemma TakeAway(w: World, role: Role, owner: Owner) returns (h: seq<World>)
    requires Inv(w) && role !in w.containers && w.journal == None && !owner.Own?
    ensures Run(false, h) && TakenAway(w, h, role, owner)
  {
    var g := OpenAttempt(false, w);
    var taken := g[2].(containers := g[2].containers[role := owner]);
    var removed := taken.(containers := taken.containers - {role});
    Extend(false, g, taken);
    Extend(false, g + [taken], removed);
    h := g + [taken] + [removed];
    Close(false, h, w.nextId);
    h := h + [removed.(journal := Some(Attempt(w.nextId, Cleaned)))];
  }

  /** The last journal save of a cleanup that removed everything. */
  lemma Close(strict: bool, h: seq<World>, i: nat)
    requires Run(strict, h) && Open(h[|h| - 1], i) && Gone(h[|h| - 1], i)
    ensures Run(strict, h + [h[|h| - 1].(journal := Some(Attempt(i, Cleaned)))])
  {
    Extend(strict, h, h[|h| - 1].(journal := Some(Attempt(i, Cleaned))));
  }

  lemma WithoutCopies(all: set<Role>, copied: set<Role>, stray: set<Role>)
    requires all == copied + stray && stray !! copied
    ensures all - copied == stray
  {
  }

  function Elements(roles: seq<Role>): set<Role> {
    set r | r in roles
  }

  /**
   A template outlives a `cleaned` journal: network and containers are made, the write of one template raises
   after its rename, so the template is on no list, and the whole cleanup then runs without a fault.
   */
  lemma StrayTemplateStays(w: World, role: Role) returns (h: seq<World>)
    requires Inv(w) && Api !in w.containers && Proxy !in w.containers && w.network == None
    requires w.templates == {} && w.committed == None && w.journal == None
    ensures Run(true, h) && |h| == 11 && h[0] == w
    ensures h[1] == w.(journal := Some(Attempt(w.nextId, Prepared)), nextId := w.nextId + 1)
    ensures h[2] == h[1].(journal := Some(Attempt(w.nextId, Starting)))
    ensures h[3] == h[2].(network := Some(Own(w.nextId)))
    ensures h[4] == h[3].(containers := h[3].containers[Api := Own(w.nextId)])
    ensures h[5] == h[4].(containers := h[4].containers[Proxy := Own(w.nextId)])
    ensures h[6] == h[5].(templates := {role})
    ensures h[7] == h[6].(containers := h[6].containers - {Proxy})
    ensures h[8] == h[7].(containers := h[7].containers - {Api})
    ensures h[9] == h[8].(network := None)
    ensures h[10] == h[9].(journal := Some(Attempt(w.nextId, Cleaned))) && h[10].templates == {role}
  {
    var g := OpenAttempt(true, w);
    var f := Create(g, w.nextId, role);
    var e := Withdrawn(f, w.nextId);
    Close(true, e, w.nextId);
    h := e + [e[9].(journal := Some(Attempt(w.nextId, Cleaned)))];
    assert forall k | 0 <= k < 7 :: h[k] == f[k];
  }

  /** Network, containers, and a template. */
  lemma Create(g: seq<World>, i: nat, role: Role) returns (h: seq<World>)
    requires Run(true, g) && g[|g| - 1].journal == Some(Attempt(i, Starting)) && Gone(g[|g| - 1], i)
    requires Api !in g[|g| - 1].containers && Proxy !in g[|g| - 1].containers && g[|g| - 1].network == None
    ensures Run(true, h) && g <= h && |h| == |g| + 4
    ensures h[|g|] == g[|g| - 1].(network := Some(Own(i)))
    ensures h[|g| + 1] == h[|g|].(containers := h[|g|].containers[Api := Own(i)])
    ensures h[|g| + 2] == h[|g| + 1].(containers := h[|g| + 1].containers[Proxy := Own(i)])
    ensures h[|g| + 3] == h[|g| + 2].(templates := {role})
  {
    var network := g[|g| - 1].(network := Some(Own(i)));
    var api := network.(containers := network.containers[Api := Own(i)]);
    var proxy := api.(containers := api.containers[Proxy := Own(i)]);
    var written := proxy.(templates := {role});
    Extend(true, g, network);
    Extend(true, g + [network], api);
    Extend(true, g + [network] + [api], proxy);
    Extend(true, g + [network] + [api] + [proxy], written);
    h := g + [network] + [api] + [proxy] + [written];
  }

  /** The reverse, by labels; the template is on no list. */
  lemma Withdrawn(g: seq<World>, i: nat) returns (h: seq<World>)
    requires Run(true, g) && Open(g[|g| - 1], i) && g[|g| - 1].network == Some(Own(i))
    requires Holds(g[|g| - 1], Api, i) && Holds(g[|g| - 1], Proxy, i)
    requires Listed(g[|g| - 1], i, [Api, Proxy], true, {}) && Keyless(g[|g| - 1], i)
    ensures Run(true, h) && g <= h && |h| == |g| + 3 && Gone(h[|g| + 2], i)
    ensures h[|g|] == g[|g| - 1].(containers := g[|g| - 1].containers - {Proxy})
    ensures h[|g| + 1] == h[|g|].(containers := h[|g|].containers - {Api})
    ensures h[|g| + 2] == h[|g| + 1].(network := None)
  {
    var f := RolesWithdrawn(g, i);
    Extend(true, f, f[|g| + 1].(network := None));
    h := f + [f[|g| + 1].(network := None)];
  }

  lemma RolesWithdrawn(g: seq<World>, i: nat) returns (h: seq<World>)
    requires Run(true, g) && Open(g[|g| - 1], i) && g[|g| - 1].network == Some(Own(i))
    requires Holds(g[|g| - 1], Api, i) && Holds(g[|g| - 1], Proxy, i)
    requires Listed(g[|g| - 1], i, [Api, Proxy], true, {}) && Keyless(g[|g| - 1], i)
    ensures Run(true, h) && g <= h && |h| == |g| + 2
    ensures h[|g|] == g[|g| - 1].(containers := g[|g| - 1].containers - {Proxy})
    ensures h[|g| + 1] == h[|g|].(containers := h[|g|].containers - {Api})
    ensures NoContainer(h[|g| + 1], i)
  {
    var noProxy := g[|g| - 1].(containers := g[|g| - 1].containers - {Proxy});
    var noApi := noProxy.(containers := noProxy.containers - {Api});
    Extend(true, g, noProxy);
    Extend(true, g + [noProxy], noApi);
    h := g + [noProxy] + [noApi];
  }

  /** No other attempt's container or network is about. */
  predicate OnlyThis(w: World, i: nat) {
    && (forall r | r in w.containers && w.containers[r].Own? :: w.containers[r] == Own(i))
    && (w.network.Some? && w.network.value.Own? ==> w.network == Some(Own(i)))
  }

  /** The network, if there is one, is an installer's. */
  predicate OwnNetwork(w: World) {
    w.network.Some? ==> w.network.value.Own?
  }

  /** The name holds a container of attempt i. */
  predicate Holds(w: World, r: Role, i: nat) {
    r in w.containers && w.containers[r] == Own(i)
  }

  /** Containers and network that exist stay as they are. */
  predicate Keeps(w: World, n: World) {
    && (forall r | r in w.containers :: r in n.containers && n.containers[r] == w.containers[r])
    && (w.network.Some? ==> n.network == w.network)
  }

  predicate ComposeInstalled(w: World, i: nat) {
    && Holds(w, Api, i) && Holds(w, Proxy, i) && w.network == Some(Own(i))
    && w.committed == Some(i) && w.journal == None
  }

  predicate HubInstalled(w: World, i: nat) {
    Holds(w, Hub, i) && w.committed == Some(i) && w.journal == None
  }

  /** Everything an Unraid install leaves behind when it succeeds. */
  predicate UnraidInstalled(w: World, i: nat) {
    && Holds(w, Api, i) && Holds(w, Proxy, i) && w.network == Some(Own(i))
    && Api in w.templates && Proxy in w.templates && w.committed == Some(i) && w.journal == None
  }

  /** The name holds nothing of attempt i. */
  predicate Removed(w: World, r: Role, i: nat) {
    r in w.containers ==> w.containers[r] != Own(i)
  }

  predicate Keyless(w: World, i: nat) {
    forall k | k in w.keys :: w.keys[k] != i
  }

  predicate NoContainer(w: World, i: nat) {
    forall r | r in w.containers :: w.containers[r] != Own(i)
  }

  lemma ListedKeeps(w: World, next: World, i: nat, roles: seq<Role>, network: bool, preexisting: set<string>)
    requires Listed(w, i, roles, network, preexisting) && Listed(next, i, roles, network, preexisting)
    requires Open(w, i) && Open(next, i)
    ensures forall n | Grows(w, n) || Grows(next, n) :: Open(n, i) && Listed(n, i, roles, network, preexisting)
  {
  }
}
