/**
 The batch endpoint (`_translate_paragraphs`): every planned group is either answered whole from the
 cache, under one provider and one contract, or translated whole; paragraph recovery is never stored.
 */
module Paragraphs {
  import opened Basics
  import opened Texts
  import opened WorkBudgets
  import G = Grouping
  import opened Translator
  import opened Scheduler
  import opened Provenance

  /** What the response says about one paragraph: its text, who served it, whether it was a hit, and its error. */
  datatype Slot = Slot(text: string, backend: string, cached: bool, errorCode: Option<string>, retryAfter: Option<nat>)

  const EMPTY_SLOT := Slot("", "", false, None, None)

  datatype Reply = Reply(slots: seq<Slot>) | BudgetExhausted(reason: string)

  function HitSlot(text: string): Slot {
    Slot(text, "cache", true, None, None)
  }

  function ItemSlot(item: Item): Slot {
    Slot(item.text, if item.provider == "" then "unknown" else item.provider, false, item.errorCode, item.retryAfter)
  }

  ghost predicate Proper(groups: seq<seq<nat>>, n: nat) {
    forall k | 0 <= k < |groups| :: groups[k] != [] && InRange(groups[k], n)
  }

  /** No group holds index i: a blank paragraph. */
  ghost predicate Unplanned(groups: seq<seq<nat>>, i: int) {
    forall k, j | 0 <= k < |groups| && 0 <= j < |groups[k]| :: groups[k][j] != i
  }

  ghost predicate NoRepeats(idxs: seq<nat>) {
    forall i, j | 0 <= i < j < |idxs| :: idxs[i] != idxs[j]
  }

  // ---- What a finished group looks like -------------------------------------

  /** All of the group's slots are hits of one provider under one of the two contracts that may answer it. */
  ghost predicate HitsShown(base: Base, evidence: seq<Evidence>, c: Config, s: Scope, all: seq<string>, idxs: seq<nat>,
                            slots: seq<Slot>, p: Provider, contract: Contract, hits: seq<string>)
    requires idxs != [] && InRange(idxs, |all|) && |slots| == |all|
  {
    && p in c.providers
    && (contract == BatchContract(c, all, idxs) || contract == SingleContract(c.source, c.target))
    && HitsFrom(base, evidence, c, s, contract, p, Pick(all, idxs), hits)
    && forall j | 0 <= j < |idxs| :: slots[idxs[j]] == HitSlot(hits[j])
  }

  ghost predicate Served(base: Base, evidence: seq<Evidence>, c: Config, s: Scope, all: seq<string>, idxs: seq<nat>,
                         slots: seq<Slot>)
    requires idxs != [] && InRange(idxs, |all|) && |slots| == |all|
  {
    exists p, contract, hits :: HitsShown(base, evidence, c, s, all, idxs, slots, p, contract, hits)
  }

  /** All of the group's slots are the items of one finished translation of exactly this group. */
  ghost predicate ItemsShown(c: Config, evidence: seq<Evidence>, all: seq<string>, idxs: seq<nat>, slots: seq<Slot>,
                             log: seq<Call>, items: seq<Item>)
    requires InRange(idxs, |all|) && |slots| == |all|
  {
    && |items| == |idxs| && GroupOutcome(c, log, all, idxs, items)
    && (forall call | call in log :: Evidence(c.source, c.target, call) in evidence)
    && forall j | 0 <= j < |idxs| :: slots[idxs[j]] == ItemSlot(items[j])
  }

  ghost predicate Refreshed(c: Config, evidence: seq<Evidence>, all: seq<string>, idxs: seq<nat>, slots: seq<Slot>)
    requires InRange(idxs, |all|) && |slots| == |all|
  {
    exists log, items :: ItemsShown(c, evidence, all, idxs, slots, log, items)
  }

  /** Later evidence and writes to other groups' slots do not unsettle a served group. */
  lemma ServedStays(base: Base, before: seq<Evidence>, after: seq<Evidence>, c: Config, s: Scope, all: seq<string>,
                    idxs: seq<nat>, was: seq<Slot>, now: seq<Slot>)
    requires idxs != [] && InRange(idxs, |all|) && |was| == |now| == |all| && before <= after
    requires Served(base, before, c, s, all, idxs, was)
    requires forall j | 0 <= j < |idxs| :: now[idxs[j]] == was[idxs[j]]
    ensures Served(base, after, c, s, all, idxs, now)
  {
    var p, contract, hits :| HitsShown(base, before, c, s, all, idxs, was, p, contract, hits);
    HitsStay(base, before, after, c, s, contract, p, Pick(all, idxs), hits);
    assert HitsShown(base, after, c, s, all, idxs, now, p, contract, hits);
  }

  lemma RefreshedStays(c: Config, evidence: seq<Evidence>, all: seq<string>, idxs: seq<nat>, was: seq<Slot>,
          now: seq<Slot>)
    requires InRange(idxs, |all|) && |was| == |now| == |all|
    requires Refreshed(c, evidence, all, idxs, was)
    requires forall j | 0 <= j < |idxs| :: now[idxs[j]] == was[idxs[j]]
    ensures Refreshed(c, evidence, all, idxs, now)
  {
    var log, items :| ItemsShown(c, evidence, all, idxs, was, log, items);
    assert ItemsShown(c, evidence, all, idxs, now, log, items);
  }

  // ---- The cache pass -------------------------------------------------------

  /** The group's own contract first, then the single contract; a hit fills every slot of the group. */
  method ServeGroup(server: Server, c: Config, s: Scope, all: seq<string>, idxs: seq<nat>, slots: array<Slot>)
      returns (hit: bool)
    requires server.Valid() && idxs != [] && InRange(idxs, |all|) && slots.Length == |all| && NoRepeats(idxs)
    modifies server, slots
    ensures server.Valid() && old(server.evidence) <= server.evidence
    ensures hit ==> Served(server.base, server.evidence, c, s, all, idxs, slots[..])
    ensures !hit ==> slots[..] == old(slots[..])
    ensures forall i | 0 <= i < |all| && i !in idxs :: slots[i] == old(slots[i])
  {
    var contract := BatchContract(c, all, idxs);
    var found := server.LookupGroup(c, s, contract, Pick(all, idxs));
    if found.None? {
      contract := SingleContract(c.source, c.target);
      found := server.LookupGroup(c, s, contract, Pick(all, idxs));
    }
    if found.None? {
      return false;
    }
    FillHits(idxs, found.value.1, slots);
    assert HitsShown(server.base, server.evidence, c, s, all, idxs, slots[..], found.value.0, contract, found.value.1);
    return true;
  }

  method FillHits(idxs: seq<nat>, hits: seq<string>, slots: array<Slot>)
    requires |hits| == |idxs| && InRange(idxs, slots.Length) && NoRepeats(idxs)
    modifies slots
    ensures forall j | 0 <= j < |idxs| :: slots[idxs[j]] == HitSlot(hits[j])
    ensures forall i | 0 <= i < slots.Length && i !in idxs :: slots[i] == old(slots[i])
  {
    for j := 0 to |idxs|
      invariant forall m | 0 <= m < j :: slots[idxs[m]] == HitSlot(hits[m])
      invariant forall i | 0 <= i < slots.Length && i !in idxs :: slots[i] == old(slots[i])
    {
      slots[idxs[j]] := HitSlot(hits[j]);
    }
  }

  /** Every group in `groups[..n]` is still missing or served. */
  ghost predicate Looked(base: Base, evidence: seq<Evidence>, c: Config, s: Scope, all: seq<string>,
                         groups: seq<seq<nat>>, n: nat, missing: seq<seq<nat>>, slots: seq<Slot>)
    requires Proper(groups, |all|) && |slots| == |all|
  {
    && n <= |groups|
    && G.Subsequence(missing, groups[..n])
    && (forall k | 0 <= k < n :: groups[k] in missing || Served(base, evidence, c, s, all, groups[k], slots))
    && (forall i | 0 <= i < |all| && Unplanned(groups, i) :: slots[i] == EMPTY_SLOT)
  }

  lemma LookedOn(base: Base, before: seq<Evidence>, after: seq<Evidence>, c: Config, s: Scope, all: seq<string>,
                 groups: seq<seq<nat>>, n: nat, missing: seq<seq<nat>>, was: seq<Slot>, now: seq<Slot>, hit: bool)
    requires Proper(groups, |all|) && G.Disjoint(groups) && |was| == |now| == |all| && n < |groups| && before <= after
    requires Looked(base, before, c, s, all, groups, n, missing, was)
    requires forall i | 0 <= i < |all| && i !in groups[n] :: now[i] == was[i]
    requires hit ==> Served(base, after, c, s, all, groups[n], now)
    ensures Looked(base, after, c, s, all, groups, n + 1, if hit then missing else missing + [groups[n]], now)
  {
    var more := if hit then missing else missing + [groups[n]];
    assert groups[..n + 1] == groups[..n] + [groups[n]];
    if hit {
      G.SubsequenceSkip(missing, groups[..n], groups[n]);
    } else {
      G.SubsequenceTake(missing, groups[..n], groups[n]);
    }
    forall k | 0 <= k < n + 1 ensures groups[k] in more || Served(base, after, c, s, all, groups[k], now) {
      if k < n && groups[k] !in missing {
        OtherSlotsKept(groups, n, k, was, now);
        ServedStays(base, before, after, c, s, all, groups[k], was, now);
      } else if k == n && !hit {
        assert more[|missing|] == groups[n];
      }
    }
    forall i | 0 <= i < |all| && Unplanned(groups, i) ensures now[i] == EMPTY_SLOT {
      assert i !in groups[n];
    }
  }

  /** Writing one group's slots leaves the slots of every other group alone. */
  lemma OtherSlotsKept(groups: seq<seq<nat>>, n: nat, k: nat, was: seq<Slot>, now: seq<Slot>)
    requires n < |groups| && k < |groups| && k != n && G.Disjoint(groups) && |was| == |now|
    requires InRange(groups[k], |was|)
    requires forall i | 0 <= i < |was| && i !in groups[n] :: now[i] == was[i]
    ensures forall j | 0 <= j < |groups[k]| :: now[groups[k][j]] == was[groups[k][j]]
  {
    forall j | 0 <= j < |groups[k]| ensures now[groups[k][j]] == was[groups[k][j]] {
      assert forall m | 0 <= m < |groups[n]| :: groups[n][m] != groups[k][j];
      assert groups[k][j] !in groups[n];
    }
  }

  lemma GroupHasNoRepeats(groups: seq<seq<nat>>, k: nat)
    requires k < |groups| && G.Disjoint(groups)
    ensures NoRepeats(groups[k])
  {
  }

  method LookupAll(server: Server, c: Config, s: Scope, all: seq<string>, groups: seq<seq<nat>>, slots: array<Slot>)
      returns (missing: seq<seq<nat>>)
    requires server.Valid() && slots.Length == |all| && G.Disjoint(groups) && Proper(groups, |all|)
    requires forall i | 0 <= i < |all| :: slots[i] == EMPTY_SLOT
    modifies server, slots
    ensures server.Valid() && old(server.evidence) <= server.evidence
    ensures Looked(server.base, server.evidence, c, s, all, groups, |groups|, missing, slots[..])
  {
    missing := [];
    for n := 0 to |groups|
      invariant server.Valid() && old(server.evidence) <= server.evidence
      invariant Looked(server.base, server.evidence, c, s, all, groups, n, missing, slots[..])
    {
      ghost var before, was := server.evidence, slots[..];
      GroupHasNoRepeats(groups, n);
      var hit := ServeGroup(server, c, s, all, groups[n], slots);
      LookedOn(server.base, before, server.evidence, c, s, all, groups, n, missing, was, slots[..], hit);
      if !hit {
        missing := missing + [groups[n]];
      }
    }
  }

  // ---- The refresh pass -----------------------------------------------------

  /** What the server stores for one item: nothing for an error marker or an item that may not be cached. */
  function Entry(c: Config, s: Scope, b: Backends, contract: Contract, text: string, item: Item): seq<(Key, string)> {
    if "[TRANSLATION ERROR:" <= item.text || !item.cacheable then []
    else [(KeyFor(c, s, contract, Provider(item.provider, b.ModelFor(item.provider)), text), item.text)]
  }

  function Entries(c: Config, s: Scope, b: Backends, contract: Contract, texts: seq<string>, items: seq<Item>)
      : seq<(Key, string)>
    requires |texts| == |items|
  {
    if items == [] then []
    else Entries(c, s, b, contract, texts[..|texts| - 1], items[..|items| - 1])
         + Entry(c, s, b, contract, texts[|texts| - 1], items[|items| - 1])
  }

  lemma EntriesPrefix(c: Config, s: Scope, b: Backends, contract: Contract, texts: seq<string>, items: seq<Item>, n: nat)
    requires |texts| == |items| && n < |items|
    ensures Entries(c, s, b, contract, texts[..n + 1], items[..n + 1])
            == Entries(c, s, b, contract, texts[..n], items[..n]) + Entry(c, s, b, contract, texts[n], items[n])
  {
    assert texts[..n + 1][..n] == texts[..n] && items[..n + 1][..n] == items[..n];
  }

  /** `entry` stores one of these items, and that item is no recovery and no error. */
  ghost predicate CleanEntry(texts: seq<string>, items: seq<Item>, entry: (Key, string))
    requires |texts| == |items|
  {
    exists j: nat :: j < |items| && StoresItem(texts[j], items[j], entry)
  }

  predicate StoresItem(text: string, item: Item, entry: (Key, string)) {
    && item.cacheable && item.errorCode == None && item.path in {Direct, EnvelopeRetry}
    && entry.1 == item.text && entry.0.provider == item.provider && entry.0.text == Strip(text)
  }

  /** Only clean items are ever stored: nothing a paragraph recovery produced, and no error marker. */
  lemma {:induction false} RecoveryNeverStored(c: Config, s: Scope, b: Backends, contract: Contract,
                                               texts: seq<string>, items: seq<Item>, entry: (Key, string))
    requires |texts| == |items| && entry in Entries(c, s, b, contract, texts, items)
    requires forall j | 0 <= j < |items| && items[j].cacheable :: Clean(c, items[j])
    ensures CleanEntry(texts, items, entry)
  {
    var n := |items| - 1;
    if entry in Entries(c, s, b, contract, texts[..n], items[..n]) {
      RecoveryNeverStored(c, s, b, contract, texts[..n], items[..n], entry);
      var j: nat :| j < n && StoresItem(texts[..n][j], items[..n][j], entry);
      assert StoresItem(texts[j], items[j], entry);
    } else {
      assert StoresItem(texts[n], items[n], entry);
    }
  }

  lemma CacheableIsClean(c: Config, log: seq<Call>, all: seq<string>, idxs: seq<nat>, items: seq<Item>, j: nat)
    requires InRange(idxs, |all|) && GroupOutcome(c, log, all, idxs, items) && |items| == |idxs| && j < |idxs|
    requires items[j].cacheable
    ensures Clean(c, items[j])
  {
    if TakesSinglePath(c, |idxs|) && AloneOutcome(c, log, Pick(all, idxs), items) {
      assert j == 0;
    }
  }

  ghost predicate AllJustified(base: Base, evidence: seq<Evidence>, writes: seq<(Key, string)>) {
    forall i | 0 <= i < |writes| :: Justified(base, evidence, writes[i].0, writes[i].1)
  }

  /** An item that may be cached is backed by a call, under the key the server stores it with. */
  ghost predicate Backed(base: Base, c: Config, s: Scope, contract: Contract, text: string, item: Item,
                         evidence: seq<Evidence>) {
    item.cacheable ==>
      Justified(base, evidence, KeyFor(c, s, contract, Recorded(base, item.provider), text),
        item.text)
  }

  lemma {:induction false} EntriesJustified(base: Base, c: Config, s: Scope, contract: Contract,
                                            texts: seq<string>, items: seq<Item>, evidence: seq<Evidence>)
    requires |texts| == |items|
    requires forall j | 0 <= j < |items| :: Backed(base, c, s, contract, texts[j], items[j], evidence)
    ensures AllJustified(base, evidence, Entries(c, s, base.backends, contract, texts, items))
  {
    if items != [] {
      var n := |items| - 1;
      EntriesJustified(base, c, s, contract, texts[..n], items[..n], evidence);
      assert Backed(base, c, s, contract, texts[n], items[n], evidence);
    }
  }

  /** Every entry the server writes for a finished group is backed by a call of that group. */
  lemma GroupEntriesJustified(base: Base, c: Config, s: Scope, all: seq<string>, idxs: seq<nat>,
                              log: seq<Call>, items: seq<Item>, evidence: seq<Evidence>)
    requires SameServer(base, c) && idxs != [] && InRange(idxs, |all|) && |items| == |idxs|
    requires GroupOutcome(c, log, all, idxs, items)
    requires forall call | call in log :: Evidence(c.source, c.target, call) in evidence
    ensures AllJustified(base, evidence, Entries(c, s, base.backends, BatchContract(c, all, idxs), Pick(all, idxs), items))
  {
    var contract, texts := BatchContract(c, all, idxs), Pick(all, idxs);
    forall j | 0 <= j < |items| ensures Backed(base, c, s, contract, texts[j], items[j], evidence) {
      if items[j].cacheable {
        CacheableIsJustified(base, c, s, Recorded(base, items[j].provider), all, idxs, log, items, evidence, j);
      }
    }
    EntriesJustified(base, c, s, contract, texts, items, evidence);
  }

  /** The refresh of one group's slots. */
  method ShowGroup(idxs: seq<nat>, results: seq<Item>, slots: array<Slot>)
    requires InRange(idxs, |results|) && slots.Length == |results| && NoRepeats(idxs)
    modifies slots
    ensures forall j | 0 <= j < |idxs| :: slots[idxs[j]] == ItemSlot(results[idxs[j]])
    ensures forall i | 0 <= i < slots.Length && i !in idxs :: slots[i] == old(slots[i])
  {
    for j := 0 to |idxs|
      invariant forall m | 0 <= m < j :: slots[idxs[m]] == ItemSlot(results[idxs[m]])
      invariant forall i | 0 <= i < slots.Length && i !in idxs :: slots[i] == old(slots[i])
    {
      slots[idxs[j]] := ItemSlot(results[idxs[j]]);
    }
  }

  /** The cache entries of one group. */
  method GroupEntries(b: Backends, c: Config, s: Scope, contract: Contract, all: seq<string>, idxs: seq<nat>,
                      results: seq<Item>) returns (writes: seq<(Key, string)>)
    requires InRange(idxs, |all|) && |results| == |all|
    ensures writes == Entries(c, s, b, contract, Pick(all, idxs), Pick(results, idxs))
  {
    ghost var texts, items := Pick(all, idxs), Pick(results, idxs);
    writes := [];
    for j := 0 to |idxs|
      invariant writes == Entries(c, s, b, contract, texts[..j], items[..j])
    {
      EntriesPrefix(c, s, b, contract, texts, items, j);
      writes := writes + Entry(c, s, b, contract, all[idxs[j]], results[idxs[j]]);
    }
    assert texts[..|idxs|] == texts && items[..|idxs|] == items;
  }

  /** What the batch scheduler returned for the missing groups, with every call behind it on record. */
  ghost predicate Translated(c: Config, evidence: seq<Evidence>, all: seq<string>, missing: seq<seq<nat>>,
                             results: seq<Item>) {
    && |results| == |all| && Proper(missing, |all|) && G.Disjoint(missing)
    && forall m | 0 <= m < |missing| :: GroupBacked(c, evidence, all, missing[m], results)
  }

  ghost predicate GroupBacked(c: Config, evidence: seq<Evidence>, all: seq<string>, idxs: seq<nat>, results: seq<Item>)
    requires InRange(idxs, |all|) && |results| == |all|
  {
    exists log :: GroupOutcome(c, log, all, idxs, Pick(results, idxs))
      && forall call | call in log :: Evidence(c.source, c.target, call) in evidence
  }

  /** Every entry comes from a clean item of some paragraph. */
  ghost predicate AllClean(all: seq<string>, results: seq<Item>, writes: seq<(Key, string)>)
    requires |results| == |all|
  {
    forall w | w in writes :: CleanEntry(all, results, w)
  }

  lemma GroupEntriesClean(b: Backends, c: Config, s: Scope, all: seq<string>, idxs: seq<nat>, log: seq<Call>,
                          results: seq<Item>)
    requires idxs != [] && InRange(idxs, |all|) && |results| == |all|
    requires GroupOutcome(c, log, all, idxs, Pick(results, idxs))
    ensures AllClean(all, results, Entries(c, s, b, BatchContract(c, all, idxs), Pick(all, idxs), Pick(results,
             idxs)))
  {
    var contract, texts, items := BatchContract(c, all, idxs), Pick(all, idxs), Pick(results, idxs);
    forall j | 0 <= j < |items| && items[j].cacheable ensures Clean(c, items[j]) {
      CacheableIsClean(c, log, all, idxs, items, j);
    }
    forall w | w in Entries(c, s, b, contract, texts, items) ensures CleanEntry(all, results, w) {
      RecoveryNeverStored(c, s, b, contract, texts, items, w);
      var j: nat :| j < |items| && StoresItem(texts[j], items[j], w);
      assert StoresItem(all[idxs[j]], results[idxs[j]], w);
    }
  }

  /** Refreshing one group shows its items and adds entries that are clean and backed by its calls. */
  lemma RefreshGroupHolds(base: Base, c: Config, s: Scope, all: seq<string>, idxs: seq<nat>,
                          results: seq<Item>, evidence: seq<Evidence>, slots: seq<Slot>)
    requires SameServer(base, c) && idxs != [] && InRange(idxs, |all|) && |results| == |slots| == |all|
    requires GroupBacked(c, evidence, all, idxs, results)
    requires forall j | 0 <= j < |idxs| :: slots[idxs[j]] == ItemSlot(results[idxs[j]])
    ensures var writes := Entries(c, s, base.backends, BatchContract(c, all, idxs), Pick(all, idxs), Pick(results, idxs));
            AllJustified(base, evidence, writes) && AllClean(all, results, writes)
    ensures Refreshed(c, evidence, all, idxs, slots)
  {
    var items := Pick(results, idxs);
    var log :| GroupOutcome(c, log, all, idxs, items)
      && forall call | call in log :: Evidence(c.source, c.target, call) in evidence;
    GroupEntriesJustified(base, c, s, all, idxs, log, items, evidence);
    GroupEntriesClean(base.backends, c, s, all, idxs, log, results);
    assert ItemsShown(c, evidence, all, idxs, slots, log, items);
  }

  /** The first n missing groups are refreshed; the slots outside the missing groups are as they were. */
  ghost predicate RefreshedUpTo(c: Config, evidence: seq<Evidence>, all: seq<string>, missing: seq<seq<nat>>, n: nat,
                                start: seq<Slot>, slots: seq<Slot>)
    requires Proper(missing, |all|) && |start| == |slots| == |all|
  {
    && n <= |missing|
    && (forall m | 0 <= m < n :: Refreshed(c, evidence, all, missing[m], slots))
    && (forall i | 0 <= i < |all| && Unplanned(missing, i) :: slots[i] == start[i])
  }

  lemma RefreshStep(c: Config, evidence: seq<Evidence>, all: seq<string>, missing: seq<seq<nat>>, n: nat,
                    start: seq<Slot>, was: seq<Slot>, now: seq<Slot>)
    requires Proper(missing, |all|) && G.Disjoint(missing) && |start| == |was| == |now| == |all| && n < |missing|
    requires RefreshedUpTo(c, evidence, all, missing, n, start, was)
    requires forall i | 0 <= i < |all| && i !in missing[n] :: now[i] == was[i]
    requires Refreshed(c, evidence, all, missing[n], now)
    ensures RefreshedUpTo(c, evidence, all, missing, n + 1, start, now)
  {
    forall m | 0 <= m < n ensures Refreshed(c, evidence, all, missing[m], now) {
      OtherSlotsKept(missing, n, m, was, now);
      RefreshedStays(c, evidence, all, missing[m], was, now);
    }
    forall i | 0 <= i < |all| && Unplanned(missing, i) ensures now[i] == start[i] {
      assert i !in missing[n];
    }
  }

  /** Every entry is justified and comes from a clean item. */
  ghost predicate Storable(base: Base, evidence: seq<Evidence>, all: seq<string>, results: seq<Item>,
                           writes: seq<(Key, string)>)
    requires |results| == |all|
  {
    AllJustified(base, evidence, writes) && AllClean(all, results, writes)
  }

  lemma StorableJoin(base: Base, evidence: seq<Evidence>, all: seq<string>, results: seq<Item>,
                     a: seq<(Key, string)>, b: seq<(Key, string)>)
    requires |results| == |all|
    requires Storable(base, evidence, all, results, a) && Storable(base, evidence, all, results, b)
    ensures Storable(base, evidence, all, results, a + b)
  {
  }

  method RefreshAll(server: Server, c: Config, s: Scope, all: seq<string>, missing: seq<seq<nat>>, results: seq<Item>,
                    slots: array<Slot>) returns (writes: seq<(Key, string)>)
    requires SameServer(server.base, c) && slots.Length == |all|
    requires Translated(c, server.evidence, all, missing, results)
    modifies slots
    ensures RefreshedUpTo(c, server.evidence, all, missing, |missing|, old(slots[..]), slots[..])
    ensures Storable(server.base, server.evidence, all, results, writes)
  {
    writes := [];
    for m := 0 to |missing|
      invariant RefreshedUpTo(c, server.evidence, all, missing, m, old(slots[..]), slots[..])
      invariant Storable(server.base, server.evidence, all, results, writes)
    {
      ghost var was := slots[..];
      GroupHasNoRepeats(missing, m);
      var contract := BatchContract(c, all, missing[m]);
      ShowGroup(missing[m], results, slots);
      var more := GroupEntries(server.base.backends, c, s, contract, all, missing[m], results);
      RefreshGroupHolds(server.base, c, s, all, missing[m], results, server.evidence, slots[..]);
      RefreshStep(c, server.evidence, all, missing, m, old(slots[..]), was, slots[..]);
      StorableJoin(server.base, server.evidence, all, results, writes, more);
      writes := writes + more;
    }
  }

  // ---- The endpoint ---------------------------------------------------------

  /** Every group is wholly a cache answer of one scope, or wholly one fresh translation; blanks stay empty. */
  ghost predicate Answered(base: Base, evidence: seq<Evidence>, c: Config, s: Scope, all: seq<string>,
                           groups: seq<seq<nat>>, slots: seq<Slot>) {
    && Proper(groups, |all|) && |slots| == |all|
    && (forall k | 0 <= k < |groups| ::
          Served(base, evidence, c, s, all, groups[k], slots) || Refreshed(c, evidence, all, groups[k], slots))
    && (forall i | 0 <= i < |all| && Unplanned(groups, i) :: slots[i] == EMPTY_SLOT)
  }

  /** A group that is not missing shares no index with the missing ones. */
  lemma ServedIsApart(groups: seq<seq<nat>>, missing: seq<seq<nat>>, k: nat, j: nat)
    requires G.Disjoint(groups) && k < |groups| && j < |groups[k]| && groups[k] !in missing
    requires forall g | g in missing :: g in groups
    ensures Unplanned(missing, groups[k][j])
  {
    forall m, i | 0 <= m < |missing| && 0 <= i < |missing[m]| ensures missing[m][i] != groups[k][j] {
      assert missing[m] in missing;
      var l :| 0 <= l < |groups| && groups[l] == missing[m];
      assert l != k;
      assert groups[l][i] == missing[m][i];
    }
  }

  lemma BothPasses(base: Base, before: seq<Evidence>, after: seq<Evidence>, c: Config, s: Scope, all: seq<string>,
                   groups: seq<seq<nat>>, missing: seq<seq<nat>>, was: seq<Slot>, now: seq<Slot>)
    requires Proper(groups, |all|) && Proper(missing, |all|) && G.Disjoint(groups) && |was| == |now| == |all|
    requires before <= after && forall g | g in missing :: g in groups
    requires Looked(base, before, c, s, all, groups, |groups|, missing, was)
    requires RefreshedUpTo(c, after, all, missing, |missing|, was, now)
    ensures Answered(base, after, c, s, all, groups, now)
  {
    forall k | 0 <= k < |groups|
      ensures Served(base, after, c, s, all, groups[k], now) || Refreshed(c, after, all, groups[k], now)
    {
      if groups[k] in missing {
        var m :| 0 <= m < |missing| && missing[m] == groups[k];
      } else {
        forall j | 0 <= j < |groups[k]| ensures now[groups[k][j]] == was[groups[k][j]] {
          ServedIsApart(groups, missing, k, j);
        }
        ServedStays(base, before, after, c, s, all, groups[k], was, now);
      }
    }
    forall i | 0 <= i < |all| && Unplanned(groups, i) ensures now[i] == EMPTY_SLOT {
      forall m, j | 0 <= m < |missing| && 0 <= j < |missing[m]| ensures missing[m][j] != i {
        assert missing[m] in missing;
        var l :| 0 <= l < |groups| && groups[l] == missing[m];
      }
    }
  }

  /** The scheduler's result carries the calls of every selected group. */
  lemma ScheduledIsTranslated(c: Config, evidence: seq<Evidence>, before: seq<Evidence>, all: seq<string>,
                              missing: seq<seq<nat>>, produced: seq<seq<Item>>, logs: seq<seq<Call>>, results: seq<Item>)
    requires Proper(missing, |all|) && G.Disjoint(missing)
    requires Assembled(|all|, missing, produced, results) && |logs| == |missing|
    requires forall k | 0 <= k < |missing| :: GroupOutcome(c, logs[k], all, missing[k], produced[k])
    requires evidence == before + AllEvidence(c, logs)
    ensures Translated(c, evidence, all, missing, results)
  {
    forall m | 0 <= m < |missing| ensures GroupBacked(c, evidence, all, missing[m], results) {
      assert Pick(results, missing[m]) == produced[m];
      forall call | call in logs[m] ensures Evidence(c.source, c.target, call) in evidence {
        LogIsEvidence(c, logs, m, call);
      }
    }
  }

  /** The groups the request is planned into. */
  ghost predicate Planned(all: seq<string>, b: G.Bounds, groups: seq<seq<nat>>) {
    b.Legal() && G.Split(b, G.Work(all, |all|), groups) && G.Saturated(b, groups)
  }

  /** The scheduler run for the missing groups, and the calls it puts on record. */
  method ScheduleMissing(server: Server, c: Config, all: seq<string>, size: int, tokenBudget: int, est: string -> nat,
                         maxConcurrent: int, budget: WorkBudget, missing: seq<seq<nat>>, ghost b: G.Bounds)
      returns (batch: BatchResult)
    requires server.Valid() && budget.Valid() && b.Legal() && b == G.Bounds(size, tokenBudget, G.Costs(all, est))
    requires missing != [] && G.AcceptsSelection(all, b, missing) && Proper(missing, |all|) && G.Disjoint(missing)
    modifies server, budget
    ensures server.Valid() && old(server.evidence) <= server.evidence
    ensures batch.Exhausted? ==> budget.cancelReason.Some?
    ensures !batch.Exhausted? ==> batch.Results? && Translated(c, server.evidence, all, missing, batch.items)
  {
    var result, _, produced, logs := TranslateBatch(c, all, size, tokenBudget, est, maxConcurrent, budget, Some(missing));
    batch := result;
    if batch.Results? {
      server.Interleave();
      ghost var before := server.evidence;
      server.Witness(AllEvidence(c, logs));
      ScheduledIsTranslated(c, server.evidence, before, all, missing, produced, logs, batch.items);
    }
  }

  /** The refresh of the missing groups and the one cache transaction after it. */
  method RefreshMissing(server: Server, c: Config, s: Scope, all: seq<string>, size: int, tokenBudget: int,
                        est: string -> nat, maxConcurrent: int, budget: WorkBudget, missing: seq<seq<nat>>,
                        slots: array<Slot>, ghost b: G.Bounds)
      returns (exhausted: Option<string>, ghost results: seq<Item>, ghost stored: seq<(Key, string)>)
    requires server.Valid() && budget.Valid() && SameServer(server.base, c) && b.Legal()
    requires b == G.Bounds(size, tokenBudget, G.Costs(all, est)) && slots.Length == |all|
    requires missing != [] && G.AcceptsSelection(all, b, missing) && Proper(missing, |all|) && G.Disjoint(missing)
    modifies server, budget, slots
    ensures server.Valid() && old(server.evidence) <= server.evidence
    ensures exhausted.None? ==> RefreshedUpTo(c, server.evidence, all, missing, |missing|, old(slots[..]), slots[..])
    ensures |results| == |all| && AllClean(all, results, stored)
    ensures exhausted.Some? ==> budget.cancelReason.Some? && stored == []
  {
    var batch := ScheduleMissing(server, c, all, size, tokenBudget, est, maxConcurrent, budget, missing, b);
    if batch.Exhausted? {
      return Some(batch.reason), seq(|all|, _ => EMPTY_ITEM), [];
    }
    var writes := RefreshAll(server, c, s, all, missing, batch.items, slots);
    server.PutMany(writes);
    return None, batch.items, writes;
  }

  /**
   `_translate_paragraphs`. `stored` is what its one cache transaction writes; the scheduler's
   ValueError on bad selections cannot be raised.
   */
  method TranslateParagraphs(server: Server, c: Config, s: Scope, allowFallback: bool, all: seq<string>, size: int,
                             tokenBudget: int, est: string -> nat, maxConcurrent: int, budget: WorkBudget)
      returns (r: Reply, ghost groups: seq<seq<nat>>, ghost results: seq<Item>, ghost stored: seq<(Key, string)>)
    requires server.Valid() && budget.Valid() && SameServer(server.base, c) && size > 0 && tokenBudget >= 0
    requires c.providers == server.base.backends.Eligible(allowFallback)
    modifies server, budget
    ensures server.Valid() && old(server.evidence) <= server.evidence
    ensures Planned(all, G.Bounds(size, tokenBudget, G.Costs(all, est)), groups)
    ensures r.Reply? ==> Answered(server.base, server.evidence, c, s, all, groups, r.slots)
    ensures |results| == |all| && AllClean(all, results, stored)
    ensures r.BudgetExhausted? ==> budget.cancelReason.Some? && stored == []
  {
    var slots := new Slot[|all|](_ => EMPTY_SLOT);
    var plan := G.TranslationGroups(all, size, tokenBudget, est);
    ghost var b := G.Bounds(size, tokenBudget, G.Costs(all, est));
    groups, stored, results := plan.value, [], seq(|all|, _ => EMPTY_ITEM);
    PlannedIsProper(all, b, groups);
    var missing := LookupAll(server, c, s, all, plan.value, slots);
    MissingIsAccepted(all, b, groups, missing);
    ghost var looked, was := server.evidence, slots[..];
    if missing != [] {
      var exhausted;
      exhausted, results, stored :=
        RefreshMissing(server, c, s, all, size, tokenBudget, est, maxConcurrent, budget, missing, slots, b);
      if exhausted.Some? {
        return BudgetExhausted(exhausted.value), groups, results, stored;
      }
    }
    BothPasses(server.base, looked, server.evidence, c, s, all, groups, missing, was, slots[..]);
    r := Reply(slots[..]);
  }

  /** Whatever the cache pass leaves over passes the scheduler's selection check. */
  lemma MissingIsAccepted(all: seq<string>, b: G.Bounds, groups: seq<seq<nat>>, missing: seq<seq<nat>>)
    requires Planned(all, b, groups) && G.Subsequence(missing, groups[..|groups|])
    ensures G.AcceptsSelection(all, b, missing) && Proper(missing, |all|) && G.Disjoint(missing)
    ensures forall g | g in missing :: g in groups
  {
    assert groups[..|groups|] == groups;
    G.SubsequenceOrdered(missing, groups);
    G.SubsequenceAccepted(all, b, groups, missing);
    SelectionIsDisjoint(all, b, missing);
  }

  lemma PlannedIsProper(all: seq<string>, b: G.Bounds, groups: seq<seq<nat>>)
    requires G.Split(b, G.Work(all, |all|), groups)
    ensures Proper(groups, |all|) && G.Disjoint(groups)
  {
    PlanIsDisjoint(groups, G.Work(all, |all|), |all|);
    forall k | 0 <= k < |groups| ensures groups[k] != [] {
      assert G.Fits(b, groups[k]);
    }
  }
}
