/**
 The bounded-window batch scheduler (`translate_batch_detailed`): groups run concurrently, finish in
 any order, and write their own slots of the result.
 */
module Scheduler {
  import opened Basics
  import opened Texts
  import opened WorkBudgets
  import G = Grouping
  import opened Translator

  datatype BatchResult =
    | Results(items: seq<Item>)
    | ValueError
    | Exhausted(reason: string)

  datatype GroupDone = Finished(items: seq<Item>) | Raised(reason: string)

  const EMPTY_ITEM := Item("", "", false, Empty, None, None)

  /** Where index i sits among the groups, if it was selected. */
  ghost predicate At(groups: seq<seq<nat>>, i: int, k: int, j: int) {
    0 <= k < |groups| && 0 <= j < |groups[k]| && groups[k][j] == i
  }

  /**
   The result depends only on what each group produced, not on the order in which groups finished:
   slot i holds item j of group k exactly when i is the j-th index of group k, and is empty otherwise.
   */
  ghost predicate Assembled(n: nat, groups: seq<seq<nat>>, produced: seq<seq<Item>>, items: seq<Item>) {
    && |items| == n && |produced| == |groups|
    && (forall k | 0 <= k < |groups| :: |produced[k]| == |groups[k]|)
    && (forall k, j | 0 <= k < |groups| && 0 <= j < |groups[k]| ::
          groups[k][j] < n && items[groups[k][j]] == produced[k][j])
    && (forall i | 0 <= i < n && !(exists k, j :: At(groups, i, k, j)) :: items[i] == EMPTY_ITEM)
  }

  /** Two runs whose groups produced the same items return the same batch. */
  lemma Confluent(n: nat, groups: seq<seq<nat>>, produced: seq<seq<Item>>, a: seq<Item>, b: seq<Item>)
    requires Assembled(n, groups, produced, a) && Assembled(n, groups, produced, b)
    ensures a == b
  {
    forall i | 0 <= i < n ensures a[i] == b[i] {
      if exists k, j :: At(groups, i, k, j) {
        var k, j :| At(groups, i, k, j);
        assert a[groups[k][j]] == produced[k][j] && b[groups[k][j]] == produced[k][j];
      }
    }
  }

  /** `_do_group`: only budget exhaustion escapes, and it cancels the shared budget first. */
  method DoGroup(worker: Worker, all: seq<string>, idxs: seq<nat>) returns (done: GroupDone)
    requires worker.budget.Valid() && idxs != [] && InRange(idxs, |all|)
    modifies worker, worker.budget
    ensures worker.budget.Valid() && worker.held == old(worker.held)
    ensures old(worker.attempts) <= worker.attempts <= old(worker.attempts) + AttemptBound(worker.c, |idxs|)
    ensures done.Raised? ==> worker.budget.cancelReason.Some?
    ensures done.Finished? ==> |done.items| == |idxs| && GroupOutcome(worker.c, worker.log, all, idxs, done.items)
  {
    var now: real := *;
    var raised := worker.budget.EnsureActive(now);
    if raised.Some? {
      done := Cancelled(worker, raised.value);
      return;
    }
    var r := worker.TranslateGroup(all, idxs);
    match r
    case GroupOverBudget(reason) => done := Cancelled(worker, reason);
    case GroupUnavailable(code, retryAfter) =>
      var failed := Item(ErrorText(code), "", false, GroupFailed, Some(code), retryAfter);
      done := Finished(seq(|idxs|, j => failed));
    case Items(items) => done := Finished(items);
  }

  method Cancelled(worker: Worker, reason: string) returns (done: GroupDone)
    requires worker.budget.Valid() && reason != ""
    modifies worker.budget
    ensures worker.budget.Valid() && worker.budget.cancelReason.Some?
    ensures done == Raised(reason)
  {
    var _ := worker.budget.Cancel(reason);
    done := Raised(reason);
  }

  /**
   The state of one batch: waiting groups, outstanding futures, and the result slots written in place.
   The ghost fields record what each finished group produced and the provider calls behind it.
   */
  class Batch {
    const c: Config
    const texts: seq<string>
    const groups: seq<seq<nat>>
    const budget: WorkBudget
    const results: array<Item>
    var pending: seq<nat>
    var futures: set<nat>
    var fillers: int              // how often the "missing segment" filler was stored
    ghost var produced: seq<seq<Item>>
    ghost var logs: seq<seq<Call>>

    /** Group k has been submitted and its future has been consumed. */
    ghost predicate Stored(k: int)
      reads this
    {
      0 <= k < |groups| - |pending| && k !in futures
    }

    ghost predicate Shape()
      reads this
    {
      && results.Length == |texts| && |produced| == |logs| == |groups|
      && (forall k | 0 <= k < |groups| :: groups[k] != [] && InRange(groups[k], |texts|))
      && G.Disjoint(groups)
      && |pending| <= |groups| && (forall p | 0 <= p < |pending| :: pending[p] == |groups| - |pending| + p)
      && (forall k | k in futures :: k < |groups| - |pending|)
    }

    /** Stored groups own exactly their slots; every other slot is still empty. */
    ghost predicate Valid()
      reads this, budget, results
    {
      && Shape() && budget.Valid() && fillers == 0
      && (forall k | Stored(k) :: |produced[k]| == |groups[k]| && GroupOutcome(c, logs[k], texts, groups[k], produced[k]))
      && (forall k, j | Stored(k) && 0 <= j < |groups[k]| :: results[groups[k][j]] == produced[k][j])
      && (forall i | 0 <= i < |texts| && !(exists k, j :: Stored(k) && At(groups, i, k, j)) :: results[i] == EMPTY_ITEM)
    }

    constructor (c: Config, texts: seq<string>, groups: seq<seq<nat>>, budget: WorkBudget)
      requires budget.Valid() && G.Disjoint(groups)
      requires forall k | 0 <= k < |groups| :: groups[k] != [] && InRange(groups[k], |texts|)
      ensures Valid() && fresh(results) && this.budget == budget
      ensures this.c == c && this.texts == texts && this.groups == groups
      ensures futures == {} && |pending| == |groups|
    {
      this.c, this.texts, this.groups, this.budget := c, texts, groups, budget;
      results := new Item[|texts|](_ => EMPTY_ITEM);
      pending := seq(|groups|, p => p);
      futures, fillers := {}, 0;
      produced := seq(|groups|, _ => []);
      logs := seq(|groups|, _ => []);
    }

    /** Top up the window: at most `maxConcurrent` groups are ever outstanding. */
    method Submit(maxConcurrent: nat)
      requires Valid() && |futures| <= maxConcurrent && maxConcurrent > 0
      modifies this`pending, this`futures
      ensures Valid() && |futures| <= maxConcurrent
      ensures |pending| + |futures| == old(|pending| + |futures|)
      ensures pending != [] || old(futures) != {} ==> futures != {}
      ensures old(pending) != [] ==> futures != {}
    {
      while pending != [] && |futures| < maxConcurrent
        invariant Valid() && |futures| <= maxConcurrent
        invariant |pending| + |futures| == old(|pending| + |futures|)
        invariant futures >= old(futures)
        invariant pending != old(pending) ==> futures != {}
        decreases |pending|
      {
        SubmitNext();
      }
    }

    /** Hands the next pending group to the executor. */
    method SubmitNext()
      requires Valid() && pending != []
      modifies this`pending, this`futures
      ensures Valid() && pending == old(pending)[1..]
      ensures futures > old(futures) && |futures| == old(|futures|) + 1
    {
      var g := pending[0];
      pending := pending[1..];
      futures := futures + {g};
      assert forall k :: Stored(k) <==> old(Stored(k));
    }

    /** Stores the items of one completed group, slot by slot. */
    method Write(k: nat, items: seq<Item>, ghost log: seq<Call>)
      requires Valid() && k in futures
      requires |items| == |groups[k]| && GroupOutcome(c, log, texts, groups[k], items)
      modifies this`futures, this`fillers, this`produced, this`logs, results
      ensures Valid() && futures == old(futures) - {k}
    {
      var idxs := groups[k];
      var missing := Item("[TRANSLATION ERROR: missing segment]", "", false, GroupFailed, None, None);
      for j := 0 to |idxs|
        modifies this`fillers, results
        invariant fillers == 0
        invariant forall m | 0 <= m < j :: results[idxs[m]] == items[m]
        invariant forall i | 0 <= i < |texts| && !(exists m :: 0 <= m < j && idxs[m] == i) :: results[i] == old(results[i])
      {
        ghost var before := results[..];
        results[idxs[j]] := if j < |items| then items[j] else missing;
        fillers := if j < |items| then fillers else fillers + 1;
        forall m | 0 <= m < j ensures results[idxs[m]] == items[m] {
          assert groups[k][m] != groups[k][j];
        }
      }
      futures := futures - {k};
      produced := produced[k := items];
      logs := logs[k := log];
      assert forall l :: Stored(l) <==> l == k || old(Stored(l));
      forall l, m | Stored(l) && 0 <= m < |groups[l]| ensures results[groups[l][m]] == produced[l][m] {
        if l != k {
          assert old(results[groups[l][m]]) == old(produced)[l][m];
          assert forall p | 0 <= p < |idxs| :: groups[k][p] != groups[l][m];
        }
      }
      forall i | 0 <= i < |texts| && !(exists l, m :: Stored(l) && At(groups, i, l, m)) ensures results[i] == EMPTY_ITEM {
        forall m | 0 <= m < |idxs| ensures idxs[m] != i {
          assert Stored(k) && (idxs[m] == i ==> At(groups, i, k, m));
        }
      }
    }

    /** Consume one completed future: `None`, or the reason its budget ran out with. */
    method Consume(k: nat) returns (raised: Option<string>)
      requires Valid() && k in futures
      modifies this`futures, this`fillers, this`produced, this`logs, results, budget
      ensures raised == None ==> Valid() && futures == old(futures) - {k}
      ensures raised.Some? ==> budget.cancelReason.Some?
    {
      var worker := new Worker(c, budget);
      var done := DoGroup(worker, texts, groups[k]);
      match done
      case Raised(reason) => raised := Some(reason);
      case Finished(items) =>
        Write(k, items, worker.log);
        raised := None;
    }

    /** The scheduling loop; `wait` returns any non-empty set of outstanding futures. */
    method Run(maxConcurrent: nat) returns (raised: Option<string>)
      requires Valid() && futures == {} && maxConcurrent > 0
      modifies this`pending, this`futures, this`fillers, this`produced, this`logs, results, budget
      ensures raised == None ==> Valid() && pending == [] && futures == {}
      ensures raised.Some? ==> budget.cancelReason.Some?
    {
      while pending != [] || futures != {}
        invariant Valid() && |futures| <= maxConcurrent
        decreases |pending| + |futures|
      {
        Submit(maxConcurrent);
        ghost var outstanding := |pending| + |futures|;
        var done :| done != {} && done <= futures;
        while done != {}
          invariant Valid() && done <= futures && |futures| <= maxConcurrent
          invariant |pending| + |futures| <= outstanding
          invariant done == {} ==> |pending| + |futures| < outstanding
          decreases done
        {
          var k :| k in done;
          raised := Consume(k);
          if raised.Some? {
            return;
          }
          done := done - {k};
        }
      }
      raised := None;
    }
  }

  /** The groups a batch works on: its own plan, or a selection that passes the check. */
  method ChooseGroups(texts: seq<string>, size: int, tokenBudget: int, est: string -> nat,
                      selected: Option<seq<seq<nat>>>) returns (ok: bool, groups: seq<seq<nat>>)
    requires size > 0 && tokenBudget >= 0
    ensures !ok <==>
              selected.Some? && selected.value != []
              && !G.AcceptsSelection(texts, G.Bounds(size, tokenBudget, G.Costs(texts, est)), selected.value)
    ensures selected.Some? ==> groups == selected.value
    ensures ok ==> G.Disjoint(groups) && forall k | 0 <= k < |groups| :: groups[k] != [] && InRange(groups[k], |texts|)
  {
    var bounds := G.Bounds(size, tokenBudget, G.Costs(texts, est));
    ok := true;
    match selected {
    case None =>
      var planned := G.TranslationGroups(texts, size, tokenBudget, est);
      groups := planned.value;
      PlanIsDisjoint(groups, G.Work(texts, |texts|), |texts|);
      assert forall k | 0 <= k < |groups| :: G.Fits(bounds, groups[k]);
    case Some(chosen) =>
      groups := chosen;
      if groups != [] {
        ok := G.AcceptsSelection(texts, bounds, groups);
        if ok {
          SelectionIsDisjoint(texts, bounds, groups);
        }
      }
    }
  }

  /** Run the groups through the scheduler and collect the result slots. */
  method RunGroups(c: Config, texts: seq<string>, groups: seq<seq<nat>>, maxConcurrent: int, budget: WorkBudget)
      returns (r: BatchResult, ghost produced: seq<seq<Item>>, ghost logs: seq<seq<Call>>)
    requires budget.Valid() && G.Disjoint(groups)
    requires forall k | 0 <= k < |groups| :: groups[k] != [] && InRange(groups[k], |texts|)
    modifies budget
    ensures !r.ValueError? && (r.Exhausted? ==> budget.cancelReason.Some?)
    ensures r.Results? ==>
              && Assembled(|texts|, groups, produced, r.items) && |logs| == |groups|
              && forall k | 0 <= k < |groups| :: GroupOutcome(c, logs[k], texts, groups[k], produced[k])
  {
    produced, logs := [], [];
    if groups == [] {
      return Results(seq(|texts|, _ => EMPTY_ITEM)), produced, logs;
    }
    var window: nat := if maxConcurrent > 1 then maxConcurrent else 1;
    var batch := new Batch(c, texts, groups, budget);
    var raised := batch.Run(window);
    if raised.Some? {
      return Exhausted(raised.value), produced, logs;
    }
    produced, logs := batch.produced, batch.logs;
    assert forall k | 0 <= k < |groups| :: batch.Stored(k);
    r := Results(batch.results[..]);
  }

  /** `translate_batch_detailed`. */
  method TranslateBatch(c: Config, texts: seq<string>, size: int, tokenBudget: int, est: string -> nat,
                        maxConcurrent: int, budget: WorkBudget, selected: Option<seq<seq<nat>>>)
      returns (r: BatchResult, groups: seq<seq<nat>>, ghost produced: seq<seq<Item>>, ghost logs: seq<seq<Call>>)
    requires budget.Valid() && size > 0 && tokenBudget >= 0
    modifies budget
    ensures r.ValueError? <==>
              selected.Some? && selected.value != []
              && !G.AcceptsSelection(texts, G.Bounds(size, tokenBudget, G.Costs(texts, est)), selected.value)
    ensures selected.Some? ==> groups == selected.value
    ensures r.Exhausted? ==> budget.cancelReason.Some?
    ensures r.Results? ==>
              && Assembled(|texts|, groups, produced, r.items) && |logs| == |groups|
              && forall k | 0 <= k < |groups| :: InRange(groups[k], |texts|) && GroupOutcome(c, logs[k], texts, groups[k], produced[k])
  {
    produced, logs := [], [];
    var ok;
    ok, groups := ChooseGroups(texts, size, tokenBudget, est, selected);
    if !ok {
      return ValueError, groups, produced, logs;
    }
    r, produced, logs := RunGroups(c, texts, groups, maxConcurrent, budget);
  }

  lemma FlatIndices(groups: seq<seq<nat>>, flat: seq<nat>, n: nat)
    requires flat == G.Concat(groups)
    requires forall p | 0 <= p < |flat| :: flat[p] < n
    requires forall p, q | 0 <= p < q < |flat| :: flat[p] != flat[q]
    ensures G.Disjoint(groups)
    ensures forall k | 0 <= k < |groups| :: InRange(groups[k], n)
  {
    G.DistinctIsDisjoint(groups);
    forall k, j | 0 <= k < |groups| && 0 <= j < |groups[k]| ensures groups[k][j] < n {
      G.SlotAt(groups, k, j);
    }
  }

  lemma SelectionIsDisjoint(texts: seq<string>, b: G.Bounds, groups: seq<seq<nat>>)
    requires G.AcceptsSelection(texts, b, groups)
    ensures G.Disjoint(groups)
    ensures forall k | 0 <= k < |groups| :: groups[k] != [] && InRange(groups[k], |texts|)
  {
    var flat := G.Concat(groups);
    assert forall p | 0 <= p < |flat| :: flat[p] in flat;
    FlatIndices(groups, flat, |texts|);
    forall k | 0 <= k < |groups| ensures groups[k] != [] && InRange(groups[k], |texts|) {
      assert groups[k] in groups;
    }
  }

  lemma PlanIsDisjoint(groups: seq<seq<nat>>, work: seq<nat>, n: nat)
    requires G.Concat(groups) == work && G.Increasing(work)
    requires forall p | 0 <= p < |work| :: work[p] < n
    ensures G.Disjoint(groups)
    ensures forall k | 0 <= k < |groups| :: InRange(groups[k], n)
  {
    FlatIndices(groups, work, n);
  }
}
