/**
 Greedy batching of paragraphs under a count bound and a token bound
 (`translation_groups`), and the `selected_groups` check that guards the scheduler.
 */
module Grouping {
  import opened Basics
  import opened Texts

  /** The two bounds, and the estimated tokens of the paragraph at each index. */
  datatype Bounds = Bounds(size: int, budget: int, cost: nat -> nat) {
    predicate Legal() { size > 0 && budget >= 0 }
  }

  /** The estimate of every paragraph, for any estimator `est` over stripped text. */
  function Costs(texts: seq<string>, est: string -> nat): nat -> nat {
    (i: nat) => CostAt(texts, est, i)
  }

  function CostAt(texts: seq<string>, est: string -> nat, i: nat): nat {
    if i < |texts| then est(Strip(texts[i])) else 0
  }

  function Concat(groups: seq<seq<nat>>): seq<nat> {
    if groups == [] then [] else groups[0] + Concat(groups[1..])
  }

  function Cost(b: Bounds, group: seq<nat>): nat {
    if group == [] then 0
    else Cost(b, group[..|group| - 1]) + b.cost(group[|group| - 1])
  }

  /** A group within both bounds; one oversized paragraph may stand alone. */
  predicate Fits(b: Bounds, group: seq<nat>) {
    && 0 < |group| <= b.size
    && (b.budget == 0 || |group| == 1 || Cost(b, group) <= b.budget)
  }

  predicate Increasing(ids: seq<nat>) {
    forall i, j | 0 <= i < j < |ids| :: ids[i] < ids[j]
  }

  /** The non-blank indices below `n`, in order. */
  function Work(texts: seq<string>, n: nat): (w: seq<nat>)
    requires n <= |texts|
    ensures forall p | 0 <= p < |w| :: w[p] < n && !Blank(texts[w[p]])
    ensures forall i: nat | i < n && !Blank(texts[i]) :: i in w
    ensures Increasing(w)
  {
    if n == 0 then [] else
    var w := Work(texts, n - 1);
    if Blank(texts[n - 1]) then w else w + [n - 1]
  }

  /** `groups` cuts `work` into consecutive groups that fit. */
  ghost predicate Split(b: Bounds, work: seq<nat>, groups: seq<seq<nat>>) {
    && Concat(groups) == work
    && forall k | 0 <= k < |groups| :: Fits(b, groups[k])
  }

  /** No group could have taken the first paragraph of the next one. */
  ghost predicate Saturated(b: Bounds, groups: seq<seq<nat>>) {
    && (forall k | 0 <= k < |groups| :: groups[k] != [])
    && forall k | 0 <= k < |groups| - 1 :: !Fits(b, groups[k] + [groups[k + 1][0]])
  }

  // ---- Sequence facts -------------------------------------------------------

  lemma {:induction false} ConcatAppend(groups: seq<seq<nat>>, g: seq<nat>)
    ensures Concat(groups + [g]) == Concat(groups) + g
  {
    if groups == [] {
      assert groups + [g] == [g];
    } else {
      ConcatAppend(groups[1..], g);
      assert (groups + [g])[1..] == groups[1..] + [g];
    }
  }

  /** Where group k starts in the flattened list. */
  function Start(groups: seq<seq<nat>>, k: nat): nat
    requires k <= |groups|
  {
    if k == 0 then 0 else Start(groups, k - 1) + |groups[k - 1]|
  }

  lemma {:induction false} StartShift(groups: seq<seq<nat>>, k: nat)
    requires 0 < k <= |groups|
    ensures Start(groups, k) == |groups[0]| + Start(groups[1..], k - 1)
  {
    if k > 1 {
      StartShift(groups, k - 1);
    }
  }

  /** Group k is the stretch of the flattened list that begins at its start. */
  lemma {:induction false} Segment(groups: seq<seq<nat>>, k: nat)
    requires k < |groups|
    ensures Start(groups, k + 1) <= |Concat(groups)|
    ensures Concat(groups)[Start(groups, k)..Start(groups, k + 1)] == groups[k]
  {
    StartShift(groups, k + 1);
    if k > 0 {
      StartShift(groups, k);
      Segment(groups[1..], k - 1);
    }
  }

  lemma {:induction false} StartTotal(groups: seq<seq<nat>>)
    ensures Start(groups, |groups|) == |Concat(groups)|
  {
    if groups != [] {
      StartShift(groups, |groups|);
      StartTotal(groups[1..]);
    }
  }

  lemma {:induction false} CostMonotone(b: Bounds, a: seq<nat>, m: seq<nat>, z: seq<nat>)
    ensures Cost(b, m) <= Cost(b, a + m + z)
  {
    var s := a + m + z;
    if z != [] {
      assert s[..|s| - 1] == a + m + z[..|z| - 1];
      CostMonotone(b, a, m, z[..|z| - 1]);
    } else if m != [] {
      assert s[..|s| - 1] == a + m[..|m| - 1] + z;
      CostMonotone(b, a, m[..|m| - 1], z);
    }
  }

  /** A non-empty stretch of a group that fits also fits. */
  lemma FitsMonotone(b: Bounds, work: seq<nat>, lo: nat, from: nat, to: nat, hi: nat)
    requires lo <= from < to <= hi <= |work|
    requires Fits(b, work[lo..hi])
    ensures Fits(b, work[from..to])
  {
    assert work[lo..hi] == work[lo..from] + work[from..to] + work[to..hi];
    CostMonotone(b, work[lo..from], work[from..to], work[to..hi]);
  }

  // ---- Greedy is optimal ----------------------------------------------------

  /** After k groups, a saturated split has consumed at least as much as any other split. */
  lemma {:induction false} StaysAhead(b: Bounds, work: seq<nat>, greedy: seq<seq<nat>>,
                                      other: seq<seq<nat>>, k: nat)
    requires Split(b, work, greedy) && Saturated(b, greedy)
    requires Split(b, work, other)
    requires k <= |other| && k <= |greedy|
    ensures Start(greedy, k) >= Start(other, k)
  {
    StartTotal(greedy);
    if k > 0 {
      StaysAhead(b, work, greedy, other, k - 1);
      Segment(greedy, k - 1);
      Segment(other, k - 1);
      if k < |greedy| {
        Segment(greedy, k);
        assert work[Start(greedy, k)] == work[Start(greedy, k)..Start(greedy, k + 1)][0];
        AheadStep(b, work, Start(greedy, k - 1), Start(greedy, k), Start(other, k - 1), Start(other, k));
      }
    }
  }

  /** A group that could not take one more paragraph ends no earlier than one that starts before it. */
  lemma AheadStep(b: Bounds, work: seq<nat>, g0: nat, g1: nat, o0: nat, o1: nat)
    requires o0 <= g0 < g1 < |work| && o0 < o1 <= |work|
    requires Fits(b, work[o0..o1]) && !Fits(b, work[g0..g1] + [work[g1]])
    ensures g1 >= o1
  {
    assert work[g0..g1 + 1] == work[g0..g1] + [work[g1]];
    if g1 < o1 {
      FitsMonotone(b, work, o0, g0, g1 + 1, o1);
    }
  }

  /** The greedy split has the fewest groups any contiguous split under the bounds can have. */
  lemma GreedyIsFewest(b: Bounds, work: seq<nat>, greedy: seq<seq<nat>>, other: seq<seq<nat>>)
    requires Split(b, work, greedy) && Saturated(b, greedy)
    requires Split(b, work, other)
    ensures |greedy| <= |other|
  {
    var n := if |other| < |greedy| then |other| else |greedy|;
    StaysAhead(b, work, greedy, other, n);
    StartTotal(other);
    if n < |greedy| {
      Segment(greedy, n);
    }
  }

  // ---- The count with no token budget ---------------------------------------

  /** The quotient rounded up. */
  function Ceil(n: int, d: int): int
    requires d > 0
  {
    -((-n) / d)
  }

  lemma MulMonotone(a: int, c: int, d: int)
    requires a <= c && d >= 0
    ensures a * d <= c * d
  {
  }

  /** `Ceil(n, d)` is the q with (q-1)d < n <= qd. */
  lemma CeilUnique(n: int, d: int, q: int)
    requires d > 0 && (q - 1) * d < n <= q * d
    ensures Ceil(n, d) == q
  {
    var f := (-n) / d;
    if f > -q {
      MulMonotone(-q + 1, f, d);
    } else if f < -q {
      MulMonotone(f + 1, -q, d);
    }
  }

  lemma CeilMonotone(n: int, m: int, d: int)
    requires d > 0 && n <= m
    ensures Ceil(n, d) <= Ceil(m, d)
  {
    var f, g := (-n) / d, (-m) / d;
    if f < g {
      MulMonotone(f + 1, g, d);
    }
  }

  /** With no token budget every group but the last is full. */
  lemma CountOnlyFull(b: Bounds, work: seq<nat>, groups: seq<seq<nat>>)
    requires b.Legal() && b.budget == 0 && groups != []
    requires Split(b, work, groups) && Saturated(b, groups)
    ensures (|groups| - 1) * b.size < |work| <= |groups| * b.size
  {
    forall k | 0 <= k < |groups| - 1 ensures |groups[k]| == b.size {
      assert Fits(b, groups[k]) && !Fits(b, groups[k] + [groups[k + 1][0]]);
    }
    FullGroups(groups, b.size);
    GroupsHold(groups, b.size);
  }

  /** ... so the number of groups is exactly the ceiling the startup check computes. */
  lemma CountOnlyCeiling(b: Bounds, work: seq<nat>, groups: seq<seq<nat>>)
    requires b.Legal() && b.budget == 0
    requires Split(b, work, groups) && Saturated(b, groups)
    ensures |groups| == Ceil(|work|, b.size)
  {
    if groups != [] {
      CountOnlyFull(b, work, groups);
      CeilUnique(|work|, b.size, |groups|);
    }
  }

  /**
   The startup check (`BT_REQUEST_MAX_ATTEMPTS >= ceil(max paragraphs / batch size)`) really does
   pay for one call per group of any admissible request, provided there is no token budget.
   */
  lemma StartupAttemptsSuffice(texts: seq<string>, b: Bounds, groups: seq<seq<nat>>,
                               maxParagraphs: nat, maxAttempts: int)
    requires b.Legal() && b.budget == 0 && |texts| <= maxParagraphs
    requires maxAttempts >= Ceil(maxParagraphs, b.size)
    requires Split(b, Work(texts, |texts|), groups) && Saturated(b, groups)
    ensures |groups| <= maxAttempts
  {
    var work := Work(texts, |texts|);
    CountOnlyCeiling(b, work, groups);
    WorkIsShort(texts, |texts|);
    CeilMonotone(|work|, maxParagraphs, b.size);
  }

  lemma {:induction false} WorkIsShort(texts: seq<string>, n: nat)
    requires n <= |texts|
    ensures |Work(texts, n)| <= n
  {
    if n > 0 {
      WorkIsShort(texts, n - 1);
    }
  }

  /** The token estimate of a paragraph is at least 1, and `maxCost` bounds that of the longest paragraph allowed. */
  ghost predicate Priced(cost: nat -> nat, maxCost: nat) {
    forall i: nat :: 1 <= cost(i) <= maxCost
  }

  /** `groups` is the saturated split of a request of at most `maxParagraphs` paragraphs. */
  ghost predicate Request(b: Bounds, maxCost: nat, texts: seq<string>, maxParagraphs: nat, groups: seq<seq<nat>>) {
    && |texts| <= maxParagraphs && Priced(b.cost, maxCost)
    && Split(b, Work(texts, |texts|), groups) && Saturated(b, groups)
  }

  /** Every admissible request, whatever its paragraphs cost, has at most `maxAttempts` groups. */
  ghost predicate Covers(size: int, budget: int, maxCost: nat, maxParagraphs: nat, maxAttempts: int) {
    forall texts: seq<string>, cost: nat -> nat, groups: seq<seq<nat>> ::
      Request(Bounds(size, budget, cost), maxCost, texts, maxParagraphs, groups) ==> |groups| <= maxAttempts
  }

  /** How many paragraphs every group but the last is sure to hold. */
  function Width(size: int, budget: int, maxCost: nat): (q: int)
    requires size > 0 && budget >= 0 && maxCost > 0
    ensures 1 <= q <= size
  {
    if budget == 0 || budget / maxCost >= size then size else if budget < maxCost then 1 else budget / maxCost
  }

  /** How many attempts pay for one call per group of every admissible request: exactly this ceiling. */
  lemma AttemptsNeeded(size: int, budget: int, maxCost: nat, maxParagraphs: nat, maxAttempts: int)
    requires size > 0 && budget >= 0 && maxCost > 0
    ensures Covers(size, budget, maxCost, maxParagraphs, maxAttempts) <==>
              maxAttempts >= Ceil(maxParagraphs, Width(size, budget, maxCost))
  {
    var q := Width(size, budget, maxCost);
    var b, groups := WorstRequest(size, budget, maxCost, maxParagraphs);
    assert b == Bounds(size, budget, b.cost);
    if maxAttempts >= Ceil(maxParagraphs, q) {
      forall texts: seq<string>, cost: nat -> nat, groups: seq<seq<nat>> |
        Request(Bounds(size, budget, cost), maxCost, texts, maxParagraphs, groups)
        ensures |groups| <= maxAttempts
      {
        GroupsOfRequest(Bounds(size, budget, cost), maxCost, texts, maxParagraphs, groups);
      }
    }
  }

  /** The startup check covers every request if and only if groups of that width need no more than it asks for. */
  lemma StartupCheckMissesTokenBudget(size: int, budget: int, maxCost: nat, maxParagraphs: nat)
    requires size > 0 && budget >= 0 && maxCost > 0
    ensures Covers(size, budget, maxCost, maxParagraphs, Ceil(maxParagraphs, size)) <==>
              Ceil(maxParagraphs, Width(size, budget, maxCost)) <= Ceil(maxParagraphs, size)
    ensures budget == 0 || budget >= size * maxCost ==>
              Covers(size, budget, maxCost, maxParagraphs, Ceil(maxParagraphs, size))
    ensures 0 < budget <= maxCost && size > 1 && maxParagraphs > 1 ==>
              !Covers(size, budget, maxCost, maxParagraphs, Ceil(maxParagraphs, size))
  {
    AttemptsNeeded(size, budget, maxCost, maxParagraphs, Ceil(maxParagraphs, size));
    if budget >= size * maxCost {
      QuotientAtLeast(budget, maxCost, size);
    }
    if 0 < budget <= maxCost && size > 1 && maxParagraphs > 1 {
      WidthOne(size, budget, maxCost);
      CeilUnique(maxParagraphs, 1, maxParagraphs);
      FewerWithPairs(maxParagraphs, size);
    }
  }

  lemma WidthOne(size: int, budget: int, maxCost: nat)
    requires 0 < budget <= maxCost && size > 1
    ensures Width(size, budget, maxCost) == 1
  {
    if budget == maxCost {
      assert budget / maxCost == 1;
    }
  }

  lemma FewerWithPairs(n: int, size: int)
    requires n > 1 && size > 1
    ensures Ceil(n, size) < n
  {
    MulMonotone(2, size, n - 1);
    assert (n - 1) * size == size * (n - 1);
    CeilBelow(n, size, n - 1);
  }

  lemma QuotientAtLeast(n: int, d: int, q: int)
    requires d > 0 && n >= q * d
    ensures n / d >= q
  {
    if n / d < q {
      MulMonotone(n / d + 1, q, d);
    }
  }

  lemma CeilBelow(n: int, d: int, q: int)
    requires d > 0 && n <= q * d
    ensures Ceil(n, d) <= q
  {
    var f := (-n) / d;
    if f < -q {
      MulMonotone(f + 1, -q, d);
    }
  }

  lemma CeilAbove(n: int, d: int, q: int)
    requires d > 0 && (q - 1) * d < n
    ensures q <= Ceil(n, d)
  {
    var f := (-n) / d;
    if f > -q {
      MulMonotone(-q + 1, f, d);
    }
  }

  // ---- No request has more groups than that ---------------------------------

  lemma {:induction false} CostAtMost(b: Bounds, maxCost: nat, group: seq<nat>)
    requires Priced(b.cost, maxCost)
    ensures Cost(b, group) <= |group| * maxCost
  {
    if group != [] {
      CostAtMost(b, maxCost, group[..|group| - 1]);
      assert |group| * maxCost == (|group| - 1) * maxCost + maxCost;
    }
  }

  /** A group that could not take one more paragraph holds at least the width. */
  lemma FullGroup(b: Bounds, maxCost: nat, group: seq<nat>, next: nat)
    requires b.Legal() && maxCost > 0 && Priced(b.cost, maxCost) && group != [] && !Fits(b, group + [next])
    ensures |group| >= Width(b.size, b.budget, maxCost)
  {
    CostAtMost(b, maxCost, group + [next]);
    if |group| < b.budget / maxCost {
      MulMonotone(|group| + 1, b.budget / maxCost, maxCost);
    }
  }

  lemma {:induction false} FullGroups(groups: seq<seq<nat>>, q: nat)
    requires groups != [] && groups[|groups| - 1] != []
    requires forall k | 0 <= k < |groups| - 1 :: |groups[k]| >= q
    ensures (|groups| - 1) * q < |Concat(groups)|
  {
    if |groups| > 1 {
      FullGroups(groups[1..], q);
      assert (|groups| - 1) * q == (|groups[1..]| - 1) * q + q;
    }
  }

  lemma GroupsOfRequest(b: Bounds, maxCost: nat, texts: seq<string>, maxParagraphs: nat, groups: seq<seq<nat>>)
    requires b.Legal() && maxCost > 0 && Request(b, maxCost, texts, maxParagraphs, groups)
    ensures |groups| <= Ceil(maxParagraphs, Width(b.size, b.budget, maxCost))
  {
    var q := Width(b.size, b.budget, maxCost);
    WorkIsShort(texts, |texts|);
    if groups == [] {
      CeilAbove(maxParagraphs, q, 0);
    } else {
      forall k | 0 <= k < |groups| - 1 ensures |groups[k]| >= q {
        FullGroup(b, maxCost, groups[k], groups[k + 1][0]);
      }
      FullGroups(groups, q);
      CeilAbove(maxParagraphs, q, |groups|);
    }
  }

  // ---- And one request has as many ------------------------------------------

  /** A request that needs them all: every paragraph as long as is allowed. */
  lemma WorstRequest(size: int, budget: int, maxCost: nat, n: nat) returns (b: Bounds, groups: seq<seq<nat>>)
    requires size > 0 && budget >= 0 && maxCost > 0
    ensures b.size == size && b.budget == budget && |groups| == Ceil(n, Width(size, budget, maxCost))
    ensures Request(b, maxCost, seq(n, _ => "a"), n, groups)
  {
    var texts, q := seq(n, _ => "a"), Width(size, budget, maxCost);
    b := Bounds(size, budget, _ => maxCost);
    WorkOfLetters(n, n);
    WidthExactly(b, maxCost);
    groups := Chunks(b, q, Work(texts, n));
    if n > 0 {
      FullGroups(groups, q);
      GroupsHold(groups, q);
      CeilUnique(n, q, |groups|);
    }
  }

  lemma {:induction false} CostExactly(b: Bounds, maxCost: nat, group: seq<nat>)
    requires forall i: nat :: b.cost(i) == maxCost
    ensures Cost(b, group) == |group| * maxCost
  {
    if group != [] {
      CostExactly(b, maxCost, group[..|group| - 1]);
      assert |group| * maxCost == (|group| - 1) * maxCost + maxCost;
    }
  }

  lemma WidthFits(b: Bounds, maxCost: nat, g: seq<nat>)
    requires b.Legal() && maxCost > 0 && forall i: nat :: b.cost(i) == maxCost
    requires 0 < |g| <= Width(b.size, b.budget, maxCost)
    ensures Fits(b, g)
  {
    CostExactly(b, maxCost, g);
    if b.budget > 0 && |g| > 1 {
      MulMonotone(|g|, b.budget / maxCost, maxCost);
      assert b.budget / maxCost * maxCost <= b.budget;
    }
  }

  lemma WidthIsFull(b: Bounds, maxCost: nat, g: seq<nat>)
    requires b.Legal() && maxCost > 0 && forall i: nat :: b.cost(i) == maxCost
    requires |g| == Width(b.size, b.budget, maxCost) + 1
    ensures !Fits(b, g)
  {
    CostExactly(b, maxCost, g);
    if |g| <= b.size {
      MulMonotone(b.budget / maxCost + 1, |g|, maxCost);
      assert (b.budget / maxCost + 1) * maxCost > b.budget;
    }
  }

  lemma WidthExactly(b: Bounds, maxCost: nat)
    requires b.Legal() && maxCost > 0 && forall i: nat :: b.cost(i) == maxCost
    ensures FitsUpTo(b, Width(b.size, b.budget, maxCost))
  {
    var q := Width(b.size, b.budget, maxCost);
    forall g: seq<nat> | 0 < |g| <= q ensures Fits(b, g) {
      WidthFits(b, maxCost, g);
    }
    forall g: seq<nat> | |g| == q + 1 ensures !Fits(b, g) {
      WidthIsFull(b, maxCost, g);
    }
  }

  function Indices(n: nat): seq<nat> {
    seq(n, i => i)
  }

  lemma {:induction false} WorkOfLetters(n: nat, k: nat)
    requires k <= n
    ensures Work(seq(n, _ => "a"), k) == Indices(k)
  {
    if k > 0 {
      WorkOfLetters(n, k - 1);
      assert StripLeft("a") == "a" && StripRight("a") == "a";
      assert Indices(k) == Indices(k - 1) + [k - 1];
    }
  }

  /** Every group of at most q paragraphs fits, and none of q + 1. */
  ghost predicate FitsUpTo(b: Bounds, q: nat) {
    && (forall g: seq<nat> {:trigger Fits(b, g)} :: 0 < |g| <= q ==> Fits(b, g))
    && forall g: seq<nat> {:trigger Fits(b, g)} :: |g| == q + 1 ==> !Fits(b, g)
  }

  lemma PrependGroup(b: Bounds, first: seq<nat>, rest: seq<seq<nat>>, work: seq<nat>)
    requires Fits(b, first) && Split(b, work, rest) && Saturated(b, rest)
    requires rest != [] ==> !Fits(b, first + [rest[0][0]])
    ensures Split(b, first + work, [first] + rest) && Saturated(b, [first] + rest)
  {
    var groups := [first] + rest;
    assert groups[1..] == rest;
    forall k | 0 <= k < |groups| - 1 ensures !Fits(b, groups[k] + [groups[k + 1][0]]) {
      if k > 0 {
        assert groups[k] == rest[k - 1] && groups[k + 1] == rest[k];
      }
    }
  }

  /** Groups of exactly q, and the rest. */
  lemma {:induction false} Chunks(b: Bounds, q: nat, work: seq<nat>) returns (groups: seq<seq<nat>>)
    requires q > 0 && FitsUpTo(b, q)
    ensures Split(b, work, groups) && Saturated(b, groups)
    ensures work == [] <==> groups == []
    ensures forall k | 0 <= k < |groups| :: 0 < |groups[k]| <= q && (k < |groups| - 1 ==> |groups[k]| == q)
    decreases |work|
  {
    if |work| == 0 {
      groups := [];
    } else {
      var m := if |work| < q then |work| else q;
      var first, after := work[..m], work[m..];
      assert first + after == work;
      var rest := Chunks(b, q, after);
      groups := [first] + rest;
      ChunkFits(b, q, first, rest);
      PrependGroup(b, first, rest, after);
    }
  }

  lemma {:induction false} GroupsHold(groups: seq<seq<nat>>, q: nat)
    requires forall k | 0 <= k < |groups| :: |groups[k]| <= q
    ensures |Concat(groups)| <= |groups| * q
  {
    if groups != [] {
      GroupsHold(groups[1..], q);
      assert |groups| * q == |groups[1..]| * q + q;
    }
  }

  lemma ChunkFits(b: Bounds, q: nat, first: seq<nat>, rest: seq<seq<nat>>)
    requires FitsUpTo(b, q) && 0 < |first| <= q && (rest != [] ==> |first| == q && rest[0] != [])
    ensures Fits(b, first) && (rest != [] ==> !Fits(b, first + [rest[0][0]]))
  {
  }

  // ---- The source's loop ----------------------------------------------------

  lemma SaturatedExtend(b: Bounds, groups: seq<seq<nat>>, next: seq<nat>)
    requires groups != [] && next != [] && Saturated(b, groups)
    requires !Fits(b, groups[|groups| - 1] + [next[0]])
    ensures Saturated(b, groups + [next])
  {
    var more := groups + [next];
    forall k | 0 <= k < |more| - 1 ensures !Fits(b, more[k] + [more[k + 1][0]]) {
      assert more[k] == groups[k];
      if k < |groups| - 1 {
        assert more[k + 1] == groups[k + 1];
      }
    }
  }

  lemma SaturatedReplace(b: Bounds, groups: seq<seq<nat>>, last: seq<nat>, grown: seq<nat>)
    requires last != [] && grown != [] && grown[0] == last[0]
    requires Saturated(b, groups + [last])
    ensures Saturated(b, groups + [grown])
  {
    var all, more := groups + [last], groups + [grown];
    forall k | 0 <= k < |more| ensures more[k] != [] {
      assert all[k] != [];
    }
    forall k | 0 <= k < |more| - 1 ensures !Fits(b, more[k] + [more[k + 1][0]]) {
      assert more[k] == all[k] && more[k + 1][0] == all[k + 1][0];
    }
  }

  /** `translation_groups`: `None` stands for the ValueError on illegal bounds. */
  method TranslationGroups(texts: seq<string>, size: int, budget: int, est: string -> nat)
      returns (r: Option<seq<seq<nat>>>)
    ensures r.Some? <==> size > 0 && budget >= 0
    ensures r.Some? ==>
              var b := Bounds(size, budget, Costs(texts, est));
              Split(b, Work(texts, |texts|), r.value) && Saturated(b, r.value)
  {
    if size <= 0 || budget < 0 {
      return None;
    }
    var b := Bounds(size, budget, Costs(texts, est));
    var work := [];
    for index := 0 to |texts|
      invariant work == Work(texts, index)
    {
      if !Blank(texts[index]) {
        work := work + [index];
      }
    }
    var groups;
    if budget == 0 {
      groups := CountChunks(b, work);
    } else {
      groups := TokenGroups(texts, est, b, work);
    }
    return Some(groups);
  }

  /** What the greedy loop maintains: closed groups, one open group, and its running cost. */
  ghost predicate Packing(b: Bounds, work: seq<nat>, groups: seq<seq<nat>>, current: seq<nat>, tokens: nat) {
    && current != [] && Fits(b, current) && tokens == Cost(b, current)
    && Concat(groups) + current == work
    && (forall k | 0 <= k < |groups| :: Fits(b, groups[k]))
    && Saturated(b, groups + [current])
  }

  lemma CostGrows(b: Bounds, group: seq<nat>, index: nat)
    ensures Cost(b, group + [index]) == Cost(b, group) + b.cost(index)
    ensures Cost(b, [index]) == b.cost(index)
  {
    assert (group + [index])[..|group|] == group;
  }

  lemma OpenNext(b: Bounds, work: seq<nat>, groups: seq<seq<nat>>, current: seq<nat>, tokens: nat, index: nat)
    requires b.Legal() && Packing(b, work, groups, current, tokens)
    requires !Fits(b, current + [index])
    ensures Packing(b, work + [index], groups + [current], [index], b.cost(index))
  {
    CostGrows(b, [], index);
    ConcatAppend(groups, current);
    SaturatedExtend(b, groups + [current], [index]);
  }

  lemma GrowCurrent(b: Bounds, work: seq<nat>, groups: seq<seq<nat>>, current: seq<nat>, tokens: nat, index: nat)
    requires Packing(b, work, groups, current, tokens)
    requires Fits(b, current + [index])
    ensures Packing(b, work + [index], groups, current + [index], tokens + b.cost(index))
  {
    CostGrows(b, current, index);
    SaturatedReplace(b, groups, current, current + [index]);
  }

  /** The loop's test is whether the paragraph still fits. */
  lemma TakesExactly(b: Bounds, current: seq<nat>, index: nat)
    requires b.Legal() && b.budget > 0 && current != [] && Fits(b, current)
    ensures Fits(b, current + [index]) <==> |current| < b.size && Cost(b, current) + b.cost(index) <= b.budget
  {
    CostGrows(b, current, index);
  }

  lemma OpenFirst(b: Bounds, index: nat)
    requires b.Legal()
    ensures Packing(b, [index], [], [index], b.cost(index))
  {
    CostGrows(b, [], index);
    assert [] + [index] == [index];
  }

  lemma PackedIsSplit(b: Bounds, work: seq<nat>, groups: seq<seq<nat>>, current: seq<nat>, tokens: nat)
    requires Packing(b, work, groups, current, tokens)
    ensures Split(b, work, groups + [current]) && Saturated(b, groups + [current])
  {
    ConcatAppend(groups, current);
  }

  /** One paragraph more: it joins the open group, or closes it and opens the next. */
  method Pack(b: Bounds, ghost work: seq<nat>, groups: seq<seq<nat>>, current: seq<nat>, tokens: nat, index: nat,
              paragraphTokens: nat)
      returns (closed: seq<seq<nat>>, open: seq<nat>, cost: nat)
    requires b.Legal() && b.budget > 0 && Packing(b, work, groups, current, tokens) && paragraphTokens == b.cost(index)
    ensures open != [] && Packing(b, work + [index], closed, open, cost)
  {
    TakesExactly(b, current, index);
    if |current| >= b.size || tokens + paragraphTokens > b.budget {
      OpenNext(b, work, groups, current, tokens, index);
      return groups + [current], [index], paragraphTokens;
    }
    GrowCurrent(b, work, groups, current, tokens, index);
    return groups, current + [index], tokens + paragraphTokens;
  }

  method TokenGroups(texts: seq<string>, est: string -> nat, b: Bounds, work: seq<nat>)
      returns (groups: seq<seq<nat>>)
    requires b.Legal() && b.budget > 0 && b.cost == Costs(texts, est)
    requires forall k | 0 <= k < |work| :: work[k] < |texts|
    ensures Split(b, work, groups) && Saturated(b, groups)
  {
    groups := [];
    var current: seq<nat> := [];
    var currentTokens: nat := 0;
    for next := 0 to |work|
      invariant next == 0 ==> groups == [] && current == []
      invariant next > 0 ==> current != [] && Packing(b, work[..next], groups, current, currentTokens)
    {
      var index := work[next];
      var paragraphTokens := est(Strip(texts[index]));
      assert paragraphTokens == b.cost(index);
      assert work[..next + 1] == work[..next] + [index];
      if current == [] {
        OpenFirst(b, index);
        assert work[..1] == [index];
        current, currentTokens := [index], paragraphTokens;
      } else {
        groups, current, currentTokens :=
          Pack(b, work[..next], groups, current, currentTokens, index, paragraphTokens);
      }
    }
    assert work[..|work|] == work;
    if current != [] {
      PackedIsSplit(b, work, groups, current, currentTokens);
      groups := groups + [current];
    }
  }

  /** The count-only comprehension: slices of `size`. */
  method CountChunks(b: Bounds, work: seq<nat>) returns (groups: seq<seq<nat>>)
    requires b.Legal() && b.budget == 0
    ensures Split(b, work, groups) && Saturated(b, groups)
  {
    groups := [];
    var offset := 0;
    while offset < |work|
      invariant 0 <= offset <= |work|
      invariant Concat(groups) == work[..offset]
      invariant forall k | 0 <= k < |groups| :: Fits(b, groups[k])
      invariant Saturated(b, groups)
      invariant groups != [] && offset < |work| ==> |groups[|groups| - 1]| == b.size
    {
      var end := if offset + b.size < |work| then offset + b.size else |work|;
      var g := work[offset..end];
      ConcatAppend(groups, g);
      if groups != [] {
        SaturatedExtend(b, groups, g);
      }
      groups := groups + [g];
      offset := end;
    }
    assert work[..|work|] == work;
  }

  // ---- The scheduler's admission check --------------------------------------

  /** The `selected_groups` validity test, conjunct by conjunct. */
  predicate AcceptsSelection(texts: seq<string>, b: Bounds, groups: seq<seq<nat>>) {
    var flat := Concat(groups);
    && (forall g | g in groups :: g != [])
    && (forall i, j | 0 <= i < j < |flat| :: flat[i] != flat[j])
    && (forall i | i in flat :: i < |texts| && !Blank(texts[i]))
    && (forall g | g in groups :: Sorted(g))
    && (forall g | g in groups :: |g| <= if b.size > 1 then b.size else 1)
    && (forall g | g in groups :: b.budget == 0 || |g| == 1 ||
         Cost(b, g) <= b.budget)
    && Sorted(flat)
  }

  predicate Sorted(ids: seq<nat>) {
    forall i, j | 0 <= i < j < |ids| :: ids[i] <= ids[j]
  }

  /** `sel` keeps some of `groups`, in order. */
  predicate Subsequence(sel: seq<seq<nat>>, groups: seq<seq<nat>>) {
    if sel == [] then true
    else if groups == [] then false
    else (sel[0] == groups[0] && Subsequence(sel[1..], groups[1..])) || Subsequence(sel, groups[1..])
  }

  lemma {:induction false} SubsequenceSkip(sel: seq<seq<nat>>, groups: seq<seq<nat>>, g: seq<nat>)
    requires Subsequence(sel, groups)
    ensures Subsequence(sel, groups + [g])
  {
    if sel != [] {
      assert (groups + [g])[1..] == groups[1..] + [g];
      if sel[0] == groups[0] && Subsequence(sel[1..], groups[1..]) {
        SubsequenceSkip(sel[1..], groups[1..], g);
      } else {
        SubsequenceSkip(sel, groups[1..], g);
      }
    }
  }

  lemma {:induction false} SubsequenceTake(sel: seq<seq<nat>>, groups: seq<seq<nat>>, g: seq<nat>)
    requires Subsequence(sel, groups)
    ensures Subsequence(sel + [g], groups + [g])
  {
    if groups == [] {
      assert sel + [g] == [g] && groups + [g] == [g];
    } else {
      assert (groups + [g])[1..] == groups[1..] + [g];
      if sel != [] && sel[0] == groups[0] && Subsequence(sel[1..], groups[1..]) {
        SubsequenceTake(sel[1..], groups[1..], g);
        assert (sel + [g])[1..] == sel[1..] + [g];
      } else {
        SubsequenceTake(sel, groups[1..], g);
      }
    }
  }

  lemma IncreasingParts(head: seq<nat>, tail: seq<nat>)
    requires Increasing(head + tail)
    ensures Increasing(head) && Increasing(tail)
    ensures forall x, y | x in head && y in tail :: x < y
  {
    var all := head + tail;
    forall i, j | 0 <= i < j < |head| ensures head[i] < head[j] {
      assert head[i] == all[i] && head[j] == all[j];
    }
    forall i, j | 0 <= i < j < |tail| ensures tail[i] < tail[j] {
      assert tail[i] == all[|head| + i] && tail[j] == all[|head| + j];
    }
    forall x, y | x in head && y in tail ensures x < y {
      var i :| 0 <= i < |head| && head[i] == x;
      var j :| 0 <= j < |tail| && tail[j] == y;
      assert all[i] == x && all[|head| + j] == y;
    }
  }

  lemma IncreasingJoin(head: seq<nat>, tail: seq<nat>)
    requires Increasing(head) && Increasing(tail)
    requires forall x, y | x in head && y in tail :: x < y
    ensures Increasing(head + tail)
  {
    var all := head + tail;
    forall i, j | 0 <= i < j < |all| ensures all[i] < all[j] {
      if i < |head| <= j {
        assert all[i] in head && all[j] in tail;
      }
    }
  }

  lemma {:induction false} SubsequenceOrdered(sel: seq<seq<nat>>, groups: seq<seq<nat>>)
    requires Subsequence(sel, groups) && Increasing(Concat(groups))
    ensures Increasing(Concat(sel))
    ensures forall i | i in Concat(sel) :: i in Concat(groups)
    ensures forall g | g in sel :: g in groups
  {
    if sel != [] {
      IncreasingParts(groups[0], Concat(groups[1..]));
      if sel[0] == groups[0] && Subsequence(sel[1..], groups[1..]) {
        SubsequenceOrdered(sel[1..], groups[1..]);
        IncreasingJoin(sel[0], Concat(sel[1..]));
        assert sel == [sel[0]] + sel[1..];
      } else {
        SubsequenceOrdered(sel, groups[1..]);
      }
    }
  }

  lemma SliceIncreasing(all: seq<nat>, lo: nat, hi: nat)
    requires lo <= hi <= |all| && Increasing(all)
    ensures Increasing(all[lo..hi])
  {
  }

  /** Whatever groups a request still has to translate, the scheduler's check accepts them. */
  lemma SubsequenceAccepted(texts: seq<string>, b: Bounds, groups: seq<seq<nat>>, sel: seq<seq<nat>>)
    requires b.Legal() && Split(b, Work(texts, |texts|), groups)
    requires Subsequence(sel, groups)
    ensures AcceptsSelection(texts, b, sel)
  {
    SubsequenceOrdered(sel, groups);
    forall g | g in sel ensures Sorted(g) {
      assert g in groups;
      var k :| 0 <= k < |groups| && groups[k] == g;
      Segment(groups, k);
      SliceIncreasing(Concat(groups), Start(groups, k), Start(groups, k + 1));
    }
  }

  /** No index is in two places. */
  ghost predicate Disjoint(groups: seq<seq<nat>>) {
    forall k, j, l, m | 0 <= k < |groups| && 0 <= j < |groups[k]| && 0 <= l < |groups| && 0 <= m < |groups[l]| ::
      groups[k][j] == groups[l][m] ==> k == l && j == m
  }

  lemma {:induction false} StartMonotone(groups: seq<seq<nat>>, k: nat, l: nat)
    requires k <= l <= |groups|
    ensures Start(groups, k) <= Start(groups, l)
  {
    if k < l {
      StartMonotone(groups, k, l - 1);
    }
  }

  lemma SlotAt(groups: seq<seq<nat>>, k: nat, j: nat)
    requires k < |groups| && j < |groups[k]|
    ensures Start(groups, k) + j < |Concat(groups)|
    ensures Concat(groups)[Start(groups, k) + j] == groups[k][j]
  {
    Segment(groups, k);
    assert groups[k][j] == Concat(groups)[Start(groups, k)..Start(groups, k + 1)][j];
  }

  lemma SlotsDiffer(groups: seq<seq<nat>>, k: nat, j: nat, l: nat, m: nat)
    requires k < |groups| && j < |groups[k]| && l < |groups| && m < |groups[l]|
    requires Start(groups, k) + j == Start(groups, l) + m
    ensures k == l && j == m
  {
    if k < l {
      StartMonotone(groups, k + 1, l);
    } else if l < k {
      StartMonotone(groups, l + 1, k);
    }
  }

  lemma DistinctIsDisjoint(groups: seq<seq<nat>>)
    requires forall i, j | 0 <= i < j < |Concat(groups)| :: Concat(groups)[i] != Concat(groups)[j]
    ensures Disjoint(groups)
  {
    forall k, j, l, m | 0 <= k < |groups| && 0 <= j < |groups[k]| && 0 <= l < |groups| && 0 <= m < |groups[l]|
      && groups[k][j] == groups[l][m]
      ensures k == l && j == m
    {
      SlotAt(groups, k, j);
      SlotAt(groups, l, m);
      SlotsDiffer(groups, k, j, l, m);
    }
  }
}
