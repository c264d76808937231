/**
 The persistent translation cache (`CacheStore`): every transaction and every lock-protected section is
 one atomic step, so any interleaving of threads is a sequence of steps. The table is a map.
 */
module CacheStores {
  import opened Basics
  import opened Texts

  /** A SHA-256 digest; digests of one length compare as numbers do. */
  type Key = nat

  /** Times are instants of the UTC clock. */
  datatype Row = Row(value: string, created: int, accessed: int, hits: nat)

  datatype Entry = Entry(key: Key, value: string)

  datatype Settings = Settings(ttl: int, maxEntries: int, hitFlushThreshold: int) {
    predicate Legal() { ttl > 0 && maxEntries > 0 && hitFlushThreshold > 0 }

    /** After how many writes a prune is due: every thousand, or sooner for a small table. */
    function PruneThreshold(): int { if maxEntries < 1000 then maxEntries else 1000 }
  }

  // ---- Retention ------------------------------------------------------------

  function DeleteExpired(rows: map<Key, Row>, cutoff: int): map<Key, Row> {
    map k | k in rows && rows[k].created >= cutoff :: rows[k]
  }

  /** `ORDER BY last_accessed_at DESC, created_at DESC, cache_key DESC`. */
  predicate Outranks(rows: map<Key, Row>, a: Key, b: Key)
    requires a in rows && b in rows
  {
    var x, y := rows[a], rows[b];
    || x.accessed > y.accessed
    || (x.accessed == y.accessed && x.created > y.created)
    || (x.accessed == y.accessed && x.created == y.created && a > b)
  }

  /** The rows the ordering lists before row k; their number is the row's offset. */
  function Above(rows: map<Key, Row>, k: Key): set<Key>
    requires k in rows
  {
    set l | l in rows && Outranks(rows, l, k)
  }

  /** The delete of every row at offset `max` or beyond. */
  function EnforceCap(rows: map<Key, Row>, max: nat): map<Key, Row> {
    map k | k in rows && |Above(rows, k)| < max :: rows[k]
  }

  lemma Subsets(a: set<Key>, b: set<Key>)
    requires a <= b
    ensures |a| <= |b| && (a != b ==> |a| < |b|)
  {
    assert b == a + (b - a);
    if a != b {
      assert b - a != {};
    }
  }

  lemma AboveShrinks(rows: map<Key, Row>, high: Key, low: Key)
    requires high in rows && low in rows && Outranks(rows, high, low)
    ensures |Above(rows, high)| < |Above(rows, low)|
  {
    assert high in Above(rows, low) && high !in Above(rows, high);
    Subsets(Above(rows, high), Above(rows, low));
  }

  /** Every row kept is listed before every row dropped. */
  lemma CapKeepsTop(rows: map<Key, Row>, max: nat, kept: Key, dropped: Key)
    requires kept in EnforceCap(rows, max)
    requires dropped in rows && dropped !in EnforceCap(rows, max)
    ensures Outranks(rows, kept, dropped)
  {
    if !Outranks(rows, kept, dropped) {
      AboveShrinks(rows, dropped, kept);
    }
  }

  lemma OutranksChain(rows: map<Key, Row>, a: Key, b: Key, c: Key)
    requires a in rows && b in rows && c in rows
    requires Outranks(rows, a, b) && Outranks(rows, b, c)
    ensures Outranks(rows, a, c)
  {
  }

  /** A non-empty table has a row that every other row outranks. */
  lemma {:induction false} Last(rows: map<Key, Row>, keys: set<Key>) returns (last: Key)
    requires keys != {} && keys <= rows.Keys
    ensures last in keys && forall k | k in keys && k != last :: Outranks(rows, k, last)
    decreases |keys|
  {
    var k :| k in keys;
    last := k;
    if keys != {k} {
      Subsets(keys - {k}, keys);
      var other := Last(rows, keys - {k});
      last := if Outranks(rows, k, other) then other else k;
      forall l | l in keys && l != last ensures Outranks(rows, l, last) {
        if last == k && l != other {
          OutranksChain(rows, l, other, k);
        }
      }
    }
  }

  /** Removing the last row leaves the offsets of the others as they were. */
  lemma AboveWithoutLast(rows: map<Key, Row>, rest: map<Key, Row>, last: Key)
    requires last in rows && rest == map k | k in rows && k != last :: rows[k]
    requires forall k | k in rows && k != last :: Outranks(rows, k, last)
    ensures Above(rows, last) == rest.Keys
    ensures forall k | k in rest :: Above(rest, k) == Above(rows, k)
  {
    forall k | k in rest ensures Above(rest, k) == Above(rows, k) {
      assert !Outranks(rows, last, k);
      assert forall l | l in rest :: Outranks(rest, l, k) == Outranks(rows, l, k);
    }
  }

  lemma CapWithoutLast(rows: map<Key, Row>, rest: map<Key, Row>, last: Key, max: nat)
    requires last in rows && rest == map k | k in rows && k != last :: rows[k]
    requires forall k | k in rows && k != last :: Outranks(rows, k, last)
    ensures EnforceCap(rows, max).Keys == EnforceCap(rest, max).Keys + if |rest| < max then {last} else {}
    ensures last !in EnforceCap(rest, max)
  {
    AboveWithoutLast(rows, rest, last);
    assert |rest| == |rest.Keys|;
    forall k | k in rest ensures k in EnforceCap(rows, max) <==> k in EnforceCap(rest, max) {
      assert Above(rest, k) == Above(rows, k);
    }
    assert last in EnforceCap(rows, max) <==> |rest| < max;
  }

  /** Exactly `min(n, max)` rows survive. */
  lemma {:induction false} CapKeepsExactly(rows: map<Key, Row>, max: nat)
    ensures |EnforceCap(rows, max)| == if |rows| < max then |rows| else max
    decreases |rows|
  {
    if |rows| == 0 {
      assert EnforceCap(rows, max) == map[];
    } else {
      var last := Last(rows, rows.Keys);
      var rest := map k | k in rows && k != last :: rows[k];
      assert rest.Keys == rows.Keys - {last};
      CapKeepsExactly(rest, max);
      CapWithoutLast(rows, rest, last, max);
      assert |EnforceCap(rows, max)| == |EnforceCap(rows, max).Keys|;
      assert |EnforceCap(rest, max)| == |EnforceCap(rest, max).Keys|;
    }
  }

  function Upsert(rows: map<Key, Row>, entries: seq<Entry>, now: int): map<Key, Row> {
    if entries == [] then rows else
    var before := Upsert(rows, entries[..|entries| - 1], now);
    var e := entries[|entries| - 1];
    before[e.key := Row(e.value, now, now, if e.key in before then before[e.key].hits else 0)]
  }

  lemma {:induction false} UpsertFacts(rows: map<Key, Row>, entries: seq<Entry>, now: int, key: Key)
    ensures |Upsert(rows, entries, now)| <= |rows| + |entries|
    ensures key in rows ==> key in Upsert(rows, entries, now) && Upsert(rows, entries, now)[key].hits == rows[key].hits
  {
    if entries != [] {
      UpsertFacts(rows, entries[..|entries| - 1], now, key);
      var before := Upsert(rows, entries[..|entries| - 1], now);
      assert Upsert(rows, entries, now).Keys == before.Keys + {entries[|entries| - 1].key};
    }
  }

  // ---- The steps ------------------------------------------------------------

  /** Hits taken out of the pending counter by a flush that has not finished. */
  datatype Batch = Batch(hits: multiset<Key>, total: nat)

  datatype Ending = Committed | FailedBeforeCount | FailedAfterCount

  datatype Step =
    | QueueHit(key: Key)
    | TakePending
    | FlushCommit(now: int)
    | FlushRollback
    | FlushLost                     // an exception before the `try`, or from the rollback itself
    | Put(entries: seq<Entry>, now: int, cutoff: int, ending: Ending)
    | Expire(key: Key, created: int, cutoff: int)
    | Clean(cutoff: int)

  /**
   `pending` is the Counter. `unpaid` is ghost bookkeeping: how many writes were forgotten by prunes
   that were due but whose transaction failed.
   */
  datatype State = State(rows: map<Key, Row>, pending: multiset<Key>, pendingTotal: nat,
                         inFlight: Option<Batch>, writes: nat, unpaid: nat)

  /** Hits are added to the rows that still exist; the others are ignored. */
  function Credit(rows: map<Key, Row>, hits: multiset<Key>, now: int): map<Key, Row> {
    map k | k in rows ::
      if k in hits then rows[k].(hits := rows[k].hits + hits[k], accessed := now) else rows[k]
  }

  predicate Due(c: Settings, s: State, entries: seq<Entry>) {
    s.writes + |entries| >= c.PruneThreshold()
  }

  function Prune(c: Settings, rows: map<Key, Row>, cutoff: int): map<Key, Row>
    requires c.Legal()
  {
    EnforceCap(DeleteExpired(rows, cutoff), c.maxEntries)
  }

  function Apply(c: Settings, s: State, step: Step): State
    requires c.Legal()
  {
    match step
    case QueueHit(key) => s.(pending := s.pending + multiset{key}, pendingTotal := s.pendingTotal + 1)
    case TakePending =>
      if s.inFlight.Some? || s.pending == multiset{} then s
      else s.(inFlight := Some(Batch(s.pending, s.pendingTotal)), pending := multiset{}, pendingTotal := 0)
    case FlushCommit(now) =>
      if s.inFlight.None? then s
      else s.(rows := Credit(s.rows, s.inFlight.value.hits, now), inFlight := None)
    case FlushRollback =>
      if s.inFlight.None? then s
      else s.(pending := s.pending + s.inFlight.value.hits, pendingTotal := s.pendingTotal + s.inFlight.value.total,
              inFlight := None)
    case FlushLost => s.(inFlight := None)
    case Put(entries, now, cutoff, ending) =>
      var rows := Upsert(s.rows, entries, now);
      match ending {
        case Committed =>
          if Due(c, s, entries) then s.(rows := Prune(c, rows, cutoff), writes := 0, unpaid := 0)
          else s.(rows := rows, writes := s.writes + |entries|)
        case FailedBeforeCount => s
        case FailedAfterCount =>
          if Due(c, s, entries) then s.(writes := 0, unpaid := s.unpaid + s.writes)
          else s.(writes := s.writes + |entries|)
      }
    case Expire(key, created, cutoff) =>
      if created < cutoff && key in s.rows && s.rows[key].created == created
      then s.(rows := map k | k in s.rows && k != key :: s.rows[k])
      else s
    case Clean(cutoff) => s.(rows := Prune(c, s.rows, cutoff))
  }

  function Run(c: Settings, start: State, steps: seq<Step>): State
    requires c.Legal()
  {
    if steps == [] then start
    else Apply(c, Run(c, start, steps[..|steps| - 1]), steps[|steps| - 1])
  }

  lemma RunPrefix(c: Settings, start: State, steps: seq<Step>, n: nat)
    requires c.Legal() && n < |steps|
    ensures Run(c, start, steps[..n + 1]) == Apply(c, Run(c, start, steps[..n]), steps[n])
  {
    assert steps[..n + 1][..n] == steps[..n];
  }

  /** What `init` leaves behind: at most `max_entries` rows, nothing pending. */
  predicate Opened(c: Settings, s: State) {
    |s.rows| <= c.maxEntries && s == State(s.rows, multiset{}, 0, None, 0, 0)
  }

  // ---- Row count ------------------------------------------------------------

  predicate Retained(c: Settings, s: State) {
    |s.rows| <= c.maxEntries + s.writes + s.unpaid && s.writes < c.PruneThreshold()
  }

  lemma PruneSize(c: Settings, rows: map<Key, Row>, cutoff: int)
    requires c.Legal()
    ensures |Prune(c, rows, cutoff)| <= c.maxEntries && |Prune(c, rows, cutoff)| <= |rows|
  {
    CapKeepsExactly(DeleteExpired(rows, cutoff), c.maxEntries);
    Subsets(DeleteExpired(rows, cutoff).Keys, rows.Keys);
  }

  lemma StepRetains(c: Settings, s: State, step: Step)
    requires c.Legal() && Retained(c, s)
    ensures Retained(c, Apply(c, s, step))
  {
    match step
    case FlushCommit(now) =>
      if s.inFlight.Some? {
        assert Credit(s.rows, s.inFlight.value.hits, now).Keys == s.rows.Keys;
      }
    case Put(entries, now, cutoff, ending) =>
      UpsertFacts(s.rows, entries, now, 0);
      PruneSize(c, Upsert(s.rows, entries, now), cutoff);
    case Expire(key, created, cutoff) =>
      Subsets((map k | k in s.rows && k != key :: s.rows[k]).Keys, s.rows.Keys);
    case Clean(cutoff) => PruneSize(c, s.rows, cutoff);
    case _ =>
  }

  /** Under every interleaving the table exceeds its cap by no more than the writes not yet paid for. */
  lemma {:induction false} RunRetains(c: Settings, start: State, steps: seq<Step>, n: nat)
    requires c.Legal() && Opened(c, start) && n <= |steps|
    ensures Retained(c, Run(c, start, steps[..n]))
  {
    if n > 0 {
      RunRetains(c, start, steps, n - 1);
      RunPrefix(c, start, steps, n - 1);
      StepRetains(c, Run(c, start, steps[..n - 1]), steps[n - 1]);
    }
  }

  /** No transaction fails once a prune is due and the counter is reset. */
  predicate NoPruneFails(c: Settings, start: State, steps: seq<Step>)
    requires c.Legal()
  {
    forall i | 0 <= i < |steps| :: !FailsPrune(c, Run(c, start, steps[..i]), steps[i])
  }

  predicate FailsPrune(c: Settings, s: State, step: Step) {
    step.Put? && step.ending == FailedAfterCount && Due(c, s, step.entries)
  }

  /** Only a failing due prune leaves writes unpaid, and as many as the counter held. */
  lemma OwesStep(c: Settings, s: State, step: Step)
    requires c.Legal() && s.unpaid == 0 && (s.writes == 0 || !FailsPrune(c, s, step))
    ensures Apply(c, s, step).unpaid == 0
  {
  }

  lemma {:induction false} NothingUnpaid(c: Settings, start: State, steps: seq<Step>, n: nat)
    requires c.Legal() && Opened(c, start) && NoPruneFails(c, start, steps) && n <= |steps|
    ensures Run(c, start, steps[..n]).unpaid == 0
  {
    if n > 0 {
      NothingUnpaid(c, start, steps, n - 1);
      RunPrefix(c, start, steps, n - 1);
      OwesStep(c, Run(c, start, steps[..n - 1]), steps[n - 1]);
    }
  }

  predicate Bounded(c: Settings, s: State) {
    |s.rows| <= c.maxEntries + c.PruneThreshold() - 1
  }

  /** If no due prune fails, the table never holds more than `max_entries + min(1000, max_entries) - 1` rows. */
  lemma RowCountBound(c: Settings, start: State, steps: seq<Step>, n: nat)
    requires c.Legal() && Opened(c, start) && n <= |steps|
    ensures NoPruneFails(c, start, steps) || Run(c, start, steps[..n]).unpaid == 0 ==> Bounded(c, Run(c, start, steps[..n]))
  {
    RunRetains(c, start, steps, n);
    if NoPruneFails(c, start, steps) {
      NothingUnpaid(c, start, steps, n);
    }
  }

  /** With one entry every write prunes, so nothing can be forgotten. */
  lemma {:induction false} OneEntryOwesNothing(c: Settings, start: State, steps: seq<Step>, n: nat)
    requires c.Legal() && c.maxEntries == 1 && Opened(c, start) && n <= |steps|
    ensures Run(c, start, steps[..n]).unpaid == 0
  {
    if n > 0 {
      OneEntryOwesNothing(c, start, steps, n - 1);
      RunPrefix(c, start, steps, n - 1);
      RunRetains(c, start, steps, n - 1);
      var s := Run(c, start, steps[..n - 1]);
      assert s.writes == 0 by {
        assert Retained(c, s) && c.PruneThreshold() == 1;
      }
      OwesStep(c, s, steps[n - 1]);
    }
  }

  ghost predicate AlwaysBounded(c: Settings)
    requires c.Legal()
  {
    forall start, steps :: Opened(c, start) ==> Bounded(c, Run(c, start, steps))
  }

  /** Whatever fails, the bound holds on every run exactly for a cache of one entry. */
  lemma FailedPruneBreaksBound(c: Settings)
    requires c.Legal()
    ensures AlwaysBounded(c) <==> c.maxEntries == 1
  {
    if c.maxEntries == 1 {
      forall start, steps | Opened(c, start) ensures Bounded(c, Run(c, start, steps)) {
        assert steps[..|steps|] == steps;
        OneEntryOwesNothing(c, start, steps, |steps|);
        RowCountBound(c, start, steps, |steps|);
      }
    } else {
      var start, steps := Overflow(c);
    }
  }

  /** A full table, writes up to one below the threshold, a due prune whose commit fails, and one more write. */
  lemma Overflow(c: Settings) returns (start: State, steps: seq<Step>)
    requires c.Legal() && c.maxEntries > 1
    ensures Opened(c, start) && !Bounded(c, Run(c, start, steps))
    ensures |steps| == 3 && forall i | 0 <= i < 3 :: steps[i].Put? && (steps[i].ending == Committed <==> i != 1)
  {
    var m, t := c.maxEntries, c.PruneThreshold();
    start := State(Rows(m), multiset{}, 0, None, 0, 0);
    steps := [Put(Fill(m, t - 1), 0, 0, Committed), PutOne(m, FailedAfterCount), PutOne(m + t - 1, Committed)];
    RunThree(c, start, steps);
    FillStep(c, start, m, t - 1);
    var full := start.(rows := Rows(m + t - 1), writes := t - 1);
    FailStep(c, full, m);
    PutOneNotDue(c, full.(writes := 0, unpaid := t - 1), m + t - 1);
    assert Run(c, start, steps).rows == Rows(m + t);
  }

  lemma FillStep(c: Settings, s: State, from: nat, n: nat)
    requires c.Legal() && s.rows == Rows(from) && s.writes == 0 && n < c.PruneThreshold()
    ensures Apply(c, s, Put(Fill(from, n), 0, 0, Committed)) == s.(rows := Rows(from + n), writes := n)
  {
    UpsertRows(from, n);
  }

  lemma FailStep(c: Settings, s: State, key: Key)
    requires c.Legal() && s.writes + 1 >= c.PruneThreshold()
    ensures Apply(c, s, PutOne(key, FailedAfterCount)) == s.(writes := 0, unpaid := s.unpaid + s.writes)
  {
  }

  /** The rows of the keys below n. */
  function Rows(n: nat): (rows: map<Key, Row>)
    ensures |rows| == n && forall k: Key :: k in rows <==> k < n
  {
    if n == 0 then map[] else Rows(n - 1)[n - 1 := Row("text", 0, 0, 0)]
  }

  /** n entries for the keys from `from` on. */
  function Fill(from: nat, n: nat): seq<Entry> {
    seq(n, i requires 0 <= i => Entry(from + i, "text"))
  }

  lemma {:induction false} UpsertRows(from: nat, n: nat)
    ensures Upsert(Rows(from), Fill(from, n), 0) == Rows(from + n)
  {
    if n > 0 {
      UpsertRows(from, n - 1);
      assert Fill(from, n)[..n - 1] == Fill(from, n - 1);
    }
  }

  function PutOne(key: Key, ending: Ending): Step {
    Put([Entry(key, "text")], 0, 0, ending)
  }

  lemma PutOneNotDue(c: Settings, s: State, key: Key)
    requires c.Legal() && key !in s.rows && s.writes + 1 < c.PruneThreshold()
    ensures Apply(c, s, PutOne(key, Committed)) == s.(rows := s.rows[key := Row("text", 0, 0, 0)], writes := s.writes + 1)
  {
    var entries := [Entry(key, "text")];
    assert entries[..0] == [];
    assert Upsert(s.rows, entries[..0], 0) == s.rows;
  }

  lemma RunThree(c: Settings, start: State, steps: seq<Step>)
    requires c.Legal() && |steps| == 3
    ensures Run(c, start, steps) == Apply(c, Apply(c, Apply(c, start, steps[0]), steps[1]), steps[2])
  {
    RunPrefix(c, start, steps, 0);
    RunPrefix(c, start, steps, 1);
    RunPrefix(c, start, steps, 2);
    assert steps[..3] == steps && steps[..0] == [];
  }

  // ---- Expiry ---------------------------------------------------------------

  /**
   The delete of an expiring `get` cannot remove a row that is unexpired when the delete happens,
   whatever was written between its read and its delete, as long as the clock does not run backwards.
   */
  lemma ExpireSparesFresh(c: Settings, s: State, key: Key, created: int, readAt: int, deletedAt: int, k: Key)
    requires c.Legal() && readAt <= deletedAt
    requires k in s.rows && s.rows[k].created >= deletedAt - c.ttl
    ensures var after := Apply(c, s, Expire(key, created, readAt - c.ttl));
            k in after.rows && after.rows[k] == s.rows[k]
  {
  }

  // ---- Hit accounting -------------------------------------------------------

  predicate TotalsAgree(s: State) {
    s.pendingTotal == |s.pending| && (s.inFlight.Some? ==> s.inFlight.value.total == |s.inFlight.value.hits|)
  }

  lemma TotalsStep(c: Settings, s: State, step: Step)
    requires c.Legal() && TotalsAgree(s)
    ensures TotalsAgree(Apply(c, s, step))
  {
  }

  /** The pending total is always the sum of the per-key counts. */
  lemma {:induction false} PendingTotalIsSum(c: Settings, start: State, steps: seq<Step>, n: nat)
    requires c.Legal() && Opened(c, start) && n <= |steps|
    ensures TotalsAgree(Run(c, start, steps[..n]))
  {
    if n > 0 {
      PendingTotalIsSum(c, start, steps, n - 1);
      RunPrefix(c, start, steps, n - 1);
      TotalsStep(c, Run(c, start, steps[..n - 1]), steps[n - 1]);
    }
  }

  /** Written, in-flight and pending hits of a key that has a row. */
  function Balance(s: State, key: Key): nat
    requires key in s.rows
  {
    s.rows[key].hits + s.pending[key] + if s.inFlight.Some? then s.inFlight.value.hits[key] else 0
  }

  function Queued(steps: seq<Step>, n: nat, key: Key): nat
    requires n <= |steps|
  {
    if n == 0 then 0
    else Queued(steps, n - 1, key) + if steps[n - 1] == QueueHit(key) then 1 else 0
  }

  /** Hits that were in flight when a flush failed without restoring them. */
  function Dropped(c: Settings, start: State, steps: seq<Step>, n: nat, key: Key): nat
    requires c.Legal() && n <= |steps|
  {
    if n == 0 then 0 else
    var s := Run(c, start, steps[..n - 1]);
    Dropped(c, start, steps, n - 1, key)
    + if steps[n - 1].FlushLost? && s.inFlight.Some? then s.inFlight.value.hits[key] else 0
  }

  predicate HasRow(c: Settings, start: State, steps: seq<Step>, n: nat, key: Key)
    requires c.Legal() && n <= |steps|
  {
    key in Run(c, start, steps[..n]).rows
  }

  /** The row is in the table throughout the run. */
  predicate Survives(c: Settings, start: State, steps: seq<Step>, key: Key)
    requires c.Legal()
  {
    forall n | 0 <= n <= |steps| :: HasRow(c, start, steps, n, key)
  }

  lemma BalanceStep(c: Settings, s: State, step: Step, key: Key)
    requires c.Legal() && key in s.rows && key in Apply(c, s, step).rows
    ensures Balance(Apply(c, s, step), key)
            + (if step.FlushLost? && s.inFlight.Some? then s.inFlight.value.hits[key] else 0)
            == Balance(s, key) + if step == QueueHit(key) then 1 else 0
  {
    if step.Put? {
      UpsertFacts(s.rows, step.entries, step.now, key);
    }
  }

  lemma ConservedStep(c: Settings, start: State, steps: seq<Step>, n: nat, key: Key, initial: int)
    requires c.Legal() && n < |steps|
    requires HasRow(c, start, steps, n, key) && HasRow(c, start, steps, n + 1, key)
    requires Balance(Run(c, start, steps[..n]), key) + Dropped(c, start, steps, n, key) == initial + Queued(steps, n, key)
    ensures Balance(Run(c, start, steps[..n + 1]), key) + Dropped(c, start, steps, n + 1, key)
            == initial + Queued(steps, n + 1, key)
  {
    RunPrefix(c, start, steps, n);
    BalanceStep(c, Run(c, start, steps[..n]), steps[n], key);
  }

  /**
   For a row that survives the run, written plus pending hits account for every queued hit, through
   concurrent, committed and rolled-back flushes, except for hits dropped by a flush that failed
   before its `try` or whose rollback raised.
   */
  lemma {:induction false} HitsConserved(c: Settings, start: State, steps: seq<Step>, n: nat, key: Key)
    requires c.Legal() && n <= |steps| && Survives(c, start, steps, key)
    ensures key in start.rows && HasRow(c, start, steps, n, key)
    ensures Balance(Run(c, start, steps[..n]), key) + Dropped(c, start, steps, n, key)
            == Balance(start, key) + Queued(steps, n, key)
  {
    assert HasRow(c, start, steps, n, key);
    if n == 0 {
      assert steps[..0] == [];
    } else {
      assert HasRow(c, start, steps, n - 1, key);
      HitsConserved(c, start, steps, n - 1, key);
      ConservedStep(c, start, steps, n - 1, key, Balance(start, key));
    }
  }

  /** A flush whose connection cannot be opened forgets the hits it had taken. */
  lemma FlushCanLoseHits(c: Settings, start: State, key: Key)
    requires c.Legal() && Opened(c, start) && key in start.rows
    ensures var steps := [QueueHit(key), TakePending, FlushLost];
            && Survives(c, start, steps, key) && HasRow(c, start, steps, 3, key)
            && Balance(Run(c, start, steps[..3]), key) < Balance(start, key) + Queued(steps, 3, key)
  {
    var steps := [QueueHit(key), TakePending, FlushLost];
    RunThree(c, start, steps);
    RunPrefix(c, start, steps, 0);
    RunPrefix(c, start, steps, 1);
    var queued := start.(pending := multiset{key}, pendingTotal := 1);
    assert Run(c, start, steps[..1]) == queued;
    assert Run(c, start, steps[..2]) == start.(inFlight := Some(Batch(multiset{key}, 1)));
    forall n | 0 <= n <= 3 ensures HasRow(c, start, steps, n, key) {
      assert n == 0 || n == 1 || n == 2 || n == 3;
      assert steps[..3] == steps && steps[..0] == [];
    }
    HitsConserved(c, start, steps, 3, key);
    assert Dropped(c, start, steps, 3, key) == Dropped(c, start, steps, 2, key) + 1;
  }

  // ---- The store ------------------------------------------------------------

  datatype PutResult = Stored | ValueError | PutRaised

  datatype FlushResult = Flushed(count: nat) | FlushRaised

  datatype GetResult = Hit(value: string) | Miss | GetRaised

  predicate IsFlush(step: Step) {
    step.TakePending? || step.FlushCommit? || step.FlushRollback? || step.FlushLost?
  }

  lemma RunAppend(c: Settings, start: State, steps: seq<Step>, step: Step)
    requires c.Legal()
    ensures Run(c, start, steps + [step]) == Apply(c, Run(c, start, steps), step)
  {
    assert (steps + [step])[..|steps|] == steps;
  }

  /** None of these sections is one of a flush. */
  ghost predicate Quiet(trace: seq<Step>, from: int, to: int) {
    forall i | from <= i < to && 0 <= i < |trace| :: !IsFlush(trace[i])
  }

  /** The last section of a flush that had taken `batch`, and what the flush then returns. */
  predicate Ends(step: Step, batch: Batch, r: FlushResult) {
    match r
    case Flushed(n) => step.FlushCommit? && n == batch.total
    case FlushRaised => step.FlushRollback? || step.FlushLost?
  }

  /** A row that was in the table, unexpired at `cutoff`, after some step between `from` and `to`. */
  ghost predicate SeenFresh(c: Settings, start: State, steps: seq<Step>, from: nat, key: Key, value: string, cutoff: int)
    requires c.Legal()
  {
    exists n :: from <= n <= |steps| && FreshAt(Run(c, start, steps[..n]), key, value, cutoff)
  }

  predicate FreshAt(s: State, key: Key, value: string, cutoff: int) {
    key in s.rows && s.rows[key].value == value && s.rows[key].created >= cutoff
  }

  class CacheStore {
    const c: Settings
    var rows: map<Key, Row>
    var pendingHits: multiset<Key>
    var pendingHitsTotal: nat
    var writesSincePrune: nat
    var inFlight: Option<Batch>     // the local variables of the thread that holds the flush lock
    ghost var unpaid: nat
    ghost const start: State
    ghost var trace: seq<Step>      // every section of every thread so far

    ghost function Current(): State
      reads this
    {
      State(rows, pendingHits, pendingHitsTotal, inFlight, writesSincePrune, unpaid)
    }

    ghost predicate Valid()
      reads this
    {
      c.Legal() && Opened(c, start) && Current() == Run(c, start, trace)
    }

    /** `init` on an existing table. */
    constructor (c: Settings, table: map<Key, Row>, now: int)
      requires c.Legal()
      ensures Valid() && trace == [] && this.c == c && rows == Prune(c, table, now - c.ttl)
    {
      PruneSize(c, table, now - c.ttl);
      this.c := c;
      rows := EnforceCap(DeleteExpired(table, now - c.ttl), c.maxEntries);
      pendingHits, pendingHitsTotal, writesSincePrune := multiset{}, 0, 0;
      inFlight, unpaid, trace := None, 0, [];
      start := State(Prune(c, table, now - c.ttl), multiset{}, 0, None, 0, 0);
    }

    /** Sections of other threads; none of them flushes while this thread holds the flush lock. */
    method Interleave(holdsFlushLock: bool)
      requires Valid()
      modifies this
      ensures Valid() && old(trace) <= trace
      ensures holdsFlushLock ==> inFlight == old(inFlight) && Quiet(trace, |old(trace)|, |trace|)
    {
    }

    /** Waits until the thread that holds the flush lock has finished. */
    method AcquireFlushLock()
      requires Valid()
      modifies this
      ensures Valid() && old(trace) <= trace && inFlight == None
    {
      Interleave(false);
      if inFlight.Some? {
        var now: int := *;
        CommitHits(now, inFlight.value);
      }
    }

    /** The section of `_queue_hit` under the pending lock. */
    method CountHit(key: Key) returns (shouldFlush: bool)
      requires Valid()
      modifies this
      ensures Valid() && trace == old(trace) + [Step.QueueHit(key)]
      ensures shouldFlush == (pendingHitsTotal >= c.hitFlushThreshold)
    {
      ghost var before := Current();
      pendingHits := pendingHits + multiset{key};
      pendingHitsTotal := pendingHitsTotal + 1;
      NoteStep(before, Step.QueueHit(key));
      shouldFlush := pendingHitsTotal >= c.hitFlushThreshold;
    }

    /** `_queue_hit`; `false` when the flush it triggered raised. */
    method QueueHit(key: Key) returns (ok: bool)
      requires Valid()
      modifies this
      ensures Valid() && old(trace) < trace && trace[|old(trace)|] == Step.QueueHit(key)
    {
      var shouldFlush := CountHit(key);
      ok := true;
      if shouldFlush {
        var r, _, _ := FlushHits();
        ok := r.Flushed?;
      }
    }

    /** The first section of `flush_hits`: swap the counter for an empty one. */
    method TakeHits() returns (taken: Option<Batch>)
      requires Valid() && inFlight == None
      modifies this
      ensures Valid() && trace == old(trace) + [TakePending] && taken == inFlight
      ensures taken.None? <==> old(pendingHits) == multiset{}
    {
      RunAppend(c, start, trace, TakePending);
      trace := trace + [TakePending];
      if pendingHits == multiset{} {
        return None;
      }
      taken := Some(Batch(pendingHits, pendingHitsTotal));
      pendingHits, pendingHitsTotal := multiset{}, 0;
      inFlight := taken;
    }

    method CommitHits(now: int, taken: Batch)
      requires Valid() && inFlight == Some(taken)
      modifies this
      ensures Valid() && trace == old(trace) + [FlushCommit(now)] && inFlight == None
    {
      ghost var before := Current();
      rows := Credit(rows, taken.hits, now);
      inFlight := None;
      NoteStep(before, FlushCommit(now));
    }

    /** The rollback branch: the taken hits go back into the counter, under the pending lock. */
    method RestoreHits(taken: Batch)
      requires Valid() && inFlight == Some(taken)
      modifies this
      ensures Valid() && trace == old(trace) + [FlushRollback] && inFlight == None
    {
      ghost var before := Current();
      pendingHits := pendingHits + taken.hits;
      pendingHitsTotal := pendingHitsTotal + taken.total;
      inFlight := None;
      NoteStep(before, FlushRollback);
    }

    /** An exception from `connection()`, the clock or `rollback()`: the thread's local batch is gone. */
    method LoseHits()
      requires Valid() && inFlight.Some?
      modifies this
      ensures Valid() && trace == old(trace) + [FlushLost] && inFlight == None
    {
      ghost var before := Current();
      inFlight := None;
      NoteStep(before, FlushLost);
    }

    /** `flush_hits` after the hits were taken: open the connection, then commit, or roll back and restore. */
    method WriteHits(batch: Batch) returns (r: FlushResult)
      requires Valid() && inFlight == Some(batch)
      modifies this
      ensures Valid() && inFlight == None && old(trace) < trace
      ensures Quiet(trace, |old(trace)|, |trace| - 1) && Ends(trace[|trace| - 1], batch, r)
    {
      Interleave(true);
      var connected, committed: bool := *, *;
      if !connected {
        LoseHits();
        r := FlushRaised;
      } else if committed {
        var now: int := *;
        CommitHits(now, batch);
        r := Flushed(batch.total);
      } else {
        var rolledBack: bool := *;
        if rolledBack {
          RestoreHits(batch);
        } else {
          LoseHits();
        }
        r := FlushRaised;
      }
    }

    /** `flush_hits`: takes everything pending, and either commits exactly that or raises. */
    method FlushHits() returns (r: FlushResult, ghost taken: Option<Batch>, ghost at: nat)
      requires Valid()
      modifies this
      ensures Valid() && inFlight == None && |old(trace)| <= at < |trace| && old(trace) <= trace
      ensures trace[at] == TakePending && taken == Run(c, start, trace[..at + 1]).inFlight
      ensures taken.None? ==> r == Flushed(0) && |trace| == at + 1
      ensures taken.Some? ==>
                && at + 1 < |trace| && Quiet(trace, at + 1, |trace| - 1)
                && Ends(trace[|trace| - 1], taken.value, r)
    {
      AcquireFlushLock();
      at := |trace|;
      var pending := TakeHits();
      taken := pending;
      ghost var afterTake := trace;
      assert Current().inFlight == taken;
      r := Flushed(0);
      if pending.Some? {
        r := WriteHits(pending.value);
      }
      assert trace[..at + 1] == afterTake;
    }

    /** `get`, for the key computed from its arguments. */
    method Get(key: Key, recordHit: bool, now: int) returns (r: GetResult)
      requires Valid()
      modifies this
      ensures Valid() && old(trace) <= trace
      ensures r.Hit? ==> SeenFresh(c, start, trace, |old(trace)|, key, r.value, now - c.ttl)
      ensures !recordHit && r.Hit? ==> forall i | |old(trace)| <= i < |trace| :: trace[i] != Step.QueueHit(key)
    {
      var cutoff := now - c.ttl;
      if key !in rows {
        return Miss;
      }
      var row := rows[key];
      if row.created < cutoff {
        Interleave(false);
        var committed: bool := *;
        if !committed {
          return GetRaised;
        }
        DeleteRow(key, row.created, cutoff);
        return Miss;
      }
      assert trace[..|trace|] == trace;
      assert FreshAt(Run(c, start, old(trace)), key, row.value, cutoff);
      if recordHit {
        var ok := QueueHit(key);
        assert trace[..|old(trace)|] == old(trace);
        if !ok {
          return GetRaised;
        }
      }
      r := Hit(row.value);
    }

    /** Deletes the row only if it is still the one that was read. */
    method DeleteRow(key: Key, created: int, ghost cutoff: int)
      requires Valid() && created < cutoff
      modifies this
      ensures Valid() && trace == old(trace) + [Expire(key, created, cutoff)]
    {
      ghost var before := Current();
      if key in rows && rows[key].created == created {
        rows := map k | k in rows && k != key :: rows[k];
      }
      NoteStep(before, Expire(key, created, cutoff));
    }

    /** `put_many`: one transaction, with the prune counter advanced inside it. */
    method PutMany(entries: seq<Entry>, now: int) returns (r: PutResult)
      requires Valid()
      modifies this
      ensures Valid()
      ensures r.ValueError? <==> entries == [] || exists i :: 0 <= i < |entries| && Blank(entries[i].value)
      ensures r.ValueError? ==> trace == old(trace)
      ensures !r.ValueError? ==>
                && |trace| == |old(trace)| + 1 && old(trace) < trace
                && trace[|old(trace)|].Put? && trace[|old(trace)|].entries == entries && trace[|old(trace)|].now == now
                && (r.Stored? <==> trace[|old(trace)|].ending.Committed?)
    {
      if entries == [] {
        return ValueError;
      }
      for i := 0 to |entries|
        invariant forall j | 0 <= j < i :: !Blank(entries[j].value)
      {
        if Blank(entries[i].value) {
          return ValueError;
        }
      }
      var pruneNow: int := *;
      var cutoff := pruneNow - c.ttl;
      var upsertFails, commitFails: bool := *, *;
      if upsertFails {
        Note(Put(entries, now, cutoff, FailedBeforeCount));
        return PutRaised;
      }
      var table := UpsertAll(rows, entries, now);
      ghost var before := Current();
      writesSincePrune := writesSincePrune + |entries|;
      var due := writesSincePrune >= c.PruneThreshold();
      if due {
        writesSincePrune := 0;
        table := EnforceCap(DeleteExpired(table, cutoff), c.maxEntries);
      }
      if commitFails {
        unpaid := if due then unpaid + before.writes else unpaid;
        NoteStep(before, Put(entries, now, cutoff, FailedAfterCount));
        return PutRaised;
      }
      rows := table;
      unpaid := if due then 0 else unpaid;
      NoteStep(before, Put(entries, now, cutoff, Committed));
      return Stored;
    }

    ghost method Note(step: Step)
      requires Valid() && Apply(c, Current(), step) == Current()
      modifies this`trace
      ensures Valid() && trace == old(trace) + [step]
    {
      NoteStep(Current(), step);
    }

    /** Records a section whose effect on the fields has just been carried out. */
    ghost method NoteStep(before: State, step: Step)
      requires c.Legal() && Opened(c, start) && before == Run(c, start, trace) && Current() == Apply(c, before, step)
      modifies this`trace
      ensures Valid() && trace == old(trace) + [step]
    {
      RunAppend(c, start, trace, step);
      trace := trace + [step];
    }

    /** The retention transaction of `cleanup` and `stats`. */
    method Clean(cutoff: int) returns (ok: bool)
      requires Valid()
      modifies this
      ensures Valid() && trace == old(trace) + if ok then [Step.Clean(cutoff)] else []
      ensures ok ==> rows == Prune(c, old(rows), cutoff)
    {
      ok := *;
      if ok {
        ghost var before := Current();
        rows := EnforceCap(DeleteExpired(rows, cutoff), c.maxEntries);
        NoteStep(before, Step.Clean(cutoff));
      }
    }
  }

  method UpsertAll(rows: map<Key, Row>, entries: seq<Entry>, now: int) returns (table: map<Key, Row>)
    ensures table == Upsert(rows, entries, now)
  {
    table := rows;
    for i := 0 to |entries|
      invariant table == Upsert(rows, entries[..i], now)
    {
      var e := entries[i];
      var hits := if e.key in table then table[e.key].hits else 0;
      table := table[e.key := Row(e.value, now, now, hits)];
      assert entries[..i + 1][..i] == entries[..i];
    }
    assert entries[..|entries|] == entries;
  }
}
