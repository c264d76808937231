/**
 The browser session broker (`ReaderSessionBroker`): an ordered map of sessions, least recently used
 first. Each section under the lock is one atomic step. Keyed digests are injective, so a session is
 kept under its token and with its binding; a subject stands for the upstream identity.
 */
module SessionBrokers {
  import opened Basics

  datatype Binding = Binding(address: string, userAgent: string)

  datatype Session = Session(token: string, subject: string, expiresAt: real, binding: Binding)

  datatype Settings = Settings(ttlSeconds: real, maxEntries: int) {
    predicate Legal() { ttlSeconds > 0.0 && maxEntries > 0 }
  }

  /** The lock-protected sections of `exchange`, `authenticate` and `_remove_token`. */
  datatype Step =
    | Exchange(prior: Option<string>, issued: Session, now: real)
    | Authenticate(token: string, binding: Binding, now: real)
    | Remove(token: string)

  predicate TokenChar(ch: char) {
    'a' <= ch <= 'z' || 'A' <= ch <= 'Z' || '0' <= ch <= '9' || ch == '_' || ch == '-'
  }

  /** `_TOKEN_RE`. */
  predicate TokenShaped(s: string) {
    32 <= |s| <= 128 && forall i | 0 <= i < |s| :: TokenChar(s[i])
  }

  // ---- The ordered map ------------------------------------------------------

  function Filter(ss: seq<Session>, p: Session -> bool): seq<Session> {
    if ss == [] then []
    else Filter(ss[..|ss| - 1], p) + if p(ss[|ss| - 1]) then [ss[|ss| - 1]] else []
  }

  /** `a` comes before `b`. */
  ghost predicate Precedes(ss: seq<Session>, a: Session, b: Session) {
    exists k, l :: 0 <= k < l < |ss| && ss[k] == a && ss[l] == b
  }

  /** A filter keeps exactly the elements it should, in the order they were. */
  lemma {:induction false} FilterFacts(ss: seq<Session>, p: Session -> bool)
    ensures forall s :: s in Filter(ss, p) <==> s in ss && p(s)
    ensures |Filter(ss, p)| <= |ss|
    ensures forall i, j | 0 <= i < j < |Filter(ss, p)| :: Precedes(ss, Filter(ss, p)[i], Filter(ss, p)[j])
  {
    if ss != [] {
      var init, last := ss[..|ss| - 1], ss[|ss| - 1];
      FilterFacts(init, p);
      var r := Filter(ss, p);
      assert ss == init + [last];
      forall i, j | 0 <= i < j < |r| ensures Precedes(ss, r[i], r[j]) {
        if j < |Filter(init, p)| {
          assert Precedes(init, r[i], r[j]);
          var k, l :| 0 <= k < l < |init| && init[k] == r[i] && init[l] == r[j];
          assert ss[k] == r[i] && ss[l] == r[j];
        } else {
          assert r[i] in init;
          var k :| 0 <= k < |init| && init[k] == r[i];
          assert ss[k] == r[i] && ss[|ss| - 1] == r[j];
        }
      }
    }
  }

  function Other(token: string): Session -> bool {
    (s: Session) => s.token != token
  }

  function LiveAt(now: real): Session -> bool {
    (s: Session) => s.expiresAt > now
  }

  /** The map without the session of this token, if there is one. */
  function Drop(ss: seq<Session>, token: string): seq<Session> {
    Filter(ss, Other(token))
  }

  /** The purge of `exchange`: everything expired at its clock reading. */
  function Purge(ss: seq<Session>, now: real): seq<Session> {
    Filter(ss, LiveAt(now))
  }

  /** The most recent sessions, as many as the cap allows. */
  function Trim(ss: seq<Session>, max: nat): seq<Session> {
    if |ss| > max then ss[|ss| - max..] else ss
  }

  function Find(ss: seq<Session>, token: string): (r: Option<Session>)
    ensures r.Some? ==> r.value in ss && r.value.token == token
    ensures r.None? ==> forall s | s in ss :: s.token != token
  {
    if ss == [] then None
    else if ss[|ss| - 1].token == token then Some(ss[|ss| - 1])
    else Find(ss[..|ss| - 1], token)
  }

  // ---- The steps ------------------------------------------------------------

  /** The subject an `Authenticate` section returns; `None` is a rejection. */
  function Admitted(ss: seq<Session>, step: Step): Option<string>
    requires step.Authenticate?
  {
    match Find(ss, step.token)
    case None => None
    case Some(s) => if s.expiresAt <= step.now || s.binding != step.binding then None else Some(s.subject)
  }

  function DropPrior(ss: seq<Session>, prior: Option<string>): seq<Session> {
    if prior.Some? && TokenShaped(prior.value) then Drop(ss, prior.value) else ss
  }

  /** `exchange` before its eviction loop. */
  function Unbounded(ss: seq<Session>, step: Step): seq<Session>
    requires step.Exchange?
  {
    Purge(Drop(DropPrior(ss, step.prior), step.issued.token) + [step.issued], step.now)
  }

  function Apply(c: Settings, ss: seq<Session>, step: Step): seq<Session>
    requires c.Legal()
  {
    match step
    case Exchange(prior, issued, now) => Trim(Unbounded(ss, step), c.maxEntries)
    case Authenticate(token, binding, now) =>
      (match Find(ss, token)
       case None => ss
       case Some(s) =>
         if s.expiresAt <= now then Drop(ss, token)
         else if s.binding != binding then ss
         else Drop(ss, token) + [s])
    case Remove(token) => Drop(ss, token)
  }

  predicate Fair(c: Settings, step: Step) {
    step.Exchange? ==> step.issued.expiresAt == step.now + c.ttlSeconds
  }

  function RunAll(c: Settings, steps: seq<Step>): seq<Session>
    requires c.Legal()
  {
    if steps == [] then [] else Apply(c, RunAll(c, steps[..|steps| - 1]), steps[|steps| - 1])
  }

  /** The map after the first n sections. */
  function Run(c: Settings, steps: seq<Step>, n: nat): seq<Session>
    requires c.Legal() && n <= |steps|
  {
    RunAll(c, steps[..n])
  }

  lemma RunStep(c: Settings, steps: seq<Step>, n: nat)
    requires c.Legal() && n < |steps|
    ensures Run(c, steps, n + 1) == Apply(c, Run(c, steps, n), steps[n])
  {
    assert steps[..n + 1][..n] == steps[..n];
  }

  // ---- Bounds ---------------------------------------------------------------

  /** At most `max_entries` sessions exist after every section. */
  lemma {:induction false} SessionsBounded(c: Settings, steps: seq<Step>, n: nat)
    requires c.Legal() && n <= |steps|
    ensures |Run(c, steps, n)| <= c.maxEntries
    ensures Unique(Run(c, steps, n))
  {
    if n > 0 {
      SessionsBounded(c, steps, n - 1);
      RunStep(c, steps, n - 1);
      StepBounded(c, Run(c, steps, n - 1), steps[n - 1]);
    }
  }

  ghost predicate Unique(ss: seq<Session>) {
    forall i, j | 0 <= i < j < |ss| :: ss[i].token != ss[j].token
  }

  lemma FilterUnique(ss: seq<Session>, p: Session -> bool)
    requires Unique(ss)
    ensures Unique(Filter(ss, p))
  {
    FilterFacts(ss, p);
    var r := Filter(ss, p);
    forall i, j | 0 <= i < j < |r| ensures r[i].token != r[j].token {
      assert Precedes(ss, r[i], r[j]);
    }
  }

  /** A session moved or added to the end after its token was dropped. */
  lemma DropAppend(ss: seq<Session>, s: Session)
    requires Unique(ss)
    ensures Unique(Drop(ss, s.token) + [s])
    ensures Find(ss, s.token).Some? ==> |Drop(ss, s.token)| < |ss|
  {
    FilterUnique(ss, Other(s.token));
    FilterFacts(ss, Other(s.token));
    var rest := Drop(ss, s.token);
    forall i | 0 <= i < |rest| ensures rest[i].token != s.token {
      assert rest[i] in rest;
    }
    DropShrinks(ss, s.token);
  }

  lemma {:induction false} DropShrinks(ss: seq<Session>, token: string)
    ensures Find(ss, token).Some? ==> |Drop(ss, token)| < |ss|
  {
    if ss != [] {
      DropShrinks(ss[..|ss| - 1], token);
      FilterFacts(ss[..|ss| - 1], Other(token));
    }
  }

  lemma StepBounded(c: Settings, ss: seq<Session>, step: Step)
    requires c.Legal() && |ss| <= c.maxEntries && Unique(ss)
    ensures |Apply(c, ss, step)| <= c.maxEntries && Unique(Apply(c, ss, step))
  {
    match step
    case Exchange(prior, issued, now) => UnboundedUnique(ss, step);
    case Authenticate(token, binding, now) =>
      FilterFacts(ss, Other(token));
      FilterUnique(ss, Other(token));
      if Find(ss, token).Some? {
        DropAppend(ss, Find(ss, token).value);
      }
    case Remove(token) =>
      FilterFacts(ss, Other(token));
      FilterUnique(ss, Other(token));
  }

  lemma UnboundedUnique(ss: seq<Session>, step: Step)
    requires step.Exchange? && Unique(ss)
    ensures Unique(Unbounded(ss, step))
  {
    if step.prior.Some? {
      FilterUnique(ss, Other(step.prior.value));
    }
    var kept := DropPrior(ss, step.prior);
    DropAppend(kept, step.issued);
    FilterUnique(Drop(kept, step.issued.token) + [step.issued], LiveAt(step.now));
  }

  /** The session an exchange issues is the most recent one when the exchange returns. */
  lemma IssueSurvives(c: Settings, ss: seq<Session>, step: Step)
    requires c.Legal() && step.Exchange? && Fair(c, step)
    ensures var after := Apply(c, ss, step); after != [] && after[|after| - 1] == step.issued
  {
    var all := Drop(DropPrior(ss, step.prior), step.issued.token) + [step.issued];
    assert all[|all| - 1] == step.issued;
  }

  // ---- Which sessions exist -------------------------------------------------

  predicate Issues(step: Step, s: Session) {
    step.Exchange? && step.issued == s
  }

  /** The section replaces or revokes the token of s, or finds s expired. */
  predicate Ends(step: Step, s: Session) {
    match step
    case Exchange(prior, issued, now) =>
      issued.token == s.token || (prior == Some(s.token) && TokenShaped(s.token)) || now >= s.expiresAt
    case Authenticate(token, _, now) => token == s.token && now >= s.expiresAt
    case Remove(token) => token == s.token
  }

  /** Section k evicts s for want of room. */
  predicate Evicts(c: Settings, steps: seq<Step>, k: nat, s: Session)
    requires c.Legal() && k < |steps|
  {
    steps[k].Exchange? && s in Unbounded(Run(c, steps, k), steps[k]) && s !in Run(c, steps, k + 1)
  }

  /** Section m issued s, and nothing before section n replaced, revoked, expired or evicted it. */
  ghost predicate Held(c: Settings, steps: seq<Step>, m: nat, n: nat, s: Session)
    requires c.Legal() && n <= |steps|
  {
    && m < n && Issues(steps[m], s) && !Evicts(c, steps, m, s)
    && forall k: nat | m < k < n :: Stays(c, steps, k, s)
  }

  /** Section k neither ends nor evicts s. */
  predicate Stays(c: Settings, steps: seq<Step>, k: nat, s: Session)
    requires c.Legal() && k < |steps|
  {
    !Ends(steps[k], s) && !Evicts(c, steps, k, s)
  }

  lemma InUnbounded(c: Settings, ss: seq<Session>, step: Step, s: Session)
    requires c.Legal() && step.Exchange? && Fair(c, step)
    ensures s in Unbounded(ss, step) <==> s == step.issued || (s in ss && !Ends(step, s))
  {
    if step.prior.Some? {
      FilterFacts(ss, Other(step.prior.value));
    }
    var kept := DropPrior(ss, step.prior);
    FilterFacts(kept, Other(step.issued.token));
    FilterFacts(Drop(kept, step.issued.token) + [step.issued], LiveAt(step.now));
  }

  lemma FoundIsUnique(ss: seq<Session>, s: Session)
    requires Unique(ss) && s in ss
    ensures Find(ss, s.token) == Some(s)
  {
    var f := Find(ss, s.token).value;
    var i :| 0 <= i < |ss| && ss[i] == s;
    var j :| 0 <= j < |ss| && ss[j] == f;
  }

  lemma StepMembership(c: Settings, ss: seq<Session>, step: Step, s: Session)
    requires c.Legal() && Fair(c, step) && Unique(ss)
    ensures !step.Exchange? ==> (s in Apply(c, ss, step) <==> s in ss && !Ends(step, s))
    ensures step.Exchange? && s in Apply(c, ss, step) ==> s in Unbounded(ss, step)
  {
    if s in ss {
      FoundIsUnique(ss, s);
    }
    match step
    case Exchange(prior, issued, now) =>
    case Authenticate(token, binding, now) =>
      FilterFacts(ss, Other(token));
      if Find(ss, token).Some? {
        FoundIsUnique(ss, Find(ss, token).value);
      }
    case Remove(token) => FilterFacts(ss, Other(token));
  }

  /** How one section changes whether s is in the map. */
  lemma MemberStep(c: Settings, steps: seq<Step>, n: nat, s: Session)
    requires c.Legal() && n < |steps| && Fair(c, steps[n])
    ensures s in Run(c, steps, n + 1) <==>
              (Issues(steps[n], s) || (s in Run(c, steps, n) && !Ends(steps[n], s))) && !Evicts(c, steps, n, s)
  {
    SessionsBounded(c, steps, n);
    RunStep(c, steps, n);
    StepMembership(c, Run(c, steps, n), steps[n], s);
    if steps[n].Exchange? {
      InUnbounded(c, Run(c, steps, n), steps[n], s);
    }
  }

  /** The same, section by section. */
  predicate Alive(c: Settings, steps: seq<Step>, n: nat, s: Session)
    requires c.Legal() && n <= |steps|
  {
    && n > 0
    && (Issues(steps[n - 1], s) || (Alive(c, steps, n - 1, s) && !Ends(steps[n - 1], s)))
    && !Evicts(c, steps, n - 1, s)
  }

  lemma HeldOn(c: Settings, steps: seq<Step>, m: nat, n: nat, s: Session)
    requires c.Legal() && n < |steps| && Held(c, steps, m, n, s)
    requires Stays(c, steps, n, s)
    ensures Held(c, steps, m, n + 1, s)
  {
    forall k: nat | m < k < n + 1 ensures Stays(c, steps, k, s) {
    }
  }

  lemma {:induction false} AliveIsHeld(c: Settings, steps: seq<Step>, n: nat, s: Session) returns (m: nat)
    requires c.Legal() && n <= |steps| && Alive(c, steps, n, s)
    ensures Held(c, steps, m, n, s)
  {
    if Issues(steps[n - 1], s) {
      m := n - 1;
    } else {
      m := AliveIsHeld(c, steps, n - 1, s);
      HeldOn(c, steps, m, n - 1, s);
    }
  }

  lemma {:induction false} HeldIsAlive(c: Settings, steps: seq<Step>, m: nat, n: nat, s: Session)
    requires c.Legal() && n <= |steps| && Held(c, steps, m, n, s)
    ensures Alive(c, steps, n, s)
  {
    if m < n - 1 {
      assert Stays(c, steps, n - 1, s);
      forall k: nat | m < k < n - 1 ensures Stays(c, steps, k, s) {
      }
      HeldIsAlive(c, steps, m, n - 1, s);
    }
  }

  lemma AliveStep(c: Settings, steps: seq<Step>, n: nat, s: Session)
    requires c.Legal() && n < |steps| && Fair(c, steps[n])
    requires s in Run(c, steps, n) <==> Alive(c, steps, n, s)
    ensures s in Run(c, steps, n + 1) <==> Alive(c, steps, n + 1, s)
  {
    MemberStep(c, steps, n, s);
  }

  lemma {:induction false} InMapIffAlive(c: Settings, steps: seq<Step>, n: nat, s: Session)
    requires c.Legal() && n <= |steps| && forall k | 0 <= k < |steps| :: Fair(c, steps[k])
    ensures s in Run(c, steps, n) <==> Alive(c, steps, n, s)
  {
    if n > 0 {
      InMapIffAlive(c, steps, n - 1, s);
      AliveStep(c, steps, n - 1, s);
    }
  }

  /** A session is in the map exactly when it was issued and nothing has ended or evicted it since. */
  lemma ExistsIffHeld(c: Settings, steps: seq<Step>, n: nat, s: Session)
    requires c.Legal() && n <= |steps| && forall k | 0 <= k < |steps| :: Fair(c, steps[k])
    ensures s in Run(c, steps, n) <==> exists m: nat :: Held(c, steps, m, n, s)
  {
    InMapIffAlive(c, steps, n, s);
    if Alive(c, steps, n, s) {
      var m := AliveIsHeld(c, steps, n, s);
    }
    if m: nat :| Held(c, steps, m, n, s) {
      HeldIsAlive(c, steps, m, n, s);
    }
  }

  /**
   A token authenticates exactly when it was issued, within its fixed lifetime, for the same binding,
   and it was not replaced, revoked or evicted; the subject is the one it was last issued for.
   */
  lemma AuthenticatesExactly(c: Settings, steps: seq<Step>, n: nat, subject: string)
    requires c.Legal() && n < |steps| && steps[n].Authenticate?
    requires forall k | 0 <= k < |steps| :: Fair(c, steps[k])
    ensures Admitted(Run(c, steps, n), steps[n]) == Some(subject) <==>
              exists m: nat, s :: Held(c, steps, m, n, s) && Matches(c, steps, m, n, s, subject)
  {
    var ss, step := Run(c, steps, n), steps[n];
    SessionsBounded(c, steps, n);
    if Admitted(ss, step) == Some(subject) {
      var s := Find(ss, step.token).value;
      ExistsIffHeld(c, steps, n, s);
      var m: nat :| Held(c, steps, m, n, s);
      assert Matches(c, steps, m, n, s, subject);
    }
    if m: nat, s :| Held(c, steps, m, n, s) && Matches(c, steps, m, n, s, subject) {
      ExistsIffHeld(c, steps, n, s);
      FoundIsUnique(ss, s);
    }
  }

  /** Section m issued s with this token and subject, for this binding, and section n reads the clock in its lifetime. */
  predicate Matches(c: Settings, steps: seq<Step>, m: nat, n: nat, s: Session, subject: string)
    requires m < |steps| && n < |steps| && steps[n].Authenticate? && steps[m].Exchange?
  {
    && s.token == steps[n].token && s.subject == subject && s.binding == steps[n].binding
    && steps[n].now < steps[m].now + c.ttlSeconds
  }

  // ---- Eviction -------------------------------------------------------------

  /** Section k issues the token or authenticates it. */
  predicate Uses(c: Settings, steps: seq<Step>, k: nat, token: string)
    requires c.Legal() && k < |steps|
  {
    match steps[k]
    case Exchange(_, issued, _) => issued.token == token
    case Authenticate(t, _, _) => t == token && Admitted(Run(c, steps, k), steps[k]).Some?
    case Remove(_) => false
  }

  function LastUse(c: Settings, steps: seq<Step>, n: nat, token: string): (k: int)
    requires c.Legal() && n <= |steps|
    ensures k < n
  {
    if n == 0 then -1
    else if Uses(c, steps, n - 1, token) then n - 1
    else LastUse(c, steps, n - 1, token)
  }

  /** Least recently used first. */
  ghost predicate ByRecency(c: Settings, steps: seq<Step>, n: nat, ss: seq<Session>)
    requires c.Legal() && n <= |steps|
  {
    forall i, j | 0 <= i < j < |ss| :: LastUse(c, steps, n, ss[i].token) < LastUse(c, steps, n, ss[j].token)
  }

  lemma FilterByRecency(c: Settings, steps: seq<Step>, n: nat, ss: seq<Session>, p: Session -> bool)
    requires c.Legal() && n <= |steps| && ByRecency(c, steps, n, ss)
    ensures ByRecency(c, steps, n, Filter(ss, p))
  {
    FilterFacts(ss, p);
    var r := Filter(ss, p);
    forall i, j | 0 <= i < j < |r| ensures LastUse(c, steps, n, r[i].token) < LastUse(c, steps, n, r[j].token) {
      assert Precedes(ss, r[i], r[j]);
    }
  }

  /** Sessions whose tokens section n does not use keep their order; the used one goes last. */
  lemma RecencyGoesOn(c: Settings, steps: seq<Step>, n: nat, rest: seq<Session>)
    requires c.Legal() && n < |steps| && ByRecency(c, steps, n, rest)
    requires forall s | s in rest :: !Uses(c, steps, n, s.token)
    ensures ByRecency(c, steps, n + 1, rest)
    ensures forall s: Session | Uses(c, steps, n, s.token) :: ByRecency(c, steps, n + 1, rest + [s])
  {
    assert forall i | 0 <= i < |rest| :: rest[i] in rest;
  }

  lemma UnboundedByRecency(c: Settings, steps: seq<Step>, n: nat)
    requires c.Legal() && n < |steps| && steps[n].Exchange? && ByRecency(c, steps, n, Run(c, steps, n))
    ensures ByRecency(c, steps, n + 1, Unbounded(Run(c, steps, n), steps[n]))
  {
    var step := steps[n];
    IssueByRecency(c, steps, n, Run(c, steps, n), step);
    FilterByRecency(c, steps, n + 1, Drop(DropPrior(Run(c, steps, n), step.prior), step.issued.token) + [step.issued],
                    LiveAt(step.now));
  }

  lemma IssueByRecency(c: Settings, steps: seq<Step>, n: nat, ss: seq<Session>, step: Step)
    requires c.Legal() && n < |steps| && step == steps[n] && step.Exchange? && ByRecency(c, steps, n, ss)
    ensures ByRecency(c, steps, n + 1, Drop(DropPrior(ss, step.prior), step.issued.token) + [step.issued])
  {
    if step.prior.Some? {
      FilterByRecency(c, steps, n, ss, Other(step.prior.value));
    }
    var kept := DropPrior(ss, step.prior);
    FilterByRecency(c, steps, n, kept, Other(step.issued.token));
    FilterFacts(kept, Other(step.issued.token));
    RecencyGoesOn(c, steps, n, Drop(kept, step.issued.token));
  }

  lemma OtherByRecency(c: Settings, steps: seq<Step>, n: nat)
    requires c.Legal() && n < |steps| && !steps[n].Exchange? && ByRecency(c, steps, n, Run(c, steps, n))
    ensures ByRecency(c, steps, n + 1, Run(c, steps, n + 1))
  {
    RunStep(c, steps, n);
    var ss := Run(c, steps, n);
    var token := steps[n].token;
    FilterByRecency(c, steps, n, ss, Other(token));
    FilterFacts(ss, Other(token));
    RecencyGoesOn(c, steps, n, Drop(ss, token));
    if steps[n].Remove? || Admitted(ss, steps[n]).None? {
      RecencyGoesOn(c, steps, n, ss);
    }
  }

  lemma TrimByRecency(c: Settings, steps: seq<Step>, n: nat, all: seq<Session>, max: nat)
    requires c.Legal() && n <= |steps| && ByRecency(c, steps, n, all)
    ensures ByRecency(c, steps, n, Trim(all, max))
    ensures forall s, t | s in all && s !in Trim(all, max) && t in Trim(all, max) ::
              LastUse(c, steps, n, s.token) < LastUse(c, steps, n, t.token)
    ensures forall s | s in all && s !in Trim(all, max) :: |Trim(all, max)| == max
  {
    KeptByRecency(c, steps, n, all, max);
    var kept := Trim(all, max);
    forall s, t | s in all && s !in kept && t in kept
      ensures LastUse(c, steps, n, s.token) < LastUse(c, steps, n, t.token)
    {
      TrimmedIsEarlier(all, max, s, t);
      var i, j :| 0 <= i < j < |all| && all[i] == s && all[j] == t;
    }
  }

  lemma KeptByRecency(c: Settings, steps: seq<Step>, n: nat, all: seq<Session>, max: nat)
    requires c.Legal() && n <= |steps| && ByRecency(c, steps, n, all)
    ensures ByRecency(c, steps, n, Trim(all, max))
  {
    var kept := Trim(all, max);
    var cut := |all| - |kept|;
    forall i, j | 0 <= i < j < |kept| ensures LastUse(c, steps, n, kept[i].token) < LastUse(c, steps, n, kept[j].token) {
      var a, b := cut + i, cut + j;
      assert all[a] == kept[i] && all[b] == kept[j];
    }
  }

  /** What is trimmed came before what is kept. */
  lemma TrimmedIsEarlier(all: seq<Session>, max: nat, s: Session, t: Session)
    requires s in all && s !in Trim(all, max) && t in Trim(all, max)
    ensures exists i, j :: 0 <= i < j < |all| && all[i] == s && all[j] == t
  {
    var kept := Trim(all, max);
    var cut := |all| - |kept|;
    var i :| 0 <= i < |all| && all[i] == s;
    var j :| 0 <= j < |kept| && kept[j] == t;
    assert forall p | cut <= p < |all| :: all[p] == kept[p - cut];
    assert all[cut + j] == t && i < cut;
  }

  lemma ExchangeByRecency(c: Settings, steps: seq<Step>, n: nat)
    requires c.Legal() && n < |steps| && steps[n].Exchange? && ByRecency(c, steps, n, Run(c, steps, n))
    ensures ByRecency(c, steps, n + 1, Run(c, steps, n + 1))
  {
    UnboundedByRecency(c, steps, n);
    RunStep(c, steps, n);
    TrimByRecency(c, steps, n + 1, Unbounded(Run(c, steps, n), steps[n]), c.maxEntries);
  }

  /** The map lists its sessions by their last issue or successful authentication, oldest first. */
  lemma {:induction false} OrderIsRecency(c: Settings, steps: seq<Step>, n: nat)
    requires c.Legal() && n <= |steps|
    ensures ByRecency(c, steps, n, Run(c, steps, n))
  {
    if n > 0 {
      OrderIsRecency(c, steps, n - 1);
      if steps[n - 1].Exchange? {
        ExchangeByRecency(c, steps, n - 1);
      } else {
        OtherByRecency(c, steps, n - 1);
      }
    }
  }

  /** An evicted session was used less recently than each of the `max_entries` sessions that stay. */
  lemma EvictionIsLeastRecent(c: Settings, steps: seq<Step>, k: nat, s: Session)
    requires c.Legal() && k < |steps| && Evicts(c, steps, k, s)
    ensures |Run(c, steps, k + 1)| == c.maxEntries
    ensures forall t | t in Run(c, steps, k + 1) ::
              LastUse(c, steps, k + 1, s.token) < LastUse(c, steps, k + 1, t.token)
  {
    OrderIsRecency(c, steps, k);
    UnboundedByRecency(c, steps, k);
    RunStep(c, steps, k);
    TrimByRecency(c, steps, k + 1, Unbounded(Run(c, steps, k), steps[k]), c.maxEntries);
  }

  // ---- The broker -----------------------------------------------------------

  datatype Issue = Issued(token: string, subject: string) | Refused | Unavailable

  datatype Access = Subject(subject: string) | Rejected

  /** What a request carries once its headers are parsed: the session cookie, and whether anything else is there. */
  datatype Credentials = Credentials(cookie: Option<string>, others: bool, authorization: bool)

  lemma RunExtends(c: Settings, steps: seq<Step>, step: Step, n: nat)
    requires c.Legal() && n <= |steps|
    ensures Run(c, steps + [step], n) == Run(c, steps, n)
  {
    assert (steps + [step])[..n] == steps[..n];
  }

  lemma RunAppend(c: Settings, steps: seq<Step>, step: Step)
    requires c.Legal()
    ensures Run(c, steps + [step], |steps| + 1) == Apply(c, Run(c, steps, |steps|), step)
  {
    var longer := steps + [step];
    var all := longer[..|longer|];
    assert all[..|all| - 1] == steps[..|steps|] && all[|all| - 1] == step;
  }

  /** Section n is this authentication; it was granted, to a session held since the section that issued it. */
  ghost predicate GrantedAt(c: Settings, steps: seq<Step>, n: nat, step: Step, subject: string)
    requires c.Legal() && step.Authenticate?
  {
    && n < |steps| && steps[n] == step && Admitted(Run(c, steps, n), step) == Some(subject)
    && exists m: nat, s :: Held(c, steps, m, n, s) && Matches(c, steps, m, n, s, subject)
  }

  /** Exactly one cookie, of the session's name and the right shape. */
  predicate OneToken(request: Credentials) {
    request.cookie.Some? && !request.others && TokenShaped(request.cookie.value)
  }

  /** A rejected authentication removes nothing but an expired session of its own token. */
  lemma RejectedKeepsSessions(c: Settings, ss: seq<Session>, step: Step)
    requires c.Legal() && step.Authenticate? && Admitted(ss, step) == None
    ensures forall s | s in ss :: s in Apply(c, ss, step) || (s.token == step.token && Find(ss, s.token).value.expiresAt <= step.now)
    ensures forall s | s in Apply(c, ss, step) :: s in ss
  {
    FilterFacts(ss, Other(step.token));
  }

  class ReaderSessionBroker {
    const c: Settings
    var sessions: seq<Session>
    ghost var trace: seq<Step>

    ghost predicate Valid()
      reads this
    {
      && c.Legal() && sessions == Run(c, trace, |trace|)
      && forall k | 0 <= k < |trace| :: Fair(c, trace[k])
    }

    constructor (c: Settings)
      requires c.Legal()
      ensures Valid() && sessions == [] && trace == [] && this.c == c
    {
      this.c, sessions, trace := c, [], [];
    }

    /** Sections of other requests. */
    method Interleave()
      requires Valid()
      modifies this
      ensures Valid() && old(trace) <= trace
    {
    }

    /** Records a section whose effect on the map has just been carried out. */
    ghost method Note(step: Step)
      requires c.Legal() && Fair(c, step) && (forall k | 0 <= k < |trace| :: Fair(c, trace[k]))
      requires sessions == Apply(c, Run(c, trace, |trace|), step)
      modifies this`trace
      ensures Valid() && trace == old(trace) + [step]
    {
      RunAppend(c, trace, step);
      trace := trace + [step];
    }

    /**
     `exchange`, after origin and credentials were checked: `identity` is the authority's answer, `None`
     for a rejection. The new session carries the caller's binding and replaces the prior cookie's.
    */
    method Exchange(prior: Option<string>, identity: Option<string>, reachable: bool, token: string,
            binding: Binding, now: real)
        returns (r: Issue)
      requires Valid()
      modifies this
      ensures Valid() && old(trace) <= trace
      ensures r.Issued? <==> reachable && identity.Some? && TokenShaped(token)
      ensures r.Unavailable? <==> !reachable || (identity.Some? && !TokenShaped(token))
      ensures r.Issued? ==>
                var issued := Session(token, identity.value, now + c.ttlSeconds, binding);
                && r == Issued(token, identity.value)
                && |trace| > |old(trace)| && trace[|trace| - 1] == Step.Exchange(prior, issued, now)
                && sessions != [] && sessions[|sessions| - 1] == issued
      ensures !r.Issued? ==> trace == old(trace)
    {
      if !reachable {
        return Unavailable;
      }
      if identity.None? {
        return Refused;
      }
      if !TokenShaped(token) {
        return Unavailable;
      }
      Interleave();
      Insert(prior, Session(token, identity.value, now + c.ttlSeconds, binding), now);
      r := Issued(token, identity.value);
    }

    /** The section of `exchange` under the lock. */
    method Insert(prior: Option<string>, record: Session, now: real)
      requires Valid() && record.expiresAt == now + c.ttlSeconds
      modifies this
      ensures Valid() && trace == old(trace) + [Step.Exchange(prior, record, now)]
      ensures sessions != [] && sessions[|sessions| - 1] == record
    {
      ghost var before, step := sessions, Step.Exchange(prior, record, now);
      if prior.Some? && TokenShaped(prior.value) {
        sessions := Drop(sessions, prior.value);
      }
      sessions := Drop(sessions, record.token) + [record];
      sessions := Purge(sessions, now);
      EvictToCap();
      IssueSurvives(c, before, step);
      Note(step);
    }

    /** The eviction loop: the least recent session goes, one at a time, until the cap holds. */
    method EvictToCap()
      requires c.Legal()
      modifies this`sessions
      ensures sessions == Trim(old(sessions), c.maxEntries)
    {
      while |sessions| > c.maxEntries
        invariant Trim(sessions, c.maxEntries) == Trim(old(sessions), c.maxEntries)
        decreases |sessions|
      {
        sessions := sessions[1..];
      }
    }

    /** The section of `authenticate` under the lock. */
    method Check(token: string, binding: Binding, now: real) returns (r: Access)
      requires Valid()
      modifies this
      ensures Valid() && trace == old(trace) + [Step.Authenticate(token, binding, now)]
      ensures r == Answer(old(Admitted(Run(c, trace, |trace|), Step.Authenticate(token, binding, now))))
    {
      ghost var step := Step.Authenticate(token, binding, now);
      var record := Find(sessions, token);
      if record.None? || record.value.expiresAt <= now {
        sessions := if record.None? then sessions else Drop(sessions, token);
        Note(step);
        return Rejected;
      }
      if record.value.binding != binding {
        Note(step);
        return Rejected;
      }
      sessions := Drop(sessions, token) + [record.value];
      Note(step);
      return Subject(record.value.subject);
    }

    /**
     `authenticate`: exactly one cookie, of the right shape, and no `Authorization`. Such a request is answered as
     its section `at` finds the session; any other is rejected without a section.
     */
    method Authenticate(request: Credentials, binding: Binding, now: real) returns (r: Access, ghost at: nat)
      requires Valid()
      modifies this
      ensures Valid() && old(trace) <= trace
      ensures !OneToken(request) || request.authorization ==>
                r.Rejected? && trace == old(trace) && sessions == old(sessions)
      ensures OneToken(request) && !request.authorization ==>
                var step := Step.Authenticate(request.cookie.value, binding, now);
                && |old(trace)| <= at && |trace| == at + 1 && trace[at] == step
                && r == Answer(Admitted(Run(c, trace, at), step))
                && (r.Subject? ==> GrantedAt(c, trace, at, step, r.subject))
    {
      at := |trace|;
      if request.authorization || request.cookie.None? || request.others || !TokenShaped(request.cookie.value) {
        r := Rejected;
        return;
      }
      Interleave();
      at := |trace|;
      ghost var before := trace;
      r := Check(request.cookie.value, binding, now);
      RunExtends(c, before, trace[at], at);
      if r.Subject? {
        AuthenticatesExactly(c, trace, at, r.subject);
      }
    }

    /**
     `revoke`: without a cookie, or with a malformed token, there is nothing to do; a token that does not
     authenticate is left alone; one that does is removed, in a section of its own.
     */
    method Revoke(request: Credentials, binding: Binding, now: real) returns (ok: bool, ghost at: nat)
      requires Valid()
      modifies this
      ensures Valid() && old(trace) <= trace
      ensures !OneToken(request) ==>
                && trace == old(trace) && sessions == old(sessions)
                && (ok <==> !request.others)
      ensures OneToken(request) && request.authorization ==> !ok && trace == old(trace) && sessions == old(sessions)
      ensures OneToken(request) && !request.authorization ==>
                var step := Step.Authenticate(request.cookie.value, binding, now);
                && |old(trace)| <= at < |trace| && trace[at] == step
                && (ok <==> Admitted(Run(c, trace, at), step).Some?)
                && (!ok ==> |trace| == at + 1)
                && (ok ==> at + 1 < |trace| && trace[|trace| - 1] == Step.Remove(request.cookie.value))
      ensures ok && OneToken(request) ==> forall s | s in sessions :: s.token != request.cookie.value
    {
      at := |trace|;
      if request.cookie.None? && !request.others {
        ok := true;
        return;
      }
      if request.cookie.None? || request.others {
        ok := false;
        return;
      }
      if !TokenShaped(request.cookie.value) {
        ok := true;
        return;
      }
      var access;
      access, at := Authenticate(request, binding, now);
      ok := access.Subject?;
      if ok {
        ghost var granted := trace;
        Interleave();
        RunPrefixStays(c, granted, trace, at);
        ghost var before := trace;
        RemoveToken(request.cookie.value);
        RunExtends(c, before, Step.Remove(request.cookie.value), at);
      }
    }

    /** `_remove_token`, for a well-formed token. */
    method RemoveToken(token: string)
      requires Valid()
      modifies this
      ensures Valid() && trace == old(trace) + [Step.Remove(token)]
      ensures forall s | s in sessions :: s.token != token
    {
      FilterFacts(sessions, Other(token));
      sessions := Drop(sessions, token);
      Note(Step.Remove(token));
    }
  }

  function Answer(subject: Option<string>): Access {
    match subject
    case Some(s) => Subject(s)
    case None => Rejected
  }

  lemma RunPrefixStays(c: Settings, before: seq<Step>, after: seq<Step>, n: nat)
    requires c.Legal() && before <= after && n <= |before|
    ensures Run(c, after, n) == Run(c, before, n)
  {
    assert after[..n] == before[..n];
  }
}
