/**
 The request-scoped work budget (`WorkBudget`): every lock-protected section is one atomic step,
 so any interleaving of threads is a sequence of steps.
 */
module WorkBudgets {
  import opened Basics
  import opened Texts

  /** Fixed at construction; the deadline is absolute on the monotonic clock. */
  datatype Limits = Limits(maxAttempts: int, maxInputBytes: int, maxOutputTokens: int, deadline: real) {
    predicate Legal() { maxAttempts > 0 && maxInputBytes > 0 && maxOutputTokens > 0 }
  }

  datatype Counters = Counters(attempts: nat, inputBytes: nat, outputTokens: nat, cancelled: Option<string>)

  const EMPTY := Counters(0, 0, 0, None)

  /** One critical section, with the clock value read inside it. */
  datatype Step =
    | Cancel(reason: string)
    | EnsureActive(now: real)
    | Reserve(now: real, bytes: nat, tokens: nat)

  /** The reason a section raises `WorkBudgetExceeded` with, in the source's order of tests. */
  function Refusal(l: Limits, c: Counters, step: Step): Option<string> {
    match step
    case Cancel(_) => None
    case EnsureActive(now) =>
      if c.cancelled.Some? then c.cancelled
      else if now >= l.deadline then Some("deadline")
      else None
    case Reserve(now, bytes, tokens) =>
      if c.cancelled.Some? then c.cancelled
      else if now >= l.deadline then Some("deadline")
      else if c.attempts + 1 > l.maxAttempts then Some("attempts")
      else if c.inputBytes + bytes > l.maxInputBytes then Some("input_bytes")
      else if c.outputTokens + tokens > l.maxOutputTokens then Some("output_tokens")
      else None
  }

  function Apply(l: Limits, c: Counters, step: Step): Counters {
    if Refusal(l, c, step).Some? then c else
    match step
    case Cancel(reason) => if reason != "" && c.cancelled.None? then c.(cancelled := Some(reason)) else c
    case EnsureActive(_) => c
    case Reserve(_, bytes, tokens) =>
      c.(attempts := c.attempts + 1, inputBytes := c.inputBytes + bytes, outputTokens := c.outputTokens + tokens)
  }

  /** A `cancel` that does not raise ValueError. */
  predicate Cancels(step: Step) {
    step.Cancel? && step.reason != ""
  }

  /** The counters after the first `n` sections of an interleaving. */
  function Run(l: Limits, c: Counters, steps: seq<Step>): Counters {
    if steps == [] then c
    else Apply(l, Run(l, c, steps[..|steps| - 1]), steps[|steps| - 1])
  }

  predicate Within(l: Limits, c: Counters) {
    && c.cancelled != Some("")
    && c.attempts <= l.maxAttempts
    && c.inputBytes <= l.maxInputBytes
    && c.outputTokens <= l.maxOutputTokens
  }

  /** Section i of the interleaving is a reservation that was admitted. */
  predicate Admitted(l: Limits, c: Counters, steps: seq<Step>, i: nat)
    requires i < |steps|
  {
    steps[i].Reserve? && Refusal(l, Run(l, c, steps[..i]), steps[i]).None?
  }

  /** What the admitted reservations among the first `n` sections asked for. */
  function Spent(l: Limits, c: Counters, steps: seq<Step>, n: nat): (nat, nat, nat)
    requires n <= |steps|
  {
    if n == 0 then (0, 0, 0) else
    var (a, b, t) := Spent(l, c, steps, n - 1);
    if Admitted(l, c, steps, n - 1)
    then (a + 1, b + steps[n - 1].bytes, t + steps[n - 1].tokens)
    else (a, b, t)
  }

  lemma RunPrefix(l: Limits, c: Counters, steps: seq<Step>, n: nat)
    requires n < |steps|
    ensures Run(l, c, steps[..n + 1]) == Apply(l, Run(l, c, steps[..n]), steps[n])
  {
    assert steps[..n + 1][..n] == steps[..n];
  }

  /** An admitted reservation adds exactly what it asked for; nothing else moves a counter. */
  lemma SpendStep(l: Limits, c: Counters, step: Step)
    requires l.Legal() && Within(l, c)
    ensures var d := Apply(l, c, step);
            && Within(l, d)
            && (d.attempts, d.inputBytes, d.outputTokens) ==
               if step.Reserve? && Refusal(l, c, step).None?
               then (c.attempts + 1, c.inputBytes + step.bytes, c.outputTokens + step.tokens)
               else (c.attempts, c.inputBytes, c.outputTokens)
  {
  }

  /**
   Under every interleaving the counters are exactly what the admitted reservations asked for, and
   no total ever passes its cap.
   */
  lemma {:induction false} CountersConserved(l: Limits, steps: seq<Step>, n: nat)
    requires l.Legal() && n <= |steps|
    ensures var c := Run(l, EMPTY, steps[..n]);
            && Within(l, c)
            && (c.attempts, c.inputBytes, c.outputTokens) == Spent(l, EMPTY, steps, n)
  {
    if n > 0 {
      CountersConserved(l, steps, n - 1);
      RunPrefix(l, EMPTY, steps, n - 1);
      SpendStep(l, Run(l, EMPTY, steps[..n - 1]), steps[n - 1]);
    }
  }

  /** The reason reported is that of the first `cancel`, whatever is cancelled later. */
  lemma {:induction false} FirstReasonSticks(l: Limits, steps: seq<Step>, first: nat, n: nat)
    requires first < n <= |steps| && Cancels(steps[first])
    requires forall i | 0 <= i < first :: !Cancels(steps[i])
    ensures Run(l, EMPTY, steps[..n]).cancelled == Some(steps[first].reason)
    decreases n
  {
    RunPrefix(l, EMPTY, steps, n - 1);
    if n - 1 == first {
      NotYetCancelled(l, steps, first);
    } else {
      FirstReasonSticks(l, steps, first, n - 1);
    }
  }

  lemma {:induction false} NotYetCancelled(l: Limits, steps: seq<Step>, n: nat)
    requires n <= |steps| && forall i | 0 <= i < n :: !Cancels(steps[i])
    ensures Run(l, EMPTY, steps[..n]).cancelled == None
  {
    if n > 0 {
      NotYetCancelled(l, steps, n - 1);
      RunPrefix(l, EMPTY, steps, n - 1);
    }
  }

  /** No reservation succeeds after any `cancel`; it is refused with the first reason. */
  lemma NothingAfterCancel(l: Limits, steps: seq<Step>, first: nat, i: nat)
    requires first < i < |steps| && Cancels(steps[first]) && !steps[i].Cancel?
    requires forall k | 0 <= k < first :: !Cancels(steps[k])
    ensures !Admitted(l, EMPTY, steps, i)
    ensures Refusal(l, Run(l, EMPTY, steps[..i]), steps[i]) == Some(steps[first].reason)
  {
    FirstReasonSticks(l, steps, first, i);
  }

  /** A refused section leaves every counter and the reason as they were. */
  lemma RefusedChangesNothing(l: Limits, steps: seq<Step>, i: nat)
    requires i < |steps| && Refusal(l, Run(l, EMPTY, steps[..i]), steps[i]).Some?
    ensures Run(l, EMPTY, steps[..i + 1]) == Run(l, EMPTY, steps[..i])
  {
    RunPrefix(l, EMPTY, steps, i);
  }

  /** What other threads can do meanwhile: any sequence of sections. */
  ghost predicate Advances(l: Limits, before: Counters, after: Counters) {
    exists steps :: Run(l, before, steps) == after
  }

  lemma {:induction false} RunMonotone(l: Limits, c: Counters, steps: seq<Step>)
    ensures var d := Run(l, c, steps);
            && d.attempts >= c.attempts && d.inputBytes >= c.inputBytes && d.outputTokens >= c.outputTokens
            && (c.cancelled.Some? ==> d.cancelled == c.cancelled)
            && (Within(l, c) ==> Within(l, d))
  {
    if steps != [] {
      RunMonotone(l, c, steps[..|steps| - 1]);
    }
  }

  class WorkBudget {
    const limits: Limits
    var attempts: nat
    var inputBytes: nat
    var outputTokens: nat
    var cancelReason: Option<string>

    function State(): Counters
      reads this
    {
      Counters(attempts, inputBytes, outputTokens, cancelReason)
    }

    ghost predicate Valid()
      reads this
    {
      limits.Legal() && Within(limits, State())
    }

    constructor (maxAttempts: int, maxInputBytes: int, maxOutputTokens: int, deadlineSeconds: real, now: real)
      requires maxAttempts > 0 && maxInputBytes > 0 && maxOutputTokens > 0
      ensures Valid() && State() == EMPTY
      ensures limits == Limits(maxAttempts, maxInputBytes, maxOutputTokens, now + deadlineSeconds)
    {
      limits := Limits(maxAttempts, maxInputBytes, maxOutputTokens, now + deadlineSeconds);
      attempts, inputBytes, outputTokens, cancelReason := 0, 0, 0, None;
    }

    /** `false` stands for the ValueError on an empty reason. */
    method Cancel(reason: string) returns (ok: bool)
      requires Valid()
      modifies this
      ensures Valid() && ok == (reason != "")
      ensures State() == Apply(limits, old(State()), Step.Cancel(reason))
    {
      if reason == "" {
        return false;
      }
      if cancelReason == None {
        cancelReason := Some(reason);
      }
      return true;
    }

    /** The reason raised, if any. */
    method EnsureActive(now: real) returns (raised: Option<string>)
      ensures raised == Refusal(limits, State(), Step.EnsureActive(now))
    {
      if cancelReason.Some? {
        return cancelReason;
      }
      if now >= limits.deadline {
        return Some("deadline");
      }
      return None;
    }

    /** `valueError` is the ValueError on a non-positive token count. */
    method ReserveAttempt(now: real, inputText: string, tokens: int)
        returns (valueError: bool, raised: Option<string>)
      requires Valid()
      modifies this
      ensures Valid() && valueError == (tokens <= 0)
      ensures valueError ==> raised == None && State() == old(State())
      ensures !valueError ==>
                var step := Step.Reserve(now, Utf8Length(inputText), tokens);
                && raised == old(Refusal(limits, State(), step))
                && State() == old(Apply(limits, State(), step))
    {
      if tokens <= 0 {
        return true, None;
      }
      var bytes := Utf8Length(inputText);
      if cancelReason.Some? {
        return false, cancelReason;
      }
      if now >= limits.deadline {
        return false, Some("deadline");
      }
      if attempts + 1 > limits.maxAttempts {
        return false, Some("attempts");
      }
      if inputBytes + bytes > limits.maxInputBytes {
        return false, Some("input_bytes");
      }
      if outputTokens + tokens > limits.maxOutputTokens {
        return false, Some("output_tokens");
      }
      attempts := attempts + 1;
      inputBytes := inputBytes + bytes;
      outputTokens := outputTokens + tokens;
      return false, None;
    }

    /** The other workers of the request take any number of sections. */
    method Interleave()
      requires Valid()
      modifies this
      ensures Valid() && Advances(limits, old(State()), State())
    {
      assert Run(limits, State(), []) == State();
    }
  }
}
