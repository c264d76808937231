/**
 One group worker of the translation pipeline: provider calls under the shared budget and the
 process-wide upstream slots, and the envelope protocol with its two levels of recovery.
 */
module Translator {
  import opened Basics
  import opened Texts
  import opened WorkBudgets
  import opened Envelopes

  datatype Provider = Provider(ns: string, model: string)

  /** Seconds, never negative. */
  type Duration = x: real | x >= 0.0

  /** What a provider is asked: one text, or an envelope of segments with its context block. */
  datatype Request =
    | Single(text: string)
    | Envelope(ids: seq<string>, texts: seq<string>, context: string)

  /** The settings of one request. `render`, `prompt`, `parse` and `cap` are left abstract. */
  datatype Config = Config(
    providers: seq<Provider>,
    window: nat,
    source: string,
    target: string,
    render: Request -> string,
    prompt: Request -> string,
    outputCap: string -> int,
    parse: string -> Option<Json>,
    responseCap: nat,
    queueTimeout: Duration)

  /** A completed provider call: who answered what, with which model and which text. */
  datatype Call = Call(ns: string, model: string, request: Request, output: string)

  /** The exceptions a transport attempt can end in. */
  datatype Reply =
    | Text(text: string)
    | DeadlineHit
    | Misconfigured
    | DnsFailure
    | SslFailure
    | RequestFailure(status: nat, transport: bool, retryAfter: Option<nat>)
    | BadBody
    | Unexpected

  datatype ProviderError = ProviderError(status: nat, fallbackEligible: bool, retryAfter: Option<nat>)

  datatype CallResult =
    | Answer(text: string)
    | Exceeded(reason: string)
    | Failed(error: ProviderError)
    | Crashed

  datatype Completion =
    | Completed(text: string, ns: string)
    | OverBudget(reason: string)
    | Unavailable(code: string, retryAfter: Option<nat>)

  predicate Eligible(r: CallResult) {
    r.Failed? && r.error.fallbackEligible
  }

  /**
   The providers were asked in order, each one after the first only because the one before it failed in a way that
   allows a fallback, and asking went on as long as there was such a reason and a provider.
   */
  predicate InOrder(providers: seq<Provider>, asked: seq<CallResult>) {
    && |asked| <= |providers|
    && (forall i | 0 <= i < |asked| - 1 :: Eligible(asked[i]))
    && (|asked| < |providers| ==> asked != [] && !Eligible(asked[|asked| - 1]))
  }

  /** The error of the last provider that reported one. */
  function LastError(asked: seq<CallResult>): Option<ProviderError> {
    if asked == [] then None
    else if asked[|asked| - 1].Failed? then Some(asked[|asked| - 1].error)
    else LastError(asked[..|asked| - 1])
  }

  /** `ProviderUnavailableError`, which carries Retry-After only for a rate limit. */
  function Rejected(last: Option<ProviderError>): Completion {
    if last.Some? && last.value.status == 429
    then Unavailable("provider_rate_limited", last.value.retryAfter)
    else Unavailable("provider_unavailable", None)
  }

  /** What asking these providers comes to: the last one's answer or budget, or the last error. */
  function Verdict(providers: seq<Provider>, asked: seq<CallResult>): Completion
    requires |asked| <= |providers|
  {
    if asked != [] && asked[|asked| - 1].Answer? then Completed(asked[|asked| - 1].text, providers[|asked| - 1].ns)
    else if asked != [] && asked[|asked| - 1].Exceeded? then OverBudget(asked[|asked| - 1].reason)
    else Rejected(LastError(asked))
  }

  datatype Path = Direct | EnvelopeRetry | ParagraphFallback | ParagraphFailed | GroupFailed | Empty

  datatype Item = Item(text: string, provider: string, cacheable: bool, path: Path,
                       errorCode: Option<string>, retryAfter: Option<nat>)

  datatype GroupResult =
    | Items(items: seq<Item>)
    | GroupOverBudget(reason: string)
    | GroupUnavailable(code: string, retryAfter: Option<nat>)

  function ErrorText(code: string): string {
    "[TRANSLATION ERROR: " + code + "]"
  }

  predicate Retryable(status: nat, transport: bool) {
    status in {408, 500, 502, 503, 504} || (status == 0 && transport)
  }

  function Namespaces(providers: seq<Provider>): set<string> {
    set p | p in providers :: p.ns
  }

  // ---- What an item proves --------------------------------------------------

  /** One of the request's providers made the call, with its own model. */
  predicate ByProvider(c: Config, call: Call) {
    Provider(call.ns, call.model) in c.providers
  }

  /** The accepted translations of a logged envelope call. */
  ghost predicate AcceptedCall(c: Config, call: Call) {
    && call.request.Envelope?
    && |call.request.ids| == |call.request.texts|
    && Accepted(Utf8Length(call.output), c.parse(call.output), call.request.ids, c.responseCap)
  }

  ghost function Translated(c: Config, call: Call): seq<string>
    requires AcceptedCall(c, call)
    ensures |Translated(c, call)| == |call.request.ids|
  {
    StrippedTexts(Segments(Translations(c.parse(call.output).value).value))
  }

  /** `text` is what provider `ns` bound to segment j of an accepted envelope for exactly `texts`. */
  ghost predicate FromEnvelope(c: Config, call: Call, ns: string, texts: seq<string>, context: string, j: nat,
          text: string) {
    && AcceptedCall(c, call) && call.ns == ns
    && call.request.texts == texts && call.request.context == context
    && j < |texts| && Translated(c, call)[j] == text
  }

  ghost predicate FromSingle(c: Config, call: Call, ns: string, source: string, text: string) {
    ByProvider(c, call) && call == Call(ns, call.model, Single(source), text)
  }

  /** Whether the group takes the single-text path instead of an envelope. */
  predicate TakesSinglePath(c: Config, n: nat) {
    n == 1 && c.window == 0
  }

  /** How many reservations a group of n may make per eligible provider. */
  function AttemptBound(c: Config, n: nat): nat {
    if TakesSinglePath(c, n) then |c.providers| else EnvelopeAttempts(n, |c.providers|)
  }

  /** Two envelopes, then one call per segment. */
  function EnvelopeAttempts(n: nat, providers: nat): nat {
    (n + 2) * providers
  }

  // ---- Fresh opaque ids -----------------------------------------------------

  function MaxLength(used: seq<string>): nat {
    if used == [] then 0
    else if |used[0]| > MaxLength(used[1..]) then |used[0]| else MaxLength(used[1..])
  }

  lemma {:induction false} LongerThanAll(used: seq<string>, s: string)
    requires |s| > MaxLength(used)
    ensures s !in used
  {
    if used != [] {
      LongerThanAll(used[1..], s);
    }
  }

  /** There is always another candidate, so the rejection loop can succeed. */
  lemma FreshExists(used: seq<string>)
    ensures exists s: string :: s !in used
  {
    LongerThanAll(used, seq(MaxLength(used) + 1, _ => 'a'));
  }

  /** Two envelopes of one group never share an id. */
  method FreshIds(used: seq<string>, n: nat) returns (ids: seq<string>)
    ensures |ids| == n && Distinct(ids)
    ensures forall id | id in ids :: id !in used
  {
    ids := [];
    while |ids| < n
      invariant |ids| <= n && Distinct(ids)
      invariant forall id | id in ids :: id !in used
    {
      FreshExists(used + ids);
      var candidate: string :| candidate !in used + ids;
      ids := ids + [candidate];
    }
  }

  // ---- The worker -----------------------------------------------------------

  class Worker {
    const c: Config
    const budget: WorkBudget
    var held: nat             // upstream slots this worker holds
    var attempts: nat         // reservations this worker was granted
    var clock: real           // the monotonic clock
    ghost var log: seq<Call>  // provider calls that returned a text

    constructor (c: Config, budget: WorkBudget)
      ensures this.c == c && this.budget == budget
      ensures held == 0 && attempts == 0 && log == []
    {
      this.c, this.budget := c, budget;
      held, attempts, log := 0, 0, [];
    }

    /** Time passes. */
    method Tick()
      modifies this`clock
      ensures clock >= old(clock)
    {
      var passed: real := *;
      if passed >= 0.0 {
        clock := clock + passed;
      }
    }

    /** One HTTP exchange; the network decides how it ends. */
    method Send() returns (reply: Reply)
      ensures reply.Text? ==> reply.text != "" && Strip(reply.text) == reply.text
    {
      var n: nat := *;
      var status: nat := *;
      var transport: bool := *;
      var retryAfter: Option<nat> := *;
      var raw: string := *;
      match n
      case 0 => return DeadlineHit;
      case 1 => return Misconfigured;
      case 2 => return DnsFailure;
      case 3 => return SslFailure;
      case 4 => return RequestFailure(status, transport, retryAfter);
      case 5 => return BadBody;
      case 6 => return Unexpected;
      case _ =>
        if Blank(raw) {
          return BadBody;
        }
        StripIdempotent(raw);
        return Text(Strip(raw));
    }

    /**
     `_acquire_upstream_slot`: while waiting, the other workers run. The wait is bounded by the queue timeout and
     the deadline; it fails with the first cancel reason, when the deadline has passed, or after the whole timeout.
     */
    method AcquireSlot() returns (raised: Option<string>, ghost waited: Duration)
      requires budget.Valid()
      modifies budget, this`held, this`clock
      ensures budget.Valid() && clock >= old(clock)
      ensures raised != Some("")
      ensures held == if raised == None then old(held) + 1 else old(held)
      ensures waited <= c.queueTimeout && (waited > 0.0 ==> old(clock) + waited <= budget.limits.deadline)
      ensures old(budget.cancelReason).Some? ==> raised == old(budget.cancelReason) && waited == 0.0
      ensures old(budget.cancelReason).None? ==>
                && raised in {None, Some("deadline"), Some("queue")}
                && (raised == Some("deadline") ==> clock >= budget.limits.deadline)
                && (raised == Some("queue") ==> waited == c.queueTimeout && clock < budget.limits.deadline)
    {
      waited := 0.0;
      Tick();
      raised := budget.EnsureActive(clock);
      if raised.Some? {
        return;
      }
      Tick();
      if clock >= budget.limits.deadline {
        raised := Some("deadline");
        return;
      }
      var remaining := budget.limits.deadline - clock;
      var wait := if remaining < c.queueTimeout then remaining else c.queueTimeout;
      var granted: bool, after: real := *, *;
      budget.Interleave();
      if !granted || after < 0.0 || after > wait {
        waited := wait;
        clock := clock + wait;
        Tick();
        raised := Some(if clock >= budget.limits.deadline then "deadline" else "queue");
        return;
      }
      waited := after;
      clock := clock + after;
      held := held + 1;
    }

    /** `_sleep_before_retry`: no longer than asked and never past the deadline, before which it wakes to go on. */
    method SleepBeforeRetry(delay: Duration, attempt: nat, maxRetries: nat)
        returns (raised: Option<string>, ghost slept: Duration)
      requires budget.Valid()
      modifies budget, this`clock
      ensures budget.Valid() && clock >= old(clock) && held == old(held)
      ensures raised != Some("")
      ensures slept <= delay && (slept > 0.0 ==> old(clock) + slept <= budget.limits.deadline)
      ensures attempt + 1 >= maxRetries ==> raised == None && slept == 0.0
      ensures attempt + 1 < maxRetries ==>
                && (old(budget.cancelReason).Some? ==> raised == old(budget.cancelReason) && slept == 0.0)
                && (raised == None ==> budget.cancelReason == None && clock < budget.limits.deadline)
                && (raised.Some? ==> raised == budget.cancelReason || clock >= budget.limits.deadline)
    {
      raised, slept := None, 0.0;
      if attempt + 1 >= maxRetries {
        return;
      }
      Tick();
      raised := budget.EnsureActive(clock);
      if raised.Some? {
        return;
      }
      Tick();
      if clock >= budget.limits.deadline {
        raised := Some("deadline");
        return;
      }
      var remaining := budget.limits.deadline - clock;
      var pause := if delay < remaining then delay else remaining;
      slept := pause;
      clock := clock + pause;
      budget.Interleave();
      Tick();
      raised := budget.EnsureActive(clock);
    }

    /** One pass of the retry loop: acquire, reserve, send, and always give the slot back. */
    method Attempt(content: string, system: string) returns (raised: Option<string>, reply: Reply)
      requires budget.Valid()
      modifies this`held, this`attempts, this`clock, budget
      ensures budget.Valid() && held == old(held)
      ensures raised != Some("")
      ensures old(attempts) <= attempts <= old(attempts) + 1
      ensures raised == None && reply.Text? ==> attempts == old(attempts) + 1
      ensures reply.Text? ==> reply.text != "" && Strip(reply.text) == reply.text
    {
      reply := Unexpected;
      ghost var waited;
      raised, waited := AcquireSlot();
      if raised.Some? {
        return;
      }
      Tick();
      var valueError: bool;
      valueError, raised := budget.ReserveAttempt(clock, content + system, c.outputCap(content));
      if valueError {
        reply := BadBody;
      } else if raised == None {
        attempts := attempts + 1;
        reply := Send();
      }
      held := held - 1;
    }

    /** `_call_provider`. */
    method CallProvider(content: string, system: string, maxRetries: nat) returns (r: CallResult)
      requires budget.Valid()
      modifies this`held, this`attempts, this`clock, budget
      ensures budget.Valid() && held == old(held)
      ensures r != Exceeded("")
      ensures old(attempts) <= attempts <= old(attempts) + maxRetries
      ensures r.Answer? ==> r.text != "" && Strip(r.text) == r.text
      // A rate-limited provider is neither retried nor failed over.
      ensures r.Failed? && r.error.status == 429 && maxRetries > 0 ==> !r.error.fallbackEligible
    {
      var last: Option<ProviderError> := None;
      var attempt := 0;
      while attempt < maxRetries
        invariant attempt <= maxRetries
        invariant budget.Valid() && held == old(held)
        invariant old(attempts) <= attempts <= old(attempts) + attempt
        invariant attempt > 0 ==> last.Some? && (last.value.status == 429 ==> !last.value.fallbackEligible)
      {
        var raised, reply := Attempt(content, system);
        if raised.Some? {
          return Exceeded(raised.value);
        }
        var delay: Duration := 0.5;
        match reply {
        case Text(text) => return Answer(text);
        case DeadlineHit => return Exceeded("deadline");
        case Misconfigured => return Failed(ProviderError(0, false, None));
        case SslFailure => return Failed(ProviderError(0, false, None));
        case BadBody => return Failed(ProviderError(0, true, None));
        case Unexpected => return Crashed;
        case DnsFailure =>
          last := Some(ProviderError(0, true, None));
        case RequestFailure(status, transport, retryAfter) =>
          var retryable := Retryable(status, transport);
          last := Some(ProviderError(status, retryable, if status == 429 then retryAfter else None));
          if !retryable {
            return Failed(last.value);
          }
          if status != 0 {
            delay := 1.0;
          }
        }
        ghost var slept;
        raised, slept := SleepBeforeRetry(delay, attempt, maxRetries);
        if raised.Some? {
          return Exceeded(raised.value);
        }
        attempt := attempt + 1;
      }
      return Failed(if last.Some? then last.value else ProviderError(0, false, None));
    }

    /** `_complete`: primary first, the next provider only after a fallback-eligible failure. */
    method Complete(request: Request, maxRetries: nat) returns (r: Completion, ghost asked: seq<CallResult>)
      requires budget.Valid()
      modifies this, budget
      ensures budget.Valid() && held == old(held)
      ensures r != OverBudget("")
      ensures old(attempts) <= attempts <= old(attempts) + maxRetries * |c.providers|
      ensures InOrder(c.providers, asked) && r == Verdict(c.providers, asked)
      ensures r.Completed? ==>
                && r.ns in Namespaces(c.providers)
                && r.text != "" && Strip(r.text) == r.text
                && log == old(log) + [Call(r.ns, c.providers[|asked| - 1].model, request, r.text)]
                && ByProvider(c, log[|log| - 1])
      ensures !r.Completed? ==> log == old(log)
    {
      var content, system := c.render(request), c.prompt(request);
      var last: Option<ProviderError> := None;
      var i := 0;
      asked := [];
      while i < |c.providers|
        invariant i <= |c.providers| && budget.Valid() && held == old(held) && log == old(log)
        invariant old(attempts) <= attempts <= old(attempts) + maxRetries * i
        invariant |asked| == i && (forall k | 0 <= k < i :: Eligible(asked[k])) && last == LastError(asked)
      {
        var p := c.providers[i];
        var result := CallProvider(content, system, maxRetries);
        MulStep(maxRetries, i, |c.providers|);
        assert (asked + [result])[..i] == asked;
        asked := asked + [result];
        match result {
        case Answer(text) =>
          assert p in c.providers && p == Provider(p.ns, p.model);
          log := log + [Call(p.ns, p.model, request, text)];
          r := Completed(text, p.ns);
          return;
        case Exceeded(reason) =>
          r := OverBudget(reason);
          return;
        case Failed(error) =>
          last := Some(error);
          if !error.fallbackEligible {
            r := Rejected(last);
            return;
          }
        case Crashed =>
          r := Rejected(last);
          return;
        }
        i := i + 1;
      }
      r := Rejected(last);
    }

    /** `_translate_text_operation`. */
    method TranslateText(text: string, maxRetries: nat) returns (r: Completion, ghost asked: seq<CallResult>)
      requires budget.Valid()
      modifies this, budget
      ensures budget.Valid() && held == old(held)
      ensures r != OverBudget("")
      ensures old(attempts) <= attempts <= old(attempts) + maxRetries * |c.providers|
      ensures r.Completed? ==>
                && r.ns in Namespaces(c.providers) && r.text != "" && 0 < |asked| <= |c.providers|
                && log == old(log) + [Call(r.ns, c.providers[|asked| - 1].model, Single(text), r.text)]
                && ByProvider(c, log[|log| - 1])
      ensures !r.Completed? ==> log == old(log)
      // A cancelled budget is seen before any provider; otherwise the answer is that of the providers in order.
      ensures old(budget.cancelReason).Some? ==>
                && r == OverBudget(old(budget.cancelReason).value) && asked == []
                && attempts == old(attempts) && budget.State() == old(budget.State())
      ensures asked == [] && c.providers != [] ==> r.OverBudget?
      ensures asked != [] ==> InOrder(c.providers, asked) && r == Verdict(c.providers, asked)
    {
      Tick();
      asked := [];
      var raised := budget.EnsureActive(clock);
      if raised.Some? {
        r := OverBudget(raised.value);
        return;
      }
      r, asked := Complete(Single(text), maxRetries);
    }

    /** The direct path of `_translate_group`: one single-text call, cacheable under the single contract. */
    method TranslateAlone(text: string) returns (r: GroupResult)
      requires budget.Valid()
      modifies this, budget
      ensures budget.Valid() && held == old(held)
      ensures r != GroupOverBudget("")
      ensures old(attempts) <= attempts <= old(attempts) + |c.providers|
      ensures old(log) <= log
      ensures r.Items? ==>
                && |r.items| == 1 && Clean(c, r.items[0]) && r.items[0].cacheable
                && exists call | call in log :: FromSingle(c, call, r.items[0].provider, text, r.items[0].text)
    {
      var done, _ := TranslateText(text, 1);
      match done
      case OverBudget(reason) => r := GroupOverBudget(reason);
      case Unavailable(code, retryAfter) => r := GroupUnavailable(code, retryAfter);
      case Completed(out, ns) =>
        assert log[|log| - 1] in log && FromSingle(c, log[|log| - 1], ns, text, out);
        r := Items([Item(out, ns, true, Direct, None, None)]);
    }

    /** One envelope attempt: `None` when the provider answered with a malformed envelope. */
    method TryEnvelope(texts: seq<string>, context: string, ids: seq<string>, path: Path)
        returns (r: Option<GroupResult>)
      requires budget.Valid() && |ids| == |texts| && Distinct(ids)
      requires path == Direct || path == EnvelopeRetry
      modifies this, budget
      ensures budget.Valid() && held == old(held)
      ensures r != Some(GroupOverBudget(""))
      ensures old(attempts) <= attempts <= old(attempts) + |c.providers|
      ensures old(log) <= log
      ensures r.Some? && r.value.Items? ==>
                && |r.value.items| == |texts|
                && forall j | 0 <= j < |texts| ::
                     r.value.items[j].path == path && EnvelopeItem(c, log, texts, context, j, r.value.items[j])
      ensures |log| <= |old(log)| + 1 && (r.None? ==> |log| == |old(log)| + 1)
      // The providers answered this very request: None for a malformed envelope, items for an accepted one.
      ensures |log| == |old(log)| + 1 ==>
                var call := log[|old(log)|];
                && call.request == Envelope(ids, texts, context) && ByProvider(c, call)
                && (if AcceptedCall(c, call) then r.Some? && r.value.Items? else r.None?)
      ensures r.Some? && r.value.Items? ==> |log| == |old(log)| + 1
    {
      var request := Envelope(ids, texts, context);
      var done, _ := Complete(request, 1);
      match done
      case OverBudget(reason) => return Some(GroupOverBudget(reason));
      case Unavailable(code, retryAfter) => return Some(GroupUnavailable(code, retryAfter));
      case Completed(output, ns) =>
        var parsed := ParseSegmentEnvelope(Utf8Length(output), c.parse(output), ids, c.responseCap);
        if parsed.None? {
          return None;
        }
        ghost var call := log[|log| - 1];
        assert call in log && AcceptedCall(c, call);
        var items := seq(|texts|, j requires 0 <= j < |texts| => Item(parsed.value[j], ns, true, path, None, None));
        forall j | 0 <= j < |texts| ensures EnvelopeItem(c, log, texts, context, j, items[j]) {
          EnvelopeItemHolds(c, log, call, j, items[j]);
        }
        return Some(Items(items));
    }

    /** One segment of the last recovery: its own answer, or a sanitized error marker. */
    method RecoverOne(text: string) returns (over: Option<string>, item: Item)
      requires budget.Valid()
      modifies this, budget
      ensures budget.Valid() && held == old(held) && old(log) <= log
      ensures over != Some("")
      ensures old(attempts) <= attempts <= old(attempts) + |c.providers|
      ensures over.None? ==> !item.cacheable && Recovered(c, log, text, item)
    {
      var done, _ := TranslateText(text, 1);
      match done
      case OverBudget(reason) =>
        over, item := Some(reason), Item("", "", false, Empty, None, None);
      case Completed(out, ns) =>
        over, item := None, Item(out, ns, false, ParagraphFallback, None, None);
        assert log[|log| - 1] in log && FromSingle(c, log[|log| - 1], ns, text, out);
      case Unavailable(code, retryAfter) =>
        over, item := None, Item(ErrorText(code), "", false, ParagraphFailed, Some(code), retryAfter);
    }

    /** Last recovery: each segment on its own; nothing here may be cached. */
    method RecoverParagraphs(texts: seq<string>) returns (r: GroupResult)
      requires budget.Valid()
      modifies this, budget
      ensures budget.Valid() && held == old(held)
      ensures r != GroupOverBudget("")
      ensures old(attempts) <= attempts <= old(attempts) + |texts| * |c.providers|
      ensures old(log) <= log
      ensures !r.GroupUnavailable?
      ensures r.Items? ==> AllRecovered(c, log, texts, r.items)
    {
      var items: seq<Item> := [];
      for k := 0 to |texts|
        invariant budget.Valid() && held == old(held) && old(log) <= log
        invariant old(attempts) <= attempts <= old(attempts) + k * |c.providers|
        invariant AllRecovered(c, log, texts[..k], items)
      {
        ghost var before := log;
        var over, item := RecoverOne(texts[k]);
        assert (k + 1) * |c.providers| == k * |c.providers| + |c.providers|;
        if over.Some? {
          return GroupOverBudget(over.value);
        }
        AllRecoveredOn(c, before, log, texts, k, items, item);
        items := items + [item];
      }
      assert texts[..|texts|] == texts;
      return Items(items);
    }

    /** Both envelope attempts, with ids of their own; `None` when both answers were malformed. */
    method TryEnvelopes(texts: seq<string>, context: string) returns (r: Option<GroupResult>)
      requires budget.Valid()
      modifies this, budget
      ensures budget.Valid() && held == old(held)
      ensures r != Some(GroupOverBudget(""))
      ensures old(attempts) <= attempts <= old(attempts) + 2 * |c.providers|
      ensures old(log) <= log
      ensures r.Some? && r.value.Items? ==> Outcome(c, log, texts, context, r.value.items)
    {
      var used: seq<string> := [];
      for envelopeAttempt := 0 to 2
        invariant budget.Valid() && held == old(held) && old(log) <= log
        invariant old(attempts) <= attempts <= old(attempts) + envelopeAttempt * |c.providers|
      {
        var ids := FreshIds(used, |texts|);
        used := used + ids;
        r := TryEnvelope(texts, context, ids, if envelopeAttempt == 0 then Direct else EnvelopeRetry);
        if r.Some? {
          return;
        }
      }
      r := None;
    }

    /** `_translate_group_operation` past the direct path: two envelopes, then paragraph recovery. */
    method TranslateEnvelope(texts: seq<string>, context: string) returns (r: GroupResult)
      requires budget.Valid()
      modifies this, budget
      ensures budget.Valid() && held == old(held)
      ensures r != GroupOverBudget("")
      ensures old(attempts) <= attempts <= old(attempts) + EnvelopeAttempts(|texts|, |c.providers|)
      ensures old(log) <= log
      ensures r.Items? ==> Outcome(c, log, texts, context, r.items)
    {
      assert EnvelopeAttempts(|texts|, |c.providers|) == |texts| * |c.providers| + 2 * |c.providers|;
      var result := TryEnvelopes(texts, context);
      if result.Some? {
        return result.value;
      }
      r := RecoverParagraphs(texts);
    }

    /** `_translate_group` for a group of the request. */
    method TranslateGroup(all: seq<string>, idxs: seq<nat>) returns (r: GroupResult)
      requires budget.Valid() && idxs != [] && InRange(idxs, |all|)
      modifies this, budget
      ensures budget.Valid() && held == old(held)
      ensures r != GroupOverBudget("")
      ensures old(attempts) <= attempts <= old(attempts) + AttemptBound(c, |idxs|)
      ensures old(log) <= log
      ensures r.Items? ==>
                var texts, context := Pick(all, idxs), ContextBlock(all, idxs, c.window);
                && (TakesSinglePath(c, |idxs|) ==> AloneOutcome(c, log, texts, r.items))
                && (!TakesSinglePath(c, |idxs|) ==> Outcome(c, log, texts, context, r.items))
    {
      var texts := Pick(all, idxs);
      if |idxs| == 1 && c.window == 0 {
        r := TranslateAlone(texts[0]);
        return;
      }
      Tick();
      var raised := budget.EnsureActive(clock);
      if raised.Some? {
        return GroupOverBudget(raised.value);
      }
      r := TranslateEnvelope(texts, ContextBlock(all, idxs, c.window));
    }
  }

  // ---- Group texts and their context ---------------------------------------

  predicate InRange(idxs: seq<nat>, n: nat) {
    forall j | 0 <= j < |idxs| :: idxs[j] < n
  }

  /** The elements at these indices, in order. */
  function Pick<T>(all: seq<T>, idxs: seq<nat>): (picked: seq<T>)
    requires InRange(idxs, |all|)
    ensures |picked| == |idxs| && forall j | 0 <= j < |idxs| :: picked[j] == all[idxs[j]]
  {
    seq(|idxs|, j requires 0 <= j < |idxs| => all[idxs[j]])
  }

  function StrippedNonBlank(texts: seq<string>): seq<string> {
    if texts == [] then []
    else (if Blank(texts[0]) then [] else [Strip(texts[0])]) + StrippedNonBlank(texts[1..])
  }

  function Join(separator: string, parts: seq<string>): string {
    if parts == [] then ""
    else if |parts| == 1 then parts[0]
    else parts[0] + separator + Join(separator, parts[1..])
  }

  /** `_build_context_block`, with "" for None. */
  function ContextBlock(all: seq<string>, idxs: seq<nat>, window: nat): string
    requires InRange(idxs, |all|)
  {
    if window == 0 || idxs == [] then "" else
    var first, last := idxs[0], idxs[|idxs| - 1];
    var before := StrippedNonBlank(all[if first < window then 0 else first - window..first]);
    var after := StrippedNonBlank(all[last + 1..if last + 1 + window < |all| then last + 1 + window else |all|]);
    var sections :=
      (if before == [] then [] else ["[CONTEXT BEFORE]\n" + Join("\n", before)])
      + (if after == [] then [] else ["[CONTEXT AFTER]\n" + Join("\n", after)]);
    if sections == [] then ""
    else "[CONTEXT] Surrounding story context — do NOT translate:\n" + Join("\n\n", sections)
  }

  // ---- Outcomes of a group --------------------------------------------------

  /** A cacheable item names a real provider, carries a non-empty text and no error, and is no recovery. */
  predicate Clean(c: Config, item: Item) {
    && item.provider in Namespaces(c.providers) && item.text != "" && item.errorCode == None
    && (item.path == Direct || item.path == EnvelopeRetry)
  }

  lemma EnvelopeItemHolds(c: Config, log: seq<Call>, call: Call, j: nat, item: Item)
    requires AcceptedCall(c, call) && ByProvider(c, call) && call in log && j < |call.request.ids|
    requires item == Item(Translated(c, call)[j], call.ns, true, item.path, None, None)
    requires item.path == Direct || item.path == EnvelopeRetry
    ensures EnvelopeItem(c, log, call.request.texts, call.request.context, j, item)
  {
    assert call.ns in Namespaces(c.providers) by {
      assert Provider(call.ns, call.model) in c.providers;
    }
    BoundToItsOwnId(Utf8Length(call.output), c.parse(call.output), call.request.ids, c.responseCap, j);
    assert FromEnvelope(c, call, item.provider, call.request.texts, call.request.context, j, item.text);
  }

  /** Paragraph recovery: the segment's own single-text answer, or a sanitized error marker. */
  ghost predicate Recovered(c: Config, log: seq<Call>, text: string, item: Item) {
    match item.errorCode
    case Some(code) => item.text == ErrorText(code) && item.provider == "" && item.path == ParagraphFailed
    case None => item.path == ParagraphFallback && exists call | call in log :: FromSingle(c, call, item.provider, text, item.text)
  }

  lemma RecoveredStays(c: Config, before: seq<Call>, after: seq<Call>, text: string, item: Item)
    requires before <= after && Recovered(c, before, text, item)
    ensures Recovered(c, after, text, item)
  {
    if item.errorCode == None {
      var call :| call in before && FromSingle(c, call, item.provider, text, item.text);
      assert call in after;
    }
  }

  /** One recovered item per segment, none of which may be cached. */
  ghost predicate AllRecovered(c: Config, log: seq<Call>, texts: seq<string>, items: seq<Item>) {
    && |items| == |texts|
    && forall j | 0 <= j < |texts| :: !items[j].cacheable && Recovered(c, log, texts[j], items[j])
  }

  lemma AllRecoveredOn(c: Config, before: seq<Call>, after: seq<Call>, texts: seq<string>, k: nat, items: seq<Item>, item: Item)
    requires k < |texts| && before <= after && AllRecovered(c, before, texts[..k], items)
    requires !item.cacheable && Recovered(c, after, texts[k], item)
    ensures AllRecovered(c, after, texts[..k + 1], items + [item])
  {
    forall j | 0 <= j < k ensures Recovered(c, after, texts[j], items[j]) {
      RecoveredStays(c, before, after, texts[j], items[j]);
    }
  }

  ghost predicate AloneOutcome(c: Config, log: seq<Call>, texts: seq<string>, items: seq<Item>) {
    && |items| == |texts| == 1 && Clean(c, items[0]) && items[0].cacheable
    && exists call | call in log :: FromSingle(c, call, items[0].provider, texts[0], items[0].text)
  }

  /**
   One item per segment, in order. Either every item is cacheable and is the text an accepted
   envelope for exactly these segments bound to its id, or none is cacheable.
   */
  ghost predicate Outcome(c: Config, log: seq<Call>, texts: seq<string>, context: string, items: seq<Item>) {
    && |items| == |texts|
    && (|| (forall j | 0 <= j < |texts| :: EnvelopeItem(c, log, texts, context, j, items[j]))
        || AllRecovered(c, log, texts, items))
  }

  ghost predicate EnvelopeItem(c: Config, log: seq<Call>, texts: seq<string>, context: string, j: nat, item: Item) {
    && Clean(c, item) && item.cacheable
    && exists call | call in log && ByProvider(c, call) :: FromEnvelope(c, call, item.provider, texts, context, j, item.text)
  }

  /** A group whose first call found no provider: one sanitized marker per segment, never cacheable. */
  predicate AllFailed(items: seq<Item>, n: nat) {
    && |items| == n
    && forall j | 0 <= j < n ::
         !items[j].cacheable && items[j].errorCode.Some? && items[j].text == ErrorText(items[j].errorCode.value)
  }

  /** Everything a finished group can be. */
  ghost predicate GroupOutcome(c: Config, log: seq<Call>, all: seq<string>, idxs: seq<nat>, items: seq<Item>)
    requires InRange(idxs, |all|)
  {
    || AllFailed(items, |idxs|)
    || (TakesSinglePath(c, |idxs|) && AloneOutcome(c, log, Pick(all, idxs), items))
    || (!TakesSinglePath(c, |idxs|) && Outcome(c, log, Pick(all, idxs), ContextBlock(all, idxs, c.window), items))
  }

  lemma MulStep(m: nat, i: nat, n: nat)
    requires i < n
    ensures m * i + m == m * (i + 1) <= m * n
  {
    MulLe(m, i + 1, n);
  }

  lemma MulLe(m: nat, a: nat, b: nat)
    requires a <= b
    ensures m * a <= m * b
  {
  }
}
