/**
 The translation cache as the server uses it: lookup of whole groups, refresh of whole groups, and
 the evidence behind every stored entry. The store itself is a map with atomic transactions.
 */
module Provenance {
  import opened Basics
  import opened Texts
  import opened WorkBudgets
  import opened Envelopes
  import G = Grouping
  import opened Translator
  import opened Scheduler

  /** `TranslationCacheContract`, with its hashes read as injective. */
  datatype Contract =
    | SingleContract(source: string, target: string)
    | GroupedContract(source: string, target: string, segments: seq<string>, context: string, window: nat)

  /** Everything the cache key hashes. */
  datatype Key = Key(tenant: string, book: string, chapter: string, contract: Contract,
                     provider: string, model: string, source: string, target: string, text: string)

  datatype Scope = Scope(tenant: string, book: string, chapter: string)

  /** A provider call together with the languages of the request that made it. */
  datatype Evidence = Evidence(source: string, target: string, call: Call)

  /** The configured backends; their namespaces are distinct. */
  datatype Backends = Backends(primary: Provider, fallback: Option<Provider>) {
    predicate Distinct() {
      fallback.Some? ==> primary.ns != fallback.value.ns
    }

    /** `_eligible_providers`. */
    function Eligible(allowFallback: bool): seq<Provider> {
      if fallback.Some? && allowFallback then [primary, fallback.value] else [primary]
    }

    /** `model_for_provider`. */
    function ModelFor(ns: string): string {
      if ns == primary.ns then primary.model
      else if fallback.Some? && ns == fallback.value.ns then fallback.value.model
      else primary.model
    }
  }

  /** The settings of the server: those of its requests that do not vary, and the configured backends. */
  datatype Base = Base(config: Config, backends: Backends)

  /** The model recorded with a translation is the model of the provider that served it. */
  lemma ModelIsServersOwn(b: Backends, allowFallback: bool, p: Provider)
    requires b.Distinct() && p in b.Eligible(allowFallback)
    ensures b.ModelFor(p.ns) == p.model
  {
  }

  /** `batch_cache_contract` for a non-empty group of valid indices. */
  function BatchContract(c: Config, all: seq<string>, idxs: seq<nat>): Contract
    requires idxs != [] && InRange(idxs, |all|)
  {
    if |idxs| == 1 && c.window == 0 then SingleContract(c.source, c.target)
    else GroupedContract(c.source, c.target, StripAll(Pick(all, idxs)), ContextBlock(all, idxs, c.window), c.window)
  }

  function KeyFor(c: Config, s: Scope, contract: Contract, p: Provider, text: string): Key {
    Key(s.tenant, s.book, s.chapter, contract, p.ns, p.model, Strip(c.source), Strip(c.target), Strip(text))
  }

  // ---- Provenance -----------------------------------------------------------

  /** A single-text call for this key's text produced `value`. */
  ghost predicate SingleProof(e: Evidence, key: Key, value: string) {
    && e.source == key.contract.source && e.target == key.contract.target
    && e.call.request.Single? && e.call.ns == key.provider && e.call.model == key.model
    && Strip(e.call.request.text) == key.text && e.call.output == value
  }

  /** `value` is what an accepted envelope for exactly the key's segment list bound to the key's text. */
  ghost predicate EnvelopeProof(base: Base, e: Evidence, j: int, key: Key, value: string)
    requires key.contract.GroupedContract?
  {
    && e.source == key.contract.source && e.target == key.contract.target
    && e.call.request.Envelope?
    && 0 <= j < |e.call.request.texts|
    && StripAll(e.call.request.texts) == key.contract.segments
    && e.call.model == key.model
    && FromEnvelope(base.config, e.call, key.provider, e.call.request.texts, key.contract.context, j, value)
    && Strip(e.call.request.texts[j]) == key.text
  }

  ghost predicate SingleBehind(evidence: seq<Evidence>, key: Key, value: string) {
    exists e :: e in evidence && SingleProof(e, key, value)
  }

  ghost predicate EnvelopeBehind(base: Base, evidence: seq<Evidence>, key: Key, value: string)
    requires key.contract.GroupedContract?
  {
    exists e, j :: e in evidence && EnvelopeProof(base, e, j, key, value)
  }

  /**
   Why an entry may be in the cache: its model is the configured model of its provider, and a call that provider
   answered with that model produced it. With no context window a grouped entry always has an envelope
   behind it; the extra disjunct exists only for a positive window (see `GroupedWriteNeedsWindow`).
   */
  ghost predicate Justified(base: Base, evidence: seq<Evidence>, key: Key, value: string) {
    && key.model == base.backends.ModelFor(key.provider)
    && match key.contract
       case SingleContract(_, _) => SingleBehind(evidence, key, value)
       case GroupedContract(_, _, segments, _, window) =>
         || EnvelopeBehind(base, evidence, key, value)
         || (window > 0 && segments == [key.text] && SingleBehind(evidence, key, value))
  }

  lemma JustifiedStays(base: Base, before: seq<Evidence>, after: seq<Evidence>, key: Key, value: string)
    requires before <= after && Justified(base, before, key, value)
    ensures Justified(base, after, key, value)
  {
    if SingleBehind(before, key, value) {
      var e :| e in before && SingleProof(e, key, value);
      assert e in after;
    }
    if key.contract.GroupedContract? && EnvelopeBehind(base, before, key, value) {
      var e, j :| e in before && EnvelopeProof(base, e, j, key, value);
      assert e in after;
    }
  }

  /** The calls of one worker, as evidence of the request's languages. */
  function AsEvidence(c: Config, log: seq<Call>): (r: seq<Evidence>)
    ensures |r| == |log| && forall i | 0 <= i < |log| :: r[i] == Evidence(c.source, c.target, log[i])
  {
    seq(|log|, i requires 0 <= i < |log| => Evidence(c.source, c.target, log[i]))
  }

  function AllEvidence(c: Config, logs: seq<seq<Call>>): seq<Evidence> {
    if logs == [] then [] else AllEvidence(c, logs[..|logs| - 1]) + AsEvidence(c, logs[|logs| - 1])
  }

  lemma {:induction false} LogIsEvidence(c: Config, logs: seq<seq<Call>>, k: nat, call: Call)
    requires k < |logs| && call in logs[k]
    ensures Evidence(c.source, c.target, call) in AllEvidence(c, logs)
  {
    if k < |logs| - 1 {
      LogIsEvidence(c, logs[..|logs| - 1], k, call);
    } else {
      var i :| 0 <= i < |logs[k]| && logs[k][i] == call;
      assert AsEvidence(c, logs[k])[i] == Evidence(c.source, c.target, call);
    }
  }

  /** `c` is the request's view of the server settings, with the backends it may use. */
  ghost predicate SameServer(base: Base, c: Config) {
    && c.parse == base.config.parse && c.responseCap == base.config.responseCap && c.window == base.config.window
    && base.backends.Distinct()
    && (c.providers == base.backends.Eligible(true) || c.providers == base.backends.Eligible(false))
  }

  /** The model of a logged call is the one the server records with the provider that answered. */
  lemma CallHasServersModel(base: Base, c: Config, call: Call)
    requires SameServer(base, c) && ByProvider(c, call)
    ensures call.model == base.backends.ModelFor(call.ns)
  {
    var allowFallback := c.providers == base.backends.Eligible(true);
    ModelIsServersOwn(base.backends, allowFallback, Provider(call.ns, call.model));
  }

  /** Provider and model as the server records them with an answer of namespace `ns`. */
  function Recorded(base: Base, ns: string): Provider {
    Provider(ns, base.backends.ModelFor(ns))
  }

  lemma SingleItemJustified(base: Base, c: Config, s: Scope, p: Provider, text: string, log: seq<Call>,
                            item: Item, evidence: seq<Evidence>)
    requires SameServer(base, c) && AloneOutcome(c, log, [text], [item]) && p == Recorded(base, item.provider)
    requires forall call | call in log :: Evidence(c.source, c.target, call) in evidence
    ensures Justified(base, evidence, KeyFor(c, s, SingleContract(c.source, c.target), p, text), item.text)
  {
    var call :| call in log && FromSingle(c, call, item.provider, text, item.text);
    CallHasServersModel(base, c, call);
    var e := Evidence(c.source, c.target, call);
    assert SingleProof(e, KeyFor(c, s, SingleContract(c.source, c.target), p, text), item.text);
  }

  /** The server's settings and the request's view of them accept the same envelopes. */
  lemma SameEnvelope(base: Base, c: Config, call: Call, ns: string, texts: seq<string>, context: string, j: nat,
                     text: string)
    requires SameServer(base, c) && FromEnvelope(c, call, ns, texts, context, j, text)
    ensures FromEnvelope(base.config, call, ns, texts, context, j, text)
  {
    assert AcceptedCall(base.config, call) && Translated(base.config, call) == Translated(c, call);
  }

  lemma EnvelopeItemJustified(base: Base, c: Config, s: Scope, p: Provider, texts: seq<string>, context: string,
                              j: nat, log: seq<Call>, item: Item, evidence: seq<Evidence>)
    requires SameServer(base, c) && j < |texts|
    requires EnvelopeItem(c, log, texts, context, j, item) && p == Recorded(base, item.provider)
    requires forall call | call in log :: Evidence(c.source, c.target, call) in evidence
    ensures var contract := GroupedContract(c.source, c.target, StripAll(texts), context, c.window);
            Justified(base, evidence, KeyFor(c, s, contract, p, texts[j]), item.text)
  {
    var contract := GroupedContract(c.source, c.target, StripAll(texts), context, c.window);
    var key := KeyFor(c, s, contract, p, texts[j]);
    var call :| call in log && ByProvider(c, call) && FromEnvelope(c, call, item.provider, texts, context, j, item.text);
    CallHasServersModel(base, c, call);
    SameEnvelope(base, c, call, item.provider, texts, context, j, item.text);
    assert EnvelopeProof(base, Evidence(c.source, c.target, call), j, key, item.text);
  }

  /** A cacheable item of a finished group justifies the entry the server writes for it. */
  lemma CacheableIsJustified(base: Base, c: Config, s: Scope, p: Provider, all: seq<string>, idxs: seq<nat>,
                             log: seq<Call>, items: seq<Item>, evidence: seq<Evidence>, j: nat)
    requires SameServer(base, c) && idxs != [] && InRange(idxs, |all|) && j < |idxs|
    requires GroupOutcome(c, log, all, idxs, items) && |items| == |idxs| && items[j].cacheable
    requires p == Recorded(base, items[j].provider)
    requires forall call | call in log :: Evidence(c.source, c.target, call) in evidence
    ensures Justified(base, evidence, KeyFor(c, s, BatchContract(c, all, idxs), p, all[idxs[j]]), items[j].text)
  {
    var texts := Pick(all, idxs);
    if TakesSinglePath(c, |idxs|) {
      assert texts == [all[idxs[0]]] && items == [items[0]];
      SingleItemJustified(base, c, s, p, texts[0], log, items[0], evidence);
    } else {
      EnvelopeItemJustified(base, c, s, p, texts, ContextBlock(all, idxs, c.window), j, log, items[j], evidence);
    }
  }

  // ---- The single endpoint's writes -----------------------------------------

  /** `put_cache` under the single contract, then under the one-item batch contract. */
  function SingleWrites(c: Config, s: Scope, p: Provider, text: string): seq<Key> {
    [KeyFor(c, s, SingleContract(c.source, c.target), p, text),
     KeyFor(c, s, BatchContract(c, [text], [0]), p, text)]
  }

  /**
   The single endpoint stores a single-text answer under a grouped contract exactly when a context
   window is configured; with window 0 both of its writes go under the single contract.
   */
  lemma GroupedWriteNeedsWindow(c: Config, s: Scope, p: Provider, text: string)
    ensures (exists k | k in SingleWrites(c, s, p, text) :: k.contract.GroupedContract?) <==> c.window > 0
  {
    var keys := SingleWrites(c, s, p, text);
    assert keys[0] in keys && keys[1] in keys;
  }

  lemma SingleWritesJustified(base: Base, c: Config, s: Scope, p: Provider, text: string,
                              output: string, evidence: seq<Evidence>, key: Key)
    requires SameServer(base, c) && key in SingleWrites(c, s, p, text) && p == Recorded(base, p.ns)
    requires Evidence(c.source, c.target, Call(p.ns, p.model, Single(text), output)) in evidence
    ensures Justified(base, evidence, key, output)
  {
    var e := Evidence(c.source, c.target, Call(p.ns, p.model, Single(text), output));
    assert SingleProof(e, key, output);
    if key.contract.GroupedContract? {
      assert StripAll(Pick([text], [0])) == [Strip(text)];
    }
  }

  // ---- The server -----------------------------------------------------------

  datatype Served = Hit(text: string) | Fresh(text: string, ns: string) | Failure

  /** The group was answered from one provider-and-contract scope. */
  ghost predicate HitsFrom(base: Base, evidence: seq<Evidence>, c: Config, s: Scope, contract: Contract, p: Provider,
                           texts: seq<string>, hits: seq<string>) {
    && |hits| == |texts|
    && forall j | 0 <= j < |texts| :: Justified(base, evidence, KeyFor(c, s, contract, p, texts[j]), hits[j])
  }

  lemma HitsStay(base: Base, before: seq<Evidence>, after: seq<Evidence>, c: Config, s: Scope, contract: Contract,
                 p: Provider, texts: seq<string>, hits: seq<string>)
    requires before <= after && HitsFrom(base, before, c, s, contract, p, texts, hits)
    ensures HitsFrom(base, after, c, s, contract, p, texts, hits)
  {
    forall j | 0 <= j < |texts| ensures Justified(base, after, KeyFor(c, s, contract, p, texts[j]), hits[j]) {
      JustifiedStays(base, before, after, KeyFor(c, s, contract, p, texts[j]), hits[j]);
    }
  }

  /** One more hit of the same scope. */
  lemma HitsOn(base: Base, before: seq<Evidence>, after: seq<Evidence>, c: Config, s: Scope, contract: Contract,
               p: Provider, texts: seq<string>, j: nat, hits: seq<string>, hit: string)
    requires before <= after && j < |texts| && HitsFrom(base, before, c, s, contract, p, texts[..j], hits)
    requires Justified(base, after, KeyFor(c, s, contract, p, texts[j]), hit)
    ensures HitsFrom(base, after, c, s, contract, p, texts[..j + 1], hits + [hit])
  {
    HitsStay(base, before, after, c, s, contract, p, texts[..j], hits);
    var more, longer := texts[..j + 1], hits + [hit];
    forall i | 0 <= i < |more| ensures Justified(base, after, KeyFor(c, s, contract, p, more[i]), longer[i]) {
      if i < j {
        assert more[i] == texts[..j][i];
      }
    }
  }

  class Server {
    const base: Base
    var cache: map<Key, string>
    ghost var evidence: seq<Evidence>

    /** Every stored entry is justified by a call that was made. */
    ghost predicate Valid()
      reads this
    {
      base.backends.Distinct() && forall key | key in cache :: Justified(base, evidence, key, cache[key])
    }

    constructor (base: Base)
      requires base.backends.Distinct()
      ensures Valid() && cache == map[] && evidence == [] && this.base == base
    {
      this.base := base;
      cache, evidence := map[], [];
    }

    /** Between two of our transactions other requests store justified entries and old ones disappear. */
    method Interleave()
      requires Valid()
      modifies this
      ensures Valid() && old(evidence) <= evidence
    {
    }

    ghost method Witness(more: seq<Evidence>)
      requires Valid()
      modifies this`evidence
      ensures Valid() && evidence == old(evidence) + more
    {
      var before := evidence;
      evidence := evidence + more;
      forall key | key in cache ensures Justified(base, evidence, key, cache[key]) {
        JustifiedStays(base, before, evidence, key, cache[key]);
      }
    }

    /** `get_cached` for one scope. */
    method Get(key: Key) returns (hit: Option<string>)
      requires Valid()
      modifies this
      ensures Valid() && old(evidence) <= evidence
      ensures hit.Some? ==> Justified(base, evidence, key, hit.value)
    {
      Interleave();
      hit := if key in cache then Some(cache[key]) else None;
    }

    /** One transaction; it may fail as a whole, which the server only logs. */
    method PutMany(writes: seq<(Key, string)>)
      requires Valid()
      requires forall i | 0 <= i < |writes| :: Justified(base, evidence, writes[i].0, writes[i].1)
      modifies this`cache
      ensures Valid()
      ensures cache == old(cache) || cache == Stored(old(cache), writes)
    {
      var fails: bool := *;
      if fails {
        return;
      }
      ghost var before := cache;
      for i := 0 to |writes|
        invariant Valid() && cache == Stored(before, writes[..i])
      {
        assert writes[..i + 1][..i] == writes[..i];
        cache := cache[writes[i].0 := writes[i].1];
      }
      assert writes[..|writes|] == writes;
    }

    /** `_translate_single`: the request-level behaviour of the single endpoint. */
    method TranslateSingle(c: Config, s: Scope, allowFallback: bool, text: string, budget: WorkBudget)
        returns (r: Served)
      requires Valid() && budget.Valid() && SameServer(base, c)
      requires c.providers == base.backends.Eligible(allowFallback)
      modifies this, budget
      ensures Valid() && old(evidence) <= evidence
      ensures r.Hit? ==> exists contract, p | p in c.providers :: Justified(base, evidence, KeyFor(c, s, contract, p,
               text), r.text)
      ensures r.Fresh? ==>
                Evidence(c.source, c.target, Call(r.ns, base.backends.ModelFor(r.ns), Single(text), r.text)) in evidence
    {
      var contracts := [SingleContract(c.source, c.target), BatchContract(c, [text], [0])];
      for i := 0 to |c.providers|
        invariant Valid() && budget.Valid() && old(evidence) <= evidence
      {
        for n := 0 to |contracts|
          invariant Valid() && budget.Valid() && old(evidence) <= evidence
        {
          var hit := Get(KeyFor(c, s, contracts[n], c.providers[i], text));
          if hit.Some? {
            assert c.providers[i] in c.providers;
            return Hit(hit.value);
          }
        }
      }
      var worker := new Worker(c, budget);
      var done, _ := worker.TranslateText(text, 2);
      if !done.Completed? {
        return Failure;
      }
      ghost var call := worker.log[0];
      CallHasServersModel(base, c, call);
      Witness([Evidence(c.source, c.target, call)]);
      assert evidence[|evidence| - 1] == Evidence(c.source, c.target, call);
      var p := Provider(done.ns, base.backends.ModelFor(done.ns));
      var keys := SingleWrites(c, s, p, text);
      forall i | 0 <= i < |keys| ensures Justified(base, evidence, keys[i], done.text) {
        SingleWritesJustified(base, c, s, p, text, done.text, evidence, keys[i]);
      }
      PutMany([(keys[0], done.text)]);
      PutMany([(keys[1], done.text)]);
      r := Fresh(done.text, done.ns);
    }

    /** One backend: every text of the group is a hit under this contract, or nothing is taken. */
    method LookupProvider(c: Config, s: Scope, contract: Contract, p: Provider, texts: seq<string>)
        returns (candidate: Option<seq<string>>)
      requires Valid()
      modifies this
      ensures Valid() && old(evidence) <= evidence
      ensures candidate.Some? ==> HitsFrom(base, evidence, c, s, contract, p, texts, candidate.value)
    {
      var hits: seq<string> := [];
      for j := 0 to |texts|
        invariant Valid() && old(evidence) <= evidence
        invariant HitsFrom(base, evidence, c, s, contract, p, texts[..j], hits)
      {
        ghost var before := evidence;
        var hit := Get(KeyFor(c, s, contract, p, texts[j]));
        if hit.None? {
          return None;
        }
        HitsOn(base, before, evidence, c, s, contract, p, texts, j, hits, hit.value);
        hits := hits + [hit.value];
      }
      assert texts[..|texts|] == texts;
      return Some(hits);
    }

    /** One pass over the backends: the whole group under one contract and one provider, or nothing. */
    method LookupGroup(c: Config, s: Scope, contract: Contract, texts: seq<string>)
        returns (found: Option<(Provider, seq<string>)>)
      requires Valid() && texts != []
      modifies this
      ensures Valid() && old(evidence) <= evidence
      ensures found.Some? ==>
                && found.value.0 in c.providers
                && HitsFrom(base, evidence, c, s, contract, found.value.0, texts, found.value.1)
    {
      for i := 0 to |c.providers|
        invariant Valid() && old(evidence) <= evidence
      {
        var p := c.providers[i];
        var candidate := LookupProvider(c, s, contract, p, texts);
        if candidate.Some? {
          assert p in c.providers;
          return Some((p, candidate.value));
        }
      }
      return None;
    }
  }

  function Stored(cache: map<Key, string>, writes: seq<(Key, string)>): map<Key, string> {
    if writes == [] then cache
    else Stored(cache, writes[..|writes| - 1])[writes[|writes| - 1].0 := writes[|writes| - 1].1]
  }
}
