/**
 The strict segment envelope (`_parse_segment_envelope`). JSON (RFC 8259) is a parsed tree whose
 objects keep their members as a list, so that a duplicate key is visible.
 */
module Envelopes {
  import opened Basics
  import opened Texts

  datatype Json =
    | Null
    | Bool(b: bool)
    | Number(n: int)
    | String(s: string)
    | Array(items: seq<Json>)
    | Object(members: seq<Member>)

  datatype Member = Member(key: string, value: Json)

  const PROTOCOL := "cwa-translate-segments/v1"

  /** `_reject_duplicate_json_keys` succeeds at every depth. */
  predicate UniqueKeys(j: Json) {
    match j
    case Array(items) => forall x | x in items :: UniqueKeys(x)
    case Object(ms) =>
      && (forall i, k | 0 <= i < k < |ms| :: ms[i].key != ms[k].key)
      && (forall m | m in ms :: UniqueKeys(m.value))
    case _ => true
  }

  function Keys(ms: seq<Member>): set<string> {
    set m | m in ms :: m.key
  }

  /** The member a Python dict lookup finds; the last one, which `UniqueKeys` makes the only one. */
  function Get(ms: seq<Member>, key: string): Option<Json> {
    if ms == [] then None
    else if ms[|ms| - 1].key == key then Some(ms[|ms| - 1].value)
    else Get(ms[..|ms| - 1], key)
  }

  /** The id and text of a well-formed segment object. */
  function Segment(item: Json): Option<(string, string)> {
    if item.Object? && Keys(item.members) == {"id", "text"} then
      match (Get(item.members, "id"), Get(item.members, "text"))
      case (Some(String(id)), Some(String(text))) => Some((id, text))
      case _ => None
    else None
  }

  function Translations(body: Json): Option<seq<Json>> {
    if body.Object? && Keys(body.members) == {"protocol", "translations"} then
      match (Get(body.members, "protocol"), Get(body.members, "translations"))
      case (Some(String(p)), Some(Array(items))) => if p == PROTOCOL then Some(items) else None
      case _ => None
    else None
  }

  /** UTF-8 bytes of the first n texts. */
  function Bytes(texts: seq<string>, n: nat): nat
    requires n <= |texts|
  {
    if n == 0 then 0 else Bytes(texts, n - 1) + Utf8Length(texts[n - 1])
  }

  /** The text the envelope binds to an id, searched for by id and not by position. */
  function BoundText(items: seq<Json>, id: string): Option<string> {
    if items == [] then None
    else match Segment(items[0])
      case Some((i, text)) => if i == id then Some(text) else BoundText(items[1..], id)
      case None => BoundText(items[1..], id)
  }

  predicate Distinct(ids: seq<string>) {
    forall i, j | 0 <= i < j < |ids| :: ids[i] != ids[j]
  }

  /** Item j is exactly `{"id": ids[j], "text": <non-blank>}`. */
  predicate SegmentMatches(segment: Option<(string, string)>, id: string) {
    segment.Some? && segment.value.0 == id && !Blank(segment.value.1)
  }

  function Segments(items: seq<Json>): (segments: seq<Option<(string, string)>>)
    ensures |segments| == |items| && forall j | 0 <= j < |items| :: segments[j] == Segment(items[j])
  {
    seq(|items|, j requires 0 <= j < |items| => Segment(items[j]))
  }

  function TextOf(segment: Option<(string, string)>): string {
    if segment.Some? then Strip(segment.value.1) else ""
  }

  function StrippedTexts(segments: seq<Option<(string, string)>>): (texts: seq<string>)
    ensures |texts| == |segments| && forall j | 0 <= j < |segments| :: texts[j] == TextOf(segments[j])
  {
    seq(|segments|, j requires 0 <= j < |segments| => TextOf(segments[j]))
  }

  /** The translations list answers exactly these ids, in this order, within the byte cap. */
  ghost predicate SegmentsAccepted(segments: seq<Option<(string, string)>>, ids: seq<string>, cap: nat) {
    && |segments| == |ids|
    && (forall j | 0 <= j < |ids| :: SegmentMatches(segments[j], ids[j]))
    && Bytes(StrippedTexts(segments), |segments|) <= cap
  }

  /** Everything the envelope must satisfy to be accepted; one defect rejects the whole group. */
  ghost predicate Accepted(outputBytes: nat, parsed: Option<Json>, ids: seq<string>, cap: nat) {
    && outputBytes <= cap && parsed.Some? && UniqueKeys(parsed.value) && Distinct(ids)
    && Translations(parsed.value).Some?
    && SegmentsAccepted(Segments(Translations(parsed.value).value), ids, cap)
  }

  lemma {:induction false} BytesGrow(texts: seq<string>, n: nat, m: nat)
    requires n <= m <= |texts|
    ensures Bytes(texts, n) <= Bytes(texts, m)
  {
    if n < m {
      BytesGrow(texts, n, m - 1);
    }
  }

  /** `_parse_segment_envelope`. */
  method ParseSegmentEnvelope(outputBytes: nat, parsed: Option<Json>, ids: seq<string>, cap: nat)
      returns (r: Option<seq<string>>)
    ensures r.Some? <==> Accepted(outputBytes, parsed, ids, cap)
    ensures r.Some? ==> r.value == StrippedTexts(Segments(Translations(parsed.value).value))
  {
    if outputBytes > cap || parsed.None? || !UniqueKeys(parsed.value) {
      return None;
    }
    if exists i, j | 0 <= i < j < |ids| :: ids[i] == ids[j] {
      return None;
    }
    var translations := Translations(parsed.value);
    if translations.None? || |translations.value| != |ids| {
      return None;
    }
    var segments := Segments(translations.value);
    r := BindSegments(segments, ids, cap, StrippedTexts(segments));
  }

  /** The validation loop; `all` is what the texts strip to. */
  method BindSegments(segments: seq<Option<(string, string)>>, ids: seq<string>, cap: nat, ghost all: seq<string>)
      returns (r: Option<seq<string>>)
    requires |segments| == |ids| == |all|
    requires forall j | 0 <= j < |ids| :: all[j] == TextOf(segments[j])
    ensures r.Some? <==> (forall j | 0 <= j < |ids| :: SegmentMatches(segments[j], ids[j])) && Bytes(all, |all|) <= cap
    ensures r.Some? ==> r.value == all
  {
    var texts: seq<string> := [];
    var translatedBytes: nat := 0;
    for j := 0 to |ids|
      invariant forall i | 0 <= i < j :: SegmentMatches(segments[i], ids[i])
      invariant |texts| == j && (forall i | 0 <= i < j :: texts[i] == all[i])
      invariant translatedBytes == Bytes(all, j) <= cap
    {
      if segments[j].None? || segments[j].value.0 != ids[j] {
        return None;
      }
      var text := Strip(segments[j].value.1);
      assert text == all[j];
      if text == "" {
        return None;
      }
      translatedBytes := translatedBytes + Utf8Length(text);
      texts := texts + [text];
      if translatedBytes > cap {
        BytesGrow(all, j + 1, |all|);
        return None;
      }
    }
    assert texts == all;
    return Some(texts);
  }

  // ---- What acceptance means ------------------------------------------------

  lemma {:induction false} FoundById(items: seq<Json>, ids: seq<string>, j: nat)
    requires |items| == |ids| && Distinct(ids) && j < |ids|
    requires forall i | 0 <= i < |ids| :: SegmentMatches(Segment(items[i]), ids[i])
    ensures Segment(items[j]).Some? && BoundText(items, ids[j]) == Some(Segment(items[j]).value.1)
  {
    if j > 0 {
      FoundById(items[1..], ids[1..], j - 1);
    }
  }

  /** Result j is the stripped text the provider bound to id j, and it is not empty. */
  lemma BoundToItsOwnId(outputBytes: nat, parsed: Option<Json>, ids: seq<string>, cap: nat, j: nat)
    requires Accepted(outputBytes, parsed, ids, cap) && j < |ids|
    ensures var items := Translations(parsed.value).value;
            && var texts := StrippedTexts(Segments(items));
            && texts[j] != ""
            && BoundText(items, ids[j]).Some?
            && texts[j] == Strip(BoundText(items, ids[j]).value)
  {
    var items := Translations(parsed.value).value;
    var segments := Segments(items);
    assert SegmentMatches(segments[j], ids[j]);
    forall i | 0 <= i < |ids| ensures SegmentMatches(Segment(items[i]), ids[i]) {
      assert SegmentMatches(segments[i], ids[i]);
    }
    FoundById(items, ids, j);
  }

  /** One envelope cannot answer two different requests: reordered or renamed ids are rejected. */
  lemma AnswersOneRequest(outputBytes: nat, parsed: Option<Json>, ids: seq<string>, other: seq<string>, cap: nat)
    requires Accepted(outputBytes, parsed, ids, cap) && Accepted(outputBytes, parsed, other, cap)
    ensures ids == other
  {
    var segments := Segments(Translations(parsed.value).value);
    forall j | 0 <= j < |ids| ensures ids[j] == other[j] {
      assert SegmentMatches(segments[j], ids[j]) && SegmentMatches(segments[j], other[j]);
    }
  }

  // ---- Round trip -----------------------------------------------------------

  function RenderSegment(id: string, text: string): Json {
    Object([Member("id", String(id)), Member("text", String(text))])
  }

  function RenderItems(ids: seq<string>, texts: seq<string>): seq<Json>
    requires |ids| == |texts|
  {
    seq(|ids|, j requires 0 <= j < |ids| => RenderSegment(ids[j], texts[j]))
  }

  /** The envelope an obedient provider sends. */
  function Render(ids: seq<string>, texts: seq<string>): Json
    requires |ids| == |texts|
  {
    Object([Member("protocol", String(PROTOCOL)), Member("translations", Array(RenderItems(ids, texts)))])
  }

  lemma SegmentRoundTrip(id: string, text: string)
    ensures Segment(RenderSegment(id, text)) == Some((id, text))
    ensures UniqueKeys(RenderSegment(id, text))
  {
    var ms := [Member("id", String(id)), Member("text", String(text))];
    assert ms[0] in ms && ms[1] in ms && ms[..1] == [ms[0]];
    assert Keys(ms) == {"id", "text"};
    assert "id" != "text" by { assert |"id"| != |"text"|; }
    assert Get(ms[..1], "id") == Some(String(id));
  }

  function StripAll(texts: seq<string>): (r: seq<string>)
    ensures |r| == |texts| && forall j | 0 <= j < |texts| :: r[j] == Strip(texts[j])
  {
    seq(|texts|, j requires 0 <= j < |texts| => Strip(texts[j]))
  }

  lemma ItemsRoundTrip(ids: seq<string>, texts: seq<string>)
    requires |ids| == |texts|
    ensures forall j | 0 <= j < |ids| :: UniqueKeys(RenderItems(ids, texts)[j])
    ensures StrippedTexts(Segments(RenderItems(ids, texts))) == StripAll(texts)
    ensures forall j | 0 <= j < |ids| :: Segments(RenderItems(ids, texts))[j] == Some((ids[j], texts[j]))
  {
    var items := RenderItems(ids, texts);
    forall j | 0 <= j < |ids| ensures Segment(items[j]) == Some((ids[j], texts[j])) && UniqueKeys(items[j]) {
      SegmentRoundTrip(ids[j], texts[j]);
    }
  }

  /** Parsing a rendered envelope gives back the stripped translations, in order. */
  lemma EnvelopeRoundTrip(outputBytes: nat, ids: seq<string>, texts: seq<string>, cap: nat)
    requires |ids| == |texts| && Distinct(ids)
    requires forall j | 0 <= j < |texts| :: !Blank(texts[j])
    requires outputBytes <= cap && Bytes(StripAll(texts), |texts|) <= cap
    ensures Accepted(outputBytes, Some(Render(ids, texts)), ids, cap)
    ensures StrippedTexts(Segments(Translations(Render(ids, texts)).value)) == StripAll(texts)
  {
    ItemsRoundTrip(ids, texts);
    TranslationsOfRender(ids, texts);
    AcceptedWhenBound(outputBytes, Render(ids, texts), RenderItems(ids, texts), ids, texts, cap);
  }

  lemma AcceptedWhenBound(outputBytes: nat, body: Json, items: seq<Json>, ids: seq<string>, texts: seq<string>, cap: nat)
    requires Translations(body) == Some(items) && UniqueKeys(body)
    requires |ids| == |texts| == |items| && Distinct(ids) && outputBytes <= cap
    requires forall j | 0 <= j < |texts| :: !Blank(texts[j]) && Segments(items)[j] == Some((ids[j], texts[j]))
    requires Bytes(StrippedTexts(Segments(items)), |items|) <= cap
    ensures Accepted(outputBytes, Some(body), ids, cap)
  {
  }

  lemma TranslationsOfRender(ids: seq<string>, texts: seq<string>)
    requires |ids| == |texts|
    requires forall j | 0 <= j < |ids| :: UniqueKeys(RenderItems(ids, texts)[j])
    ensures Translations(Render(ids, texts)) == Some(RenderItems(ids, texts))
    ensures UniqueKeys(Render(ids, texts))
  {
    var items := RenderItems(ids, texts);
    var ms := [Member("protocol", String(PROTOCOL)), Member("translations", Array(items))];
    assert ms[0] in ms && ms[1] in ms && ms[..1] == [ms[0]];
    assert Keys(ms) == {"protocol", "translations"};
    assert "protocol" != "translations" by { assert |"protocol"| != |"translations"|; }
    assert Get(ms[..1], "protocol") == Some(String(PROTOCOL));
  }
}
