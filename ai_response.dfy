/**
 * What the two AI-backed services read from a model response: its text, the
 * web URIs of its grounding chunks, and the JSON object embedded in the text.
 * The response arrives as a value; JSON parsing is a function the caller
 * supplies, returning None where `JSON.parse` throws.
 */
module AiResponse {
  import opened Wrappers
  import opened Strings

  /**
   * `response.text` and `response.candidates?.[0]?.groundingMetadata?.groundingChunks`,
   * each chunk given by its `web?.uri`.
   */
  datatype Response = Response(text: Option<string>, grounding: Option<seq<Option<string>>>)

  /** `if (!text)`: missing and empty text both count as no answer. */
  predicate HasText(r: Response) {
    r.text.Some? && r.text.value != ""
  }

  /** `chunk.web?.uri` is truthy. */
  predicate TruthyUri(u: Option<string>) {
    u.Some? && u.value != ""
  }

  /** The truthy chunk URIs, in chunk order. */
  function TruthyUris(chunks: seq<Option<string>>): (r: seq<string>)
    ensures |r| <= |chunks|
    ensures forall k :: 0 <= k < |r| ==> r[k] != "" && Some(r[k]) in chunks
    ensures forall k :: 0 <= k < |chunks| && TruthyUri(chunks[k]) ==> chunks[k].value in r
  {
    if chunks == [] then []
    else
      var init := TruthyUris(chunks[..|chunks| - 1]);
      var last := chunks[|chunks| - 1];
      assert forall k :: 0 <= k < |chunks| - 1 ==> chunks[..|chunks| - 1][k] == chunks[k];
      if TruthyUri(last) then init + [last.value] else init
  }

  /** The URIs keep their order: the list is the chunks' own with the falsy ones dropped. */
  lemma {:induction false} TruthyUrisAppend(a: seq<Option<string>>, b: seq<Option<string>>)
    ensures TruthyUris(a + b) == TruthyUris(a) + TruthyUris(b)
    decreases |b|
  {
    if b == [] {
      assert a + b == a;
    } else {
      var b' := b[..|b| - 1];
      assert (a + b)[..|a + b| - 1] == a + b';
      TruthyUrisAppend(a, b');
    }
  }

  /** The `sources` accumulator: `forEach` over the chunks, pushing each truthy URI. */
  method CollectSources(grounding: Option<seq<Option<string>>>) returns (sources: seq<string>)
    ensures grounding.None? ==> sources == []
    ensures grounding.Some? ==> sources == TruthyUris(grounding.value)
  {
    sources := [];
    if grounding.Some? {
      var chunks := grounding.value;
      var i := 0;
      while i < |chunks|
        invariant 0 <= i <= |chunks|
        invariant sources == TruthyUris(chunks[..i])
      {
        assert chunks[..i + 1][..i] == chunks[..i];
        if TruthyUri(chunks[i]) {
          sources := sources + [chunks[i].value];
        }
        i := i + 1;
      }
      assert chunks[..i] == chunks;
    }
  }

  /**
   * Where `text.match(/\{[\s\S]*\}/)` matches: the leftmost, longest span that
   * opens with `{` and closes with `}`, that is, from the first `{` to the last `}`.
   */
  function BraceSpan(text: string): (r: Option<(nat, nat)>)
    ensures r.None? <==> !exists i, j :: 0 <= i < j < |text| && text[i] == '{' && text[j] == '}'
    ensures r.Some? ==> r.value.0 < r.value.1 < |text|
    ensures r.Some? ==> text[r.value.0] == '{' && text[r.value.1] == '}'
    ensures r.Some? ==> forall k :: 0 <= k < r.value.0 ==> text[k] != '{'
    ensures r.Some? ==> forall k :: r.value.1 < k < |text| ==> text[k] != '}'
  {
    match (IndexOf(text, '{'), LastIndexOf(text, '}'))
    case (Some(i), Some(j)) =>
      if i < j then Some((i, j))
      else
        assert forall a, b :: 0 <= a < b < |text| && text[a] == '{' ==> text[b] != '}' by {
          forall a, b | 0 <= a < b < |text| && text[a] == '{' ensures text[b] != '}' {
            assert i <= a;
          }
        }
        None
    case _ => None
  }

  /** `jsonMatch[0]`, the matched text. */
  function JsonMatch(text: string): (r: Option<string>)
    ensures r.None? <==> BraceSpan(text).None?
    ensures r.Some? ==> r.value == text[BraceSpan(text).value.0..BraceSpan(text).value.1 + 1]
    ensures r.Some? ==> |r.value| >= 2 && r.value[0] == '{' && r.value[|r.value| - 1] == '}'
  {
    match BraceSpan(text)
    case None => None
    case Some((i, j)) => Some(text[i..j + 1])
  }

  /** The match in `pre + {body} + post` when `pre` opens nothing and `post` closes nothing. */
  lemma JsonMatchOf(pre: string, body: string, post: string)
    requires forall k :: 0 <= k < |pre| ==> pre[k] != '{'
    requires forall k :: 0 <= k < |post| ==> post[k] != '}'
    ensures JsonMatch(pre + ['{'] + body + ['}'] + post) == Some(['{'] + body + ['}'])
  {
    var text := pre + ['{'] + body + ['}'] + post;
    var i, j := |pre|, |pre| + 1 + |body|;
    assert text[i] == '{' && text[j] == '}';
    var (i', j') := BraceSpan(text).value;
    assert i' == i;
    assert j' == j;
    assert text[i..j + 1] == ['{'] + body + ['}'];
  }

  /** `x || 0` for a number field: missing or falsy becomes 0. */
  function OrZero(x: Option<int>): (n: int)
    ensures x.None? ==> n == 0
    ensures x.Some? ==> n == x.value
  {
    if x.Some? then x.value else 0
  }

  /** `s || fallback` for a text field: missing or empty takes the fallback. */
  function OrDefault(s: Option<string>, fallback: string): (r: string)
    ensures s.Some? && s.value != "" ==> r == s.value
    ensures s.None? || s.value == "" ==> r == fallback
  {
    if s.Some? && s.value != "" then s.value else fallback
  }

  /**
   * The price object the model is asked for, with JSON value types abstracted:
   * a number field is None when it is absent, null or 0 (the falsy values that
   * `|| 0` replaces) and its integer otherwise. A truthy value of another JSON
   * type, which `|| 0` would pass through unchanged, has no counterpart.
   */
  datatype ParsedPrices = ParsedPrices(min: Option<int>, max: Option<int>, avg: Option<int>, reasoning: Option<string>)

  /** `{ min, max, avg, reasoning, sources }`, the record both price services return. */
  datatype PriceEstimate = PriceEstimate(min: int, max: int, avg: int, reasoning: string, sources: seq<string>)

  /** `sources.slice(0, n)`. */
  function Take(s: seq<string>, n: nat): (r: seq<string>)
    ensures |r| <= n && |r| <= |s|
    ensures |s| <= n ==> r == s
    ensures |s| > n ==> |r| == n
    ensures r == s[..|r|]
  {
    if |s| <= n then s else s[..n]
  }

  /** The estimate built from a parsed object: falsy numbers become 0, an empty reasoning the default. */
  function FromParsed(p: ParsedPrices, defaultReasoning: string, sources: seq<string>): (e: PriceEstimate)
    ensures e.min == OrZero(p.min) && e.max == OrZero(p.max) && e.avg == OrZero(p.avg)
    ensures e.reasoning == OrDefault(p.reasoning, defaultReasoning) && e.sources == sources
  {
    PriceEstimate(OrZero(p.min), OrZero(p.max), OrZero(p.avg), OrDefault(p.reasoning, defaultReasoning), sources)
  }

  /** Reasoning when the text holds no braces to parse. */
  const NO_STRUCTURE: string := "Não foi possível estruturar os preços. Tente novamente."

  /** Reasoning of the catch-all error result. */
  const CONNECTION_ERROR: string := "Erro ao conectar com serviço de preços."

  /** The catch-all result: zero prices and no sources. */
  const ErrorEstimate: PriceEstimate := PriceEstimate(0, 0, 0, CONNECTION_ERROR, [])

  /** All three prices zero. */
  predicate ZeroPrices(e: PriceEstimate) {
    e.min == 0 && e.max == 0 && e.avg == 0
  }
}
