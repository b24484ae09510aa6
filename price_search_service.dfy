/**
 * The marketplace price search after its model call: the same source list and
 * brace matching as the valuation, with a parse failure of its own and up to
 * ten sources on success.
 */
module PriceSearchService {
  import opened Wrappers
  import opened AiResponse

  const ParseErrorReasoning: string := "Erro ao processar resposta do serviço."
  const DefaultSearchReasoning: string := "Estimativa baseada em busca online nos 4 sites solicitados."

  /**
   * `searchPriceAcrossMarketplaces` after the call. It never throws: a missing
   * text gives the zero estimate with no sources; text without braces or a
   * span that does not parse gives zero prices with every source; otherwise the
   * parsed prices with the first ten sources.
   */
  method SearchPriceAcrossMarketplaces(response: Response, parse: string -> Option<ParsedPrices>) returns (e: PriceEstimate)
    ensures var all := if response.grounding.Some? then TruthyUris(response.grounding.value) else [];
      && (!HasText(response) ==> e == ErrorEstimate)
      && (HasText(response) && JsonMatch(response.text.value).None? ==> e == PriceEstimate(0, 0, 0, NO_STRUCTURE, all))
      && (HasText(response) && JsonMatch(response.text.value).Some? ==>
            var parsed := parse(JsonMatch(response.text.value).value);
            && (parsed.None? ==> e == PriceEstimate(0, 0, 0, ParseErrorReasoning, all))
            && (parsed.Some? ==> e == FromParsed(parsed.value, DefaultSearchReasoning, Take(all, 10))))
    ensures e.reasoning != ""
    ensures forall k :: 0 <= k < |e.sources| ==> e.sources[k] != ""
  {
    var sources := CollectSources(response.grounding);
    if !HasText(response) {
      return ErrorEstimate;
    }
    var jsonMatch := JsonMatch(response.text.value);
    if jsonMatch.None? {
      return PriceEstimate(0, 0, 0, NO_STRUCTURE, sources);
    }
    var parsed := parse(jsonMatch.value);
    if parsed.None? {
      return PriceEstimate(0, 0, 0, ParseErrorReasoning, sources);
    }
    e := FromParsed(parsed.value, DefaultSearchReasoning, Take(sources, 10));
  }
}
