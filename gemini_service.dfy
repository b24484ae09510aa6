/**
 * The pure logic around the two model calls of the Gemini service: cleaning
 * the reply, choosing the context prompt, mapping the type string, and the
 * results of the market valuation on each path.
 */
module GeminiService {
  import opened Wrappers
  import opened Strings
  import opened Types
  import opened AiResponse

  // ---------------------------------------------------------------- cleanJsonString

  /**
   * Length of the match of `/```json\n?|```/` at the start of `s`, trying the
   * first alternative first: 8 for "```json" with its newline, 7 without it,
   * 3 for a bare "```", and 0 where no fence starts.
   */
  function FenceLength(s: string): (n: nat)
    ensures n == 0 || n == 3 || n == 7 || n == 8
    ensures n <= |s|
    ensures n > 0 ==> s[0] == '`'
  {
    if |s| >= 3 && s[0] == '`' && s[1] == '`' && s[2] == '`' then
      if |s| >= 7 && s[3] == 'j' && s[4] == 's' && s[5] == 'o' && s[6] == 'n' then
        if |s| >= 8 && s[7] == '\n' then 8 else 7
      else 3
    else 0
  }

  /** The four outcomes of `FenceLength` are the regex's alternatives, longest first. */
  lemma FenceLengthAlternatives(s: string)
    ensures FenceLength(s) == 8 <==> IsPrefix("```json\n", s)
    ensures FenceLength(s) == 7 <==> IsPrefix("```json", s) && !IsPrefix("```json\n", s)
    ensures FenceLength(s) == 3 <==> IsPrefix("```", s) && !IsPrefix("```json", s)
    ensures FenceLength(s) == 0 <==> !IsPrefix("```", s)
  {
    if |s| >= 3 {
      assert IsPrefix("```", s) <==> s[0] == '`' && s[1] == '`' && s[2] == '`';
    }
    if |s| >= 7 {
      assert IsPrefix("```json", s) <==> s[..3] == "```" && s[3] == 'j' && s[4] == 's' && s[5] == 'o' && s[6] == 'n';
    }
    if |s| >= 8 {
      assert IsPrefix("```json\n", s) <==> s[..7] == "```json" && s[7] == '\n';
    }
  }

  /** `replace(/```json\n?|```/g, '')`: scanning left to right, every fence is dropped. */
  function RemoveFences(s: string): (r: string)
    ensures |r| <= |s|
    decreases |s|
  {
    if s == [] then []
    else if FenceLength(s) > 0 then RemoveFences(s[FenceLength(s)..])
    else [s[0]] + RemoveFences(s[1..])
  }

  predicate NoBacktick(s: string) {
    forall k :: 0 <= k < |s| ==> s[k] != '`'
  }

  /** Text without backticks passes through the fence removal untouched. */
  lemma {:induction false} RemoveFencesKeepsPlainText(b: string, rest: string)
    requires NoBacktick(b)
    ensures RemoveFences(b + rest) == b + RemoveFences(rest)
  {
    if b != [] {
      var s := b + rest;
      assert s[0] == b[0];
      assert s[1..] == b[1..] + rest;
      RemoveFencesKeepsPlainText(b[1..], rest);
    } else {
      assert b + rest == rest;
    }
  }

  /** A character other than a backtick is copied and the scan moves on. */
  lemma PlainStep(s: string)
    requires s != [] && s[0] != '`'
    ensures RemoveFences(s) == [s[0]] + RemoveFences(s[1..])
  {
  }

  /** `cleanJsonString`. */
  function CleanJsonString(s: string): (r: string)
    ensures |r| <= |s|
    ensures r != [] ==> !IsSpace(r[0]) && !IsSpace(r[|r| - 1])
  {
    Trim(RemoveFences(s))
  }

  /** A reply without backticks is only trimmed. */
  lemma CleanWithoutFences(s: string)
    requires NoBacktick(s)
    ensures CleanJsonString(s) == Trim(s)
  {
    RemoveFencesKeepsPlainText(s, []);
    assert s + [] == s;
  }

  /** A reply fenced as a JSON code block yields its trimmed body. */
  lemma CleanFencedBlock(body: string)
    requires NoBacktick(body)
    ensures CleanJsonString("```json\n" + body + "\n```") == Trim(body)
  {
    OpeningFence(body + "\n```");
    assert "```json\n" + body + "\n```" == "```json\n" + (body + "\n```");
    RemoveFencesKeepsPlainText(body, "\n```");
    ClosingFence();
    TrimDropsTrailingSpace(body, '\n');
  }

  /** The opening ```json fence and its newline are dropped. */
  lemma OpeningFence(t: string)
    ensures RemoveFences("```json\n" + t) == RemoveFences(t)
  {
    var s := "```json\n" + t;
    assert s[0] == '`' && s[1] == '`' && s[2] == '`' && s[3] == 'j';
    assert s[4] == 's' && s[5] == 'o' && s[6] == 'n' && s[7] == '\n';
    assert FenceLength(s) == 8;
    assert s[8..] == t;
  }

  /** The closing fence after a newline leaves only the newline. */
  lemma ClosingFence()
    ensures RemoveFences("\n```") == "\n"
  {
    assert "\n```"[1..] == "```";
    assert RemoveFences("```") == [] by {
      assert FenceLength("```") == 3;
      assert "```"[3..] == [];
    }
    PlainStep("\n```");
  }

  // ---------------------------------------------------------------- identification

  const GamePrompt: string := "Identifique este JOGO de videogame (cartucho, disco ou caixa). O campo 'type' deve ser 'Jogo'."
  const AccessoryPrompt: string := "Identifique este ACESSÓRIO de videogame (controle, cabo, periférico). O campo 'type' deve ser 'Acessório'."
  const ConsolePrompt: string := "Identifique este CONSOLE de videogame. O campo 'type' deve ser 'Mesa' ou 'Portátil'."

  /** The `switch` on the collection type; CONSOLES shares the default branch. */
  function ContextPrompt(contextType: string): (p: string)
    ensures p == GamePrompt || p == AccessoryPrompt || p == ConsolePrompt
  {
    if contextType == GAMES then GamePrompt
    else if contextType == ACCESSORIES then AccessoryPrompt
    else ConsolePrompt
  }

  /** Only GAMES and ACCESSORIES get a prompt of their own; every other type, custom ones included, gets the console prompt. */
  lemma ContextPromptCases(contextType: string)
    ensures ContextPrompt(contextType) == GamePrompt <==> contextType == GAMES
    ensures ContextPrompt(contextType) == AccessoryPrompt <==> contextType == ACCESSORIES
    ensures ContextPrompt(contextType) == ConsolePrompt <==> contextType != GAMES && contextType != ACCESSORIES
    ensures ContextPrompt(CONSOLES) == ConsolePrompt && ContextPrompt(MIXED) == ConsolePrompt
  {
    assert |GamePrompt| != |AccessoryPrompt| && |GamePrompt| != |ConsolePrompt| && |AccessoryPrompt| != |ConsolePrompt|;
  }

  /** `mappedType`: OTHER unless one of the four later `if`s matches. */
  function MapConsoleType(s: string): (t: ConsoleType)
    ensures forall u: ConsoleType :: s == u.Value() ==> t == u
    ensures (forall u: ConsoleType :: s != u.Value()) ==> t == Other
  {
    var t0 := Other;
    var t1 := if s == Home.Value() then Home else t0;
    var t2 := if s == Handheld.Value() then Handheld else t1;
    var t3 := if s == Game.Value() then Game else t2;
    var t4 := if s == Accessory.Value() then Accessory else t3;
    t4
  }

  /** Mapping an enum's own value gives the enum back, and a mapped type names its input. */
  lemma MapConsoleTypeRoundTrip(t: ConsoleType, s: string)
    ensures MapConsoleType(t.Value()) == t
    ensures MapConsoleType(s) != Other ==> MapConsoleType(s).Value() == s
  {
  }

  /** The object the identification prompt asks for. */
  datatype ParsedIdentification = ParsedIdentification(name: string, manufacturer: string, typeName: string)

  /** The result of `identifyConsoleFromImage`. */
  datatype Identification = Identification(name: string, manufacturer: string, itemType: ConsoleType)

  /** Why identification throws: no text ("Sem resposta da IA"), or text that does not parse. */
  datatype IdentifyError = NoAnswer | InvalidJson

  /** `identifyConsoleFromImage` after the call: every error reaches the caller. */
  function IdentifyConsoleFromImage(response: Response, parse: string -> Option<ParsedIdentification>): (r: Result<Identification, IdentifyError>)
    ensures !HasText(response) ==> r == Failure(NoAnswer)
    ensures HasText(response) && parse(CleanJsonString(response.text.value)).None? ==> r == Failure(InvalidJson)
    ensures r.Success? ==> HasText(response) && parse(CleanJsonString(response.text.value)).Some?
    ensures r.Success? ==> var d := parse(CleanJsonString(response.text.value)).value;
      r.value.name == d.name && r.value.manufacturer == d.manufacturer && r.value.itemType == MapConsoleType(d.typeName)
  {
    if !HasText(response) then Failure(NoAnswer)
    else match parse(CleanJsonString(response.text.value))
      case None => Failure(InvalidJson)
      case Some(d) => Success(Identification(d.name, d.manufacturer, MapConsoleType(d.typeName)))
  }

  // ---------------------------------------------------------------- market valuation

  const DefaultValuationReasoning: string := "Estimativa baseada em busca online."

  /**
   * `getMarketValuation` after the call. It never throws: a missing text or a
   * parse failure gives the zero estimate with no sources; text without braces
   * gives zero prices with every source; otherwise the parsed prices with the
   * first three sources.
   */
  method GetMarketValuation(response: Response, parse: string -> Option<ParsedPrices>) returns (e: PriceEstimate)
    ensures var all := if response.grounding.Some? then TruthyUris(response.grounding.value) else [];
      && (!HasText(response) ==> e == ErrorEstimate)
      && (HasText(response) && JsonMatch(response.text.value).None? ==> e == PriceEstimate(0, 0, 0, NO_STRUCTURE, all))
      && (HasText(response) && JsonMatch(response.text.value).Some? ==>
            var parsed := parse(JsonMatch(response.text.value).value);
            && (parsed.None? ==> e == ErrorEstimate)
            && (parsed.Some? ==> e == FromParsed(parsed.value, DefaultValuationReasoning, Take(all, 3))))
    ensures ZeroPrices(e) || e.sources == Take(e.sources, 3)
    ensures e.reasoning != ""
  {
    var sources := CollectSources(response.grounding);
    if !HasText(response) {
      return ErrorEstimate;
    }
    var jsonMatch := JsonMatch(response.text.value);
    if jsonMatch.None? {
      return PriceEstimate(0, 0, 0, NO_STRUCTURE, sources);
    }
    var parsed := parse(jsonMatch.value);
    if parsed.None? {
      return ErrorEstimate;
    }
    e := FromParsed(parsed.value, DefaultValuationReasoning, Take(sources, 3));
  }
}
