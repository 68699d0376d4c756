/**
 * The Groq client (`groq.ts`) without its prompts: the lazily created client, the
 * reply text, the brace-span extraction every `generate*` applies, the request
 * guard and recommendation list of `generateDeepDive`, and the language and
 * market fallbacks interpolated into the prompts. The model call is a parameter.
 */
module Groq {
  import opened Wrappers
  import opened Strings
  import opened JsonSpan

  /** The client `new Groq({ apiKey })` builds; only the key it was built with is kept. */
  datatype GroqClient = GroqClient(apiKey: string)

  const MissingKey: string := "GROQ_API_KEY is not defined in environment variables"

  /** The module-level `groqClient` cache behind `getGroqClient`. */
  class GroqClientCache {
    var client: Option<GroqClient>

    /** `let groqClient: Groq | null = null`. */
    constructor ()
      ensures client == None
    {
      client := None;
    }

    /** `getGroqClient`: build the client on first use, then hand out the same one. */
    method GetGroqClient(apiKey: Option<string>) returns (r: Result<GroqClient, string>)
      modifies this
      ensures old(client).Some? ==> r == Success(old(client).value) && client == old(client)
      ensures old(client).None? && (apiKey.None? || apiKey.value == "") ==> r == Failure(MissingKey) && client == None
      ensures old(client).None? && apiKey.Some? && apiKey.value != "" ==> r == Success(GroqClient(apiKey.value)) && client == Some(GroqClient(apiKey.value))
    {
      if client.None? {
        if apiKey.None? || apiKey.value == "" {
          return Failure(MissingKey);
        }
        client := Some(GroqClient(apiKey.value));
      }
      return Success(client.value);
    }
  }

  /** `completion.choices[0]?.message?.content || ""`. */
  function ReplyText(content: Option<string>): (t: string)
    ensures content.Some? ==> t == content.value
    ensures content.None? ==> t == ""
  {
    match content
    case None => ""
    case Some(c) => c
  }

  const InvalidJson: string := "Invalid JSON response from AI"

  /** `text.match(/\{[\s\S]*\}/)` and `JSON.parse`, as in every JSON-returning `generate*`. */
  function GenerateJson<V>(reply: Result<string, string>, parse: string -> Result<V, string>): (r: Result<V, string>)
    ensures reply.Failure? ==> r == Failure(reply.error)
    ensures reply.Success? && Extract(reply.value, InvalidJson).Failure? ==> r == Failure(InvalidJson)
    ensures reply.Success? && Extract(reply.value, InvalidJson).Success? ==> r == parse(Extract(reply.value, InvalidJson).value)
  {
    match reply
    case Failure(e) => Failure(e)
    case Success(text) =>
      match Extract(text, InvalidJson)
      case Failure(e) => Failure(e)
      case Success(span) => parse(span)
  }

  /** `generateChannelMix`: of the parsed object only its `channels` field is returned. */
  function GenerateChannelMix<V>(reply: Result<string, string>, parse: string -> Result<map<string, V>, string>): (r: Result<Option<V>, string>)
    ensures GenerateJson(reply, parse).Failure? <==> r.Failure?
    ensures r.Failure? ==> r.error == GenerateJson(reply, parse).error
    ensures r.Success? ==> var fields := GenerateJson(reply, parse).value;
                           r.value == if "channels" in fields then Some(fields["channels"]) else None
  {
    match GenerateJson(reply, parse)
    case Failure(e) => Failure(e)
    case Success(fields) => Success(if "channels" in fields then Some(fields["channels"]) else None)
  }

  /** One entry of `strategy.recommendations`; an absent field reads as "". */
  datatype Recommendation = Recommendation(title: string, description: string)

  /** The fields of the `strategy` object `generateDeepDive` reads. */
  datatype Strategy = Strategy(missionCritical: string, recommendations: Option<seq<Recommendation>>)

  /** `${i + 1}. ${r.title || 'Recomendación'}: ${r.description || ''}`. */
  function RecommendationLine(i: nat, r: Recommendation): string {
    NatToString(i + 1) + ". " + (if r.title == "" then "Recomendación" else r.title) + ": " + r.description
  }

  /** `recommendations.map(...)`: line i of the list describes recommendation i. */
  function Lines(recs: seq<Recommendation>): (lines: seq<string>)
    ensures |lines| == |recs|
    ensures forall i :: 0 <= i < |recs| ==> lines[i] == RecommendationLine(i, recs[i])
  {
    seq(|recs|, i requires 0 <= i < |recs| => RecommendationLine(i, recs[i]))
  }

  /** The numbered lines of the recommendations, or the placeholder for an empty list. */
  function RecommendationsText(recs: seq<Recommendation>): (t: string)
    ensures |recs| == 0 ==> t == "No hay recomendaciones disponibles"
    ensures |recs| > 0 ==> t == Join(Lines(recs), "\n")
  {
    if |recs| == 0 then "No hay recomendaciones disponibles"
    else Join(Lines(recs), "\n")
  }

  /** What the deep-dive prompt interpolates (its prose is left out). */
  datatype DeepDivePrompt = DeepDivePrompt(mission: string, recommendations: string, seed: string, language: string)

  const InvalidStrategy: string := "Invalid strategy object - missing missionCritical"

  const EmptyResponse: string := "Empty response from AI"

  /** `strategy.recommendations || []`. */
  function RecommendationsOf(s: Strategy): (recs: seq<Recommendation>)
    ensures s.recommendations.None? ==> recs == []
    ensures s.recommendations.Some? ==> recs == s.recommendations.value
  {
    if s.recommendations.Some? then s.recommendations.value else []
  }

  /**
   * The variable parts of the deep-dive prompt, with the language named by the
   * corrected `LangName`; `DeepDivePromptAsWritten` names it as the code does.
   */
  function DeepDivePromptOf(s: Strategy, seed: string, lang: string): (p: DeepDivePrompt)
    ensures p.mission == s.missionCritical && p.seed == seed
    ensures p.recommendations == RecommendationsText(RecommendationsOf(s))
    ensures p.language == LangName(lang)
  {
    DeepDivePrompt(s.missionCritical, RecommendationsText(RecommendationsOf(s)), seed, LangName(lang))
  }

  /** The same prompt with `langMap[lang] || "español"` evaluated as written. */
  function DeepDivePromptAsWritten(s: Strategy, seed: string, lang: string): (p: DeepDivePrompt)
    ensures p.mission == s.missionCritical && p.seed == seed
    ensures p.recommendations == RecommendationsText(RecommendationsOf(s))
    ensures p.language == LangNameAsWritten(lang)
  {
    DeepDivePrompt(s.missionCritical, RecommendationsText(RecommendationsOf(s)), seed, LangNameAsWritten(lang))
  }

  /**
   * `generateDeepDive`: the guard, the prompt's variable parts, the model call
   * (whose thrown errors pass through) and the blank-reply check.
   */
  function GenerateDeepDive(strategy: Option<Strategy>, seed: string, lang: string,
                            model: DeepDivePrompt -> Result<string, string>): (r: Result<string, string>)
    ensures strategy.None? || strategy.value.missionCritical == "" ==> r == Failure(InvalidStrategy)
    ensures r.Success? ==> Trim(r.value) != "" && strategy.Some?
    ensures strategy.Some? && strategy.value.missionCritical != "" ==>
              var reply := model(DeepDivePromptOf(strategy.value, seed, lang));
              && (reply.Failure? ==> r == Failure(reply.error))
              && (reply.Success? && Trim(reply.value) == "" ==> r == Failure(EmptyResponse))
              && (reply.Success? && Trim(reply.value) != "" ==> r == Success(reply.value))
    ensures r.Success? ==> model(DeepDivePromptOf(strategy.value, seed, lang)) == Success(r.value)
  {
    if strategy.None? || strategy.value.missionCritical == "" then Failure(InvalidStrategy)
    else
      match model(DeepDivePromptOf(strategy.value, seed, lang))
      case Failure(e) => Failure(e)
      case Success(text) => if text == "" || Trim(text) == "" then Failure(EmptyResponse) else Success(text)
  }

  /** `langMap[lang] || "español"` read as intended: only the three own keys. */
  function LangName(lang: string): (n: string)
    ensures lang == "es" ==> n == "español"
    ensures lang == "ca" ==> n == "catalán"
    ensures lang == "en" ==> n == "inglés"
    ensures lang != "es" && lang != "ca" && lang != "en" ==> n == "español"
  {
    if lang == "es" then "español" else if lang == "ca" then "catalán" else if lang == "en" then "inglés" else "español"
  }

  /** The function-valued members every object literal inherits from `Object.prototype`. */
  const ObjectPrototypeFunctions: set<string> := {
    "constructor", "toString", "toLocaleString", "valueOf", "hasOwnProperty", "isPrototypeOf",
    "propertyIsEnumerable", "__defineGetter__", "__defineSetter__", "__lookupGetter__", "__lookupSetter__"
  }

  /**
   * `langMap[lang] || "español"` as written: a key not among the three own ones still
   * finds an inherited member, which is truthy and is printed by the template literal.
   */
  function LangNameAsWritten(lang: string): (n: string)
    ensures lang !in ObjectPrototypeFunctions && lang != "__proto__" ==> n == LangName(lang)
  {
    if lang == "es" || lang == "ca" || lang == "en" then LangName(lang)
    else if lang == "constructor" then "function Object() { [native code] }"
    else if lang in ObjectPrototypeFunctions then "function " + lang + "() { [native code] }"
    else if lang == "__proto__" then "[object Object]"
    else "español"
  }

  /** `marketContext` of `generateGapDetection`: a falsy market reads as "Global". */
  function MarketContext(market: Option<string>): (line: string)
    ensures market.None? || market.value == "" ==> line == "- Mercado geográfico objetivo: Global"
    ensures market.Some? && market.value != "" ==> line == "- Mercado geográfico objetivo: " + market.value
  {
    if market.None? || market.value == "" then "- Mercado geográfico objetivo: Global"
    else "- Mercado geográfico objetivo: " + market.value
  }

  /** The `${market || "global"}` of the same prompt. */
  function MarketLabel(market: Option<string>): (word: string)
    ensures market.None? || market.value == "" ==> word == "global"
    ensures market.Some? && market.value != "" ==> word == market.value
  {
    if market.None? || market.value == "" then "global" else market.value
  }

  // ---------------------------------------------------------------------------
  // Properties
  // ---------------------------------------------------------------------------

  /** A request that fails the guard never reaches the model: any two models give the same error. */
  lemma GuardBeforeModel(strategy: Option<Strategy>, seed: string, lang: string,
                         m1: DeepDivePrompt -> Result<string, string>, m2: DeepDivePrompt -> Result<string, string>)
    requires strategy.None? || strategy.value.missionCritical == ""
    ensures GenerateDeepDive(strategy, seed, lang, m1) == GenerateDeepDive(strategy, seed, lang, m2) == Failure(InvalidStrategy)
  {
  }

  /** A reply made only of whitespace is rejected as empty. */
  lemma BlankReplyRejected(strategy: Strategy, seed: string, lang: string, text: string,
                           model: DeepDivePrompt -> Result<string, string>)
    requires strategy.missionCritical != ""
    requires model(DeepDivePromptOf(strategy, seed, lang)) == Success(text)
    requires forall k :: 0 <= k < |text| ==> IsWhitespace(text[k])
    ensures GenerateDeepDive(Some(strategy), seed, lang, model) == Failure(EmptyResponse)
  {
    TrimEmptyIffBlank(text);
  }

  /** A reply with one visible character comes back verbatim. */
  lemma VisibleReplyReturned(strategy: Strategy, seed: string, lang: string, text: string,
                             model: DeepDivePrompt -> Result<string, string>, k: nat)
    requires strategy.missionCritical != ""
    requires model(DeepDivePromptOf(strategy, seed, lang)) == Success(text)
    requires k < |text| && !IsWhitespace(text[k])
    ensures GenerateDeepDive(Some(strategy), seed, lang, model) == Success(text)
  {
    TrimEmptyIffBlank(text);
  }

  /** The as-written prompt differs from the corrected one only for the inherited keys. */
  lemma PromptsAgreeOnOwnKeys(s: Strategy, seed: string, lang: string)
    ensures lang !in ObjectPrototypeFunctions && lang != "__proto__" ==>
              DeepDivePromptAsWritten(s, seed, lang) == DeepDivePromptOf(s, seed, lang)
    ensures lang == "constructor" ==> DeepDivePromptAsWritten(s, seed, lang) != DeepDivePromptOf(s, seed, lang)
  {
    if lang == "constructor" {
      LangMapPrototypeLeak();
    }
  }

  /** Decimal digits never include a newline. */
  lemma DigitsHaveNoNewline(n: nat)
    ensures '\n' !in NatToString(n)
  {
  }

  /** Splitting the text at newlines gives back one line per recommendation, numbered from 1. */
  lemma {:induction false} RecommendationLines(recs: seq<Recommendation>)
    requires |recs| > 0
    requires forall i :: 0 <= i < |recs| ==> '\n' !in recs[i].title && '\n' !in recs[i].description
    ensures |Split(RecommendationsText(recs), '\n')| == |recs|
    ensures forall i :: 0 <= i < |recs| ==> Split(RecommendationsText(recs), '\n')[i] == RecommendationLine(i, recs[i])
  {
    var lines := Lines(recs);
    forall i | 0 <= i < |recs| ensures '\n' !in lines[i] {
      DigitsHaveNoNewline(i + 1);
      assert '\n' !in "Recomendación";
      assert lines[i] == NatToString(i + 1) + ". " + (if recs[i].title == "" then "Recomendación" else recs[i].title) + ": " + recs[i].description;
    }
    SplitJoin(lines, '\n');
  }

  /** Each line starts with its 1-based number. */
  lemma LineNumbered(i: nat, r: Recommendation)
    ensures NatToString(i + 1) + ". " <= RecommendationLine(i, r)
  {
  }

  /** The intended fallback: every language other than the three reads as Spanish. */
  lemma LangFallback(lang: string)
    requires lang != "es" && lang != "ca" && lang != "en"
    ensures LangName(lang) == LangName("es")
  {
  }

  /** As written, `lang: "constructor"` puts the text of `Object` into the prompt instead of "español". */
  lemma LangMapPrototypeLeak()
    ensures LangNameAsWritten("constructor") != LangName("constructor")
    ensures LangName("constructor") == "español"
  {
  }

  /** An example: at the absent market, which the gap-detection route always passes, both fallbacks read "Global". */
  lemma GapDetectionAlwaysGlobal()
    ensures MarketContext(None) == "- Mercado geográfico objetivo: Global" && MarketLabel(None) == "global"
  {
  }

  /** A client: the first call without a key fails and caches nothing; later calls reuse the first client. */
  method ClientCached(key: string)
    requires key != ""
  {
    var cache := new GroqClientCache();
    var r := cache.GetGroqClient(None);
    assert r == Failure(MissingKey) && cache.client == None;
    r := cache.GetGroqClient(Some(key));
    assert r == Success(GroqClient(key));
    r := cache.GetGroqClient(None);
    assert r == Success(GroqClient(key));
    r := cache.GetGroqClient(Some("other"));
    assert r == Success(GroqClient(key));
  }
}
