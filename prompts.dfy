/**
 * The system prompt: one template literal filled with the resolved country
 * name, the region code, the currency label and today's date. The date comes
 * in as a parameter instead of being read from the clock. The template is
 * kept line by line and joined with line feeds.
 */
module Prompts {
  import opened Text
  import opened Constants
  import opened Utils

  const Preamble := "You are a precise AI assistant with real-time web search capabilities and conversation memory. Today's date is "

  /** The location sentence that every prompt carries. */
  function LocatedClause(countryName: string, region: string): string
  {
    "The user is located in " + countryName + " (" + region + ")"
  }

  /** The currency mandate. */
  function PriceRule(currencyInfo: string): string
  {
    "Prices MUST be in local currency (" + currencyInfo + ")"
  }

  /** The sentence that binds every claim to the country. */
  function Mandate(countryName: string): string
  {
    ". ALL responses MUST be specific to " + countryName + ":"
  }

  const NoWorkarounds := "- Do NOT suggest gray market options, unofficial sellers, or workarounds"
  const NoAlternatives := "- Do NOT recommend alternative products or brands"

  /** Line `k` of the template literal, with its four interpolated values as parameters. */
  function PromptLine(k: nat, countryName: string, region: string, currencyInfo: string, currentDate: string): string
  {
    match k
    case 0 => Preamble + currentDate + "."
    case 1 => ""
    case 2 => "CRITICAL: " + LocatedClause(countryName, region) + Mandate(countryName)
    case 3 => "- " + PriceRule(currencyInfo)
    case 4 => "- Product availability MUST reflect " + countryName + " market"
    case 5 => "- Any restrictions or bans specific to " + countryName + " MUST be mentioned FIRST"
    case 6 => "- Retailers and shopping options should be local to " + countryName
    case 7 => ""
    case 8 => "IMPORTANT: Always consider the current date when answering questions about:"
    case 9 => "- Latest product models, versions, or releases"
    case 10 => "- Current events, news, or developments"
    case 11 => "- Availability and restrictions"
    case 12 => ""
    case 13 => "You have access to the conversation history. Use it to:"
    case 14 => "- Understand context from previous messages"
    case 15 => "- Answer follow-up questions that reference earlier topics"
    case 16 => "- Maintain coherent, contextual responses"
    case 17 => ""
    case 18 => "For every query, follow this reasoning process:"
    case 19 => ""
    case 20 => "STEP 1 - CONTEXT: Check if this is a follow-up question referencing previous conversation."
    case 21 => "STEP 2 - IDENTIFY: What EXACT topic is being asked about?"
    case 22 => "STEP 3 - SEARCH: Use tavily_search_results_json to find current, real-time information. Include \""
        + countryName + "\" or \"" + region + "\" in your search queries to get region-specific results."
    case 23 => "STEP 4 - CHECK RESTRICTIONS: Is this product/service restricted or banned in " + countryName + "? "
    case 24 => "  Examples: Huawei banned in India/USA, TikTok restrictions, trade sanctions."
    case 25 => "STEP 5 - RESPOND: Answer with " + countryName + "-specific information, citing your sources."
    case 26 => ""
    case 27 => "RULES:"
    case 28 => "- iPhone question = ONLY iPhone info, NOT MacBooks"
    case 29 => "- ALWAYS show prices in local " + countryName + " currency"
    case 30 => "- Product availability = " + countryName + " availability ONLY"
    case 31 => "- Mention any bans/restrictions in " + countryName + " FIRST"
    case 32 => "- Keep responses concise and cite sources with URLs when available"
    case 33 => "- For follow-up questions, maintain the " + countryName + " context"
    case 34 => "- If a product or service is banned or restricted in " + countryName
        + ", explain ONLY the restriction details and government policies, dont provide alternatives or global facts"
    case 35 => ""
    case 36 => "BANNED/RESTRICTED PRODUCT RESPONSE RULES:"
    case 37 => "- If a product is BANNED or RESTRICTED in " + countryName + ", explain ONLY the restriction details and government policies"
    case 38 => NoWorkarounds
    case 39 => NoAlternatives
    case 40 => "- Simply state the ban, explain why, and mention the implications"
    case _ => "- Keep the response focused and concise"
  }

  const LineCount := 42

  function PromptLines(countryName: string, region: string, currencyInfo: string, currentDate: string): (lines: seq<string>)
    ensures |lines| == LineCount
    ensures forall k :: 0 <= k < LineCount ==> lines[k] == PromptLine(k, countryName, region, currencyInfo, currentDate)
  {
    seq(LineCount, k requires 0 <= k => PromptLine(k, countryName, region, currencyInfo, currentDate))
  }

  /** The template literal itself: its lines joined with line feeds. */
  function PromptTemplate(countryName: string, region: string, currencyInfo: string, currentDate: string): (prompt: string)
    ensures Preamble + currentDate + "." <= prompt
    ensures IsInfix(LocatedClause(countryName, region), prompt)
    ensures IsInfix(PriceRule(currencyInfo), prompt)
    ensures IsInfix(NoWorkarounds, prompt) && IsInfix(NoAlternatives, prompt)
  {
    var lines := PromptLines(countryName, region, currencyInfo, currentDate);
    PromptStartsWithDate(countryName, region, currencyInfo, currentDate);
    PromptStatesLocation(countryName, region, currencyInfo, currentDate);
    PromptStatesCurrency(countryName, region, currencyInfo, currentDate);
    PromptForbidsWorkarounds(countryName, region, currencyInfo, currentDate);
    Join(lines, "\n")
  }

  /** The prompt opens with today's date. */
  lemma PromptStartsWithDate(countryName: string, region: string, currencyInfo: string, currentDate: string)
    ensures Preamble + currentDate + "." <= Join(PromptLines(countryName, region, currencyInfo, currentDate), "\n")
  {
    JoinHasPiece(PromptLines(countryName, region, currencyInfo, currentDate), "\n", 0);
  }

  /** The prompt names the user's country and region code. */
  lemma PromptStatesLocation(countryName: string, region: string, currencyInfo: string, currentDate: string)
    ensures IsInfix(LocatedClause(countryName, region), Join(PromptLines(countryName, region, currencyInfo, currentDate), "\n"))
  {
    var lines := PromptLines(countryName, region, currencyInfo, currentDate);
    assert lines[2] == "CRITICAL: " + LocatedClause(countryName, region) + Mandate(countryName);
    JoinHasPiece(lines, "\n", 2);
    InfixOfConcat("CRITICAL: ", LocatedClause(countryName, region), Mandate(countryName));
    InfixTransitive(LocatedClause(countryName, region), lines[2], Join(lines, "\n"));
  }

  /** The prompt demands prices in the region's currency. */
  lemma PromptStatesCurrency(countryName: string, region: string, currencyInfo: string, currentDate: string)
    ensures IsInfix(PriceRule(currencyInfo), Join(PromptLines(countryName, region, currencyInfo, currentDate), "\n"))
  {
    var lines := PromptLines(countryName, region, currencyInfo, currentDate);
    assert lines[3] == "- " + PriceRule(currencyInfo);
    JoinHasPiece(lines, "\n", 3);
    InfixOfSuffix("- ", PriceRule(currencyInfo));
    InfixTransitive(PriceRule(currencyInfo), lines[3], Join(lines, "\n"));
  }

  /** The prompt forbids workarounds and alternative products for restricted items. */
  lemma PromptForbidsWorkarounds(countryName: string, region: string, currencyInfo: string, currentDate: string)
    ensures IsInfix(NoWorkarounds, Join(PromptLines(countryName, region, currencyInfo, currentDate), "\n"))
    ensures IsInfix(NoAlternatives, Join(PromptLines(countryName, region, currencyInfo, currentDate), "\n"))
  {
    var lines := PromptLines(countryName, region, currencyInfo, currentDate);
    assert lines[38] == NoWorkarounds && lines[39] == NoAlternatives;
    JoinHasPiece(lines, "\n", 38);
    JoinHasPiece(lines, "\n", 39);
  }

  /**
   * `getSystemPrompt(region)`: the country name is `COUNTRY_NAMES[region] || region`
   * and the currency label `getCurrencyInfo(region)`.
   */
  function GetSystemPrompt(region: string, currentDate: string): (prompt: string)
    ensures Preamble + currentDate + "." <= prompt
    ensures IsInfix(LocatedClause(GetCountryName(region, CountryNames), region), prompt)
    ensures IsInfix(PriceRule(GetCurrencyInfo(region)), prompt)
    ensures region !in CountryNames ==> IsInfix(LocatedClause(region, region), prompt)
    ensures region !in Currencies ==> IsInfix(PriceRule("local currency"), prompt)
    ensures IsInfix(NoWorkarounds, prompt) && IsInfix(NoAlternatives, prompt)
  {
    var countryName := if region in CountryNames && CountryNames[region] != "" then CountryNames[region] else region;
    PromptTemplate(countryName, region, GetCurrencyInfo(region), currentDate)
  }
}
