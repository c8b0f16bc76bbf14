/**
 * The backend's constant tables: region code to country name, region code to
 * currency label, and the agent settings record.
 */
module Constants {

  /** Region code to display name. */
  const CountryNames: map<string, string> := map[
    "US" := "United States",
    "IN" := "India",
    "GB" := "United Kingdom",
    "DE" := "Germany",
    "FR" := "France",
    "JP" := "Japan",
    "CN" := "China",
    "AU" := "Australia",
    "CA" := "Canada",
    "BR" := "Brazil",
    "AE" := "United Arab Emirates",
    "SG" := "Singapore",
    "KR" := "South Korea",
    "RU" := "Russia",
    "SA" := "Saudi Arabia"
  ]

  /** Region code to currency label. */
  const Currencies: map<string, string> := map[
    "US" := "USD ($)",
    "IN" := "INR (\U{20B9})",
    "GB" := "GBP (\U{A3})",
    "DE" := "EUR (\U{20AC})",
    "FR" := "EUR (\U{20AC})",
    "JP" := "JPY (\U{A5})",
    "CN" := "CNY (\U{A5})",
    "AU" := "AUD (A$)",
    "CA" := "CAD (C$)",
    "BR" := "BRL (R$)",
    "AE" := "AED (\U{62F}.\U{625})",
    "SG" := "SGD (S$)",
    "KR" := "KRW (\U{20A9})",
    "RU" := "RUB (\U{20BD})",
    "SA" := "SAR (\U{631}.\U{633})"
  ]

  /** The agent settings; the temperature is kept as a real. */
  datatype AgentSettings = AgentSettings(
    model: string,
    temperature: real,
    maxIterations: nat,
    maxResults: nat,
    historyLimit: nat,
    defaultRegion: string)

  const AgentConfig := AgentSettings(
    model := "mistral-large-latest",
    temperature := 0.3,
    maxIterations := 3,
    maxResults := 5,
    historyLimit := 20,
    defaultRegion := "IN")

  /** The region codes both tables know. */
  const RegionCodes: set<string> := {"US", "IN", "GB", "DE", "FR", "JP", "CN", "AU", "CA", "BR", "AE", "SG", "KR", "RU", "SA"}

  /** The two tables cover the same fifteen region codes. */
  lemma TablesShareKeys()
    ensures CountryNames.Keys == RegionCodes == Currencies.Keys
  {
  }

  /** No table entry is empty, so a lookup of a known code never falls through `||`. */
  lemma TableValuesNonEmpty()
    ensures forall k :: k in CountryNames ==> CountryNames[k] != ""
    ensures forall k :: k in Currencies ==> Currencies[k] != ""
  {
  }

  /** The default region is a key of both tables. */
  lemma DefaultRegionKnown()
    ensures AgentConfig.defaultRegion in CountryNames
    ensures AgentConfig.defaultRegion in Currencies
  {
  }

  /** The history cap is 20 messages, an even number, i.e. ten exchanges. */
  lemma HistoryLimitEven()
    ensures AgentConfig.historyLimit == 20 && AgentConfig.historyLimit % 2 == 0
  {
  }

  /** The executor is allowed at least one iteration and the search tool returns at least one result. */
  lemma AgentLimitsPositive()
    ensures AgentConfig.maxIterations > 0 && AgentConfig.maxResults > 0
  {
  }

  /** Germany and France share a currency label: the currency table is not injective. */
  lemma CurrenciesNotInjective()
    ensures "DE" != "FR" && Currencies["DE"] == Currencies["FR"] == "EUR (\U{20AC})"
  {
  }
}
