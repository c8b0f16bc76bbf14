/** Region lookups with graceful fallback for unknown codes. */
module Utils {
  import opened Constants

  /** `CURRENCIES[region] || 'local currency'`. */
  function GetCurrencyInfo(region: string): (info: string)
    ensures region in Currencies ==> info == Currencies[region]
    ensures region !in Currencies ==> info == "local currency"
    ensures info != ""
  {
    if region in Currencies && Currencies[region] != "" then Currencies[region] else "local currency"
  }

  /** `countryNames[region] || region`, for any name table. */
  function GetCountryName(region: string, countryNames: map<string, string>): (name: string)
    ensures name == region || (region in countryNames && name == countryNames[region])
    ensures name == "" ==> region == ""
    ensures region in countryNames && countryNames[region] != "" ==> name == countryNames[region]
  {
    if region in countryNames && countryNames[region] != "" then countryNames[region] else region
  }

  /** With the backend's own table the fallback only serves unknown codes. */
  lemma CountryNameFromTable(region: string)
    ensures region in CountryNames ==> GetCountryName(region, CountryNames) == CountryNames[region]
    ensures region !in CountryNames ==> GetCountryName(region, CountryNames) == region
  {
  }
}
