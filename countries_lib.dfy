/** The country data gateway of `src/lib/countries.ts`: base URL, lookup by name, lookup by code. */
module CountriesLib {

  import opened Wrappers
  import opened Http
  import opened Text
  import opened Seqs
  import opened CountryModel

  /** `s.replace(/\/$/, "")`: drops one `/` at the very end, if there is one. */
  function StripTrailingSlash(s: string): (r: string)
    ensures |s| > 0 && s[|s| - 1] == '/' ==> r + "/" == s
    ensures |s| == 0 || s[|s| - 1] != '/' ==> r == s
  {
    if |s| > 0 && s[|s| - 1] == '/' then s[..|s| - 1] else s
  }

  /** Only one slash goes: a URL given with a slash appended comes back as it was, even if it already ended in one. */
  lemma StripAppendedSlash(s: string)
    ensures StripTrailingSlash(s + "/") == s
  {
    assert (s + "/")[..|s|] == s;
  }

  /** `BASE_URL`: the development server, else the site URL without a trailing slash, else "". */
  function BaseUrl(nodeEnv: Option<string>, siteUrl: Option<string>): (r: string)
    ensures nodeEnv == Some("development") ==> r == "http://localhost:3000"
    ensures nodeEnv != Some("development") && siteUrl.None? ==> r == ""
    ensures nodeEnv != Some("development") && siteUrl.Some? ==> r == StripTrailingSlash(siteUrl.value)
    ensures nodeEnv != Some("development") ==> |r| >= (if siteUrl.Some? then |siteUrl.value| - 1 else 0)
  {
    if nodeEnv == Some("development") then "http://localhost:3000"
    else if siteUrl.Some? then StripTrailingSlash(siteUrl.value)
    else ""
  }

  /** The predicate of `getCountryByName`: the lowercased names agree. */
  function SameName(decoded: string): Country -> bool
  {
    (c: Country) => Lower(c.name) == decoded
  }

  /**
   * `getCountryByName(rawName)`, given what `getCountries()`'s fetch produced:
   * the first listed country whose name equals `rawName` ignoring case, else
   * `null`; a failed or non-array listing rejects.
   */
  function GetCountryByName(rawName: string, listing: Upstream<seq<Country>>): (r: Settled<Option<Country>>)
    ensures !(listing.Response? && listing.ok && listing.body.Some?) <==> r.Rejected?
    ensures r.Resolved? && r.value.Some? ==>
              exists k :: 0 <= k < |listing.body.value| && listing.body.value[k] == r.value.value
                          && Lower(r.value.value.name) == Lower(rawName)
                          && forall j :: 0 <= j < k ==> Lower(listing.body.value[j].name) != Lower(rawName)
    ensures r.Resolved? && r.value.None? ==>
              forall j :: 0 <= j < |listing.body.value| ==> Lower(listing.body.value[j].name) != Lower(rawName)
  {
    if listing.Response? && listing.ok && listing.body.Some? then
      var countries := listing.body.value;
      var k := FindIndex(countries, SameName(Lower(rawName)));
      if k == -1 then Resolved(None) else Resolved(Some(countries[k]))
    else
      Rejected
  }

  /** The record mapping of `getCountryByCode`; `code` is the upper-cased request code. */
  function DetailRecord(c: RawCountry, code: string): (r: Country)
    ensures r.name == CommonName(c) && r.flag == FlagUrl(c) && r.capital == FirstCapital(c)
    ensures r.code == c.cca3.GetOr(code)
    ensures r.population == c.population.GetOr(0) && r.region == c.region.GetOr("Unknown")
    ensures r.languages == Some(c.languages.GetOr([])) && r.currencies == Some(c.currencies.GetOr([]))
    ensures r.borders == Some(c.borders.GetOr([])) && r.tld == Some(c.tld.GetOr([]))
    ensures r.timezones == Some(c.timezones.GetOr([]))
    ensures r.subregion == c.subregion && r.area == c.area && r.independent == c.independent
    ensures r.unMember == c.unMember && r.car == c.car && r.demonyms == c.demonyms
  {
    Country(
      name := CommonName(c),
      code := c.cca3.GetOr(code),
      flag := FlagUrl(c),
      capital := FirstCapital(c),
      population := c.population.GetOr(0),
      region := c.region.GetOr("Unknown"),
      languages := Some(c.languages.GetOr([])),
      subregion := c.subregion,
      borders := Some(c.borders.GetOr([])),
      area := c.area,
      independent := c.independent,
      unMember := c.unMember,
      car := c.car,
      currencies := Some(c.currencies.GetOr([])),
      tld := Some(c.tld.GetOr([])),
      timezones := Some(c.timezones.GetOr([])),
      demonyms := c.demonyms)
  }

  /**
   * `getCountryByCode(rawCode)`, given what its fetch of the provider's
   * `alpha/{code}` endpoint produced. A non-ok status, a body that is not an
   * array, or an empty array gives `null`; a thrown fetch or parse rejects.
   */
  function GetCountryByCode(rawCode: string, upstream: Upstream<seq<RawCountry>>): (r: Settled<Option<Country>>)
    ensures upstream.Threw? <==> r.Rejected?
    ensures r.Resolved? && r.value.Some? <==> upstream.Response? && upstream.ok && upstream.body.Some? && upstream.body.value != []
    ensures r.Resolved? && r.value.Some? ==> r.value.value == DetailRecord(upstream.body.value[0], Upper(rawCode))
    ensures r.Resolved? && r.value.Some? && upstream.body.value[0].cca3.None? ==> r.value.value.code == Upper(rawCode)
  {
    var code := Upper(rawCode);
    match upstream
    case Threw => Rejected
    case Response(ok, body) =>
      if !ok then Resolved(None)
      else if body.None? || body.value == [] then Resolved(None)
      else Resolved(Some(DetailRecord(body.value[0], code)))
  }
}
