/** `GET /api/countries` (`src/app/api/countries/route.ts`): the light list, or a one-country fallback. */
module CountriesRoute {

  import opened Wrappers
  import opened Http
  import opened CountryModel
  import CountriesLib

  /** The light record the list endpoint builds from each raw record. */
  function ListRecord(c: RawCountry): (r: Country)
    ensures r.name == CommonName(c) && r.flag == FlagUrl(c) && r.capital == FirstCapital(c)
    ensures r.code == c.cca3.GetOr("N/A")
    ensures r.population == c.population.GetOr(0) && r.region == c.region.GetOr("Unknown")
    ensures r.languages == Some(c.languages.GetOr([])) && r.subregion == c.subregion
    ensures r.borders.None? && r.area.None? && r.currencies.None? && r.tld.None? && r.timezones.None?
    ensures r.independent.None? && r.unMember.None? && r.car.None? && r.demonyms.None?
  {
    Country(
      name := CommonName(c),
      code := c.cca3.GetOr("N/A"),
      flag := FlagUrl(c),
      capital := FirstCapital(c),
      population := c.population.GetOr(0),
      region := c.region.GetOr("Unknown"),
      languages := Some(c.languages.GetOr([])),
      subregion := c.subregion,
      borders := None, area := None, independent := None, unMember := None, car := None,
      currencies := None, tld := None, timezones := None, demonyms := None)
  }

  /** The record served when anything goes wrong. */
  const Fallback: Country := Country(
    name := "Canada",
    code := "CAN",
    flag := "https://flagcdn.com/ca.svg",
    capital := "Ottawa",
    population := 38_000_000,
    region := "Americas",
    languages := Some([("eng", "English"), ("fra", "French")]),
    subregion := None, borders := None, area := None, independent := None, unMember := None,
    car := None, currencies := None, tld := None, timezones := None, demonyms := None)

  datatype Reply = Reply(status: int, countries: seq<Country>)

  /** The provider answered with a status in the 2xx range and a JSON array. */
  predicate Delivered(upstream: Upstream<seq<RawCountry>>)
  {
    upstream.Response? && upstream.ok && upstream.body.Some?
  }

  /**
   * The handler: every raw record mapped in order when the provider delivers,
   * otherwise exactly the fallback record; the status is 200 either way.
   */
  function Get(upstream: Upstream<seq<RawCountry>>): (r: Reply)
    ensures r.status == 200
    ensures Delivered(upstream) ==> |r.countries| == |upstream.body.value|
    ensures Delivered(upstream) ==> forall i :: 0 <= i < |r.countries| ==> r.countries[i] == ListRecord(upstream.body.value[i])
    ensures !Delivered(upstream) ==> r.countries == [Fallback]
  {
    if Delivered(upstream) then
      var raw := upstream.body.value;
      Reply(200, seq(|raw|, i requires 0 <= i < |raw| => ListRecord(raw[i])))
    else
      Reply(200, [Fallback])
  }

  /** The fallback is Canada with 38,000,000 inhabitants and English and French as languages. */
  lemma FallbackIsCanada()
    ensures Fallback.code == "CAN" && Fallback.name == "Canada" && Fallback.population == 38_000_000
    ensures LanguageNames(Fallback) == ["English", "French"]
  {
  }

  /**
   * The list mapping and the detail mapping of `getCountryByCode` agree on
   * every field both fill, except `code` when `cca3` is missing: the list
   * says "N/A" while the detail falls back to the requested code.
   */
  lemma ListAndDetailAgree(c: RawCountry, code: string)
    ensures var l, d := ListRecord(c), CountriesLib.DetailRecord(c, code);
      && l.name == d.name && l.flag == d.flag && l.capital == d.capital
      && l.population == d.population && l.region == d.region
      && l.languages == d.languages && l.subregion == d.subregion
      && (c.cca3.Some? ==> l.code == d.code)
      && (c.cca3.None? ==> l.code == "N/A" && d.code == code)
  {
  }
}
