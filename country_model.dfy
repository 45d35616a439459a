/**
 * The `Country` record the application passes around, the raw record the
 * REST Countries provider returns, and the field defaults both mappers share.
 */
module CountryModel {

  import opened Wrappers
  import opened Text

  /** A JSON object with string keys, in insertion order (the order `Object.keys`/`Object.values` report). */
  type Dict<V> = seq<(string, V)>

  /** `Object.keys(d)`. */
  function Keys<V>(d: Dict<V>): (r: seq<string>)
    ensures |r| == |d|
    ensures forall i :: 0 <= i < |d| ==> r[i] == d[i].0
  {
    seq(|d|, i requires 0 <= i < |d| => d[i].0)
  }

  /** `Object.values(d)`. */
  function Values<V>(d: Dict<V>): (r: seq<V>)
    ensures |r| == |d|
    ensures forall i :: 0 <= i < |d| ==> r[i] == d[i].1
  {
    seq(|d|, i requires 0 <= i < |d| => d[i].1)
  }

  datatype Currency = Currency(name: string, symbol: string)
  datatype Demonym = Demonym(m: string, f: string)
  datatype Demonyms = Demonyms(eng: Option<Demonym>)
  datatype Car = Car(side: string)

  /** The application's country record; optional fields are `Option`s. Area is kept as a real number. */
  datatype Country = Country(
    name: string,
    code: string,
    flag: string,
    capital: string,
    region: string,
    subregion: Option<string>,
    borders: Option<seq<string>>,
    area: Option<real>,
    independent: Option<bool>,
    unMember: Option<bool>,
    car: Option<Car>,
    population: int,
    languages: Option<Dict<string>>,
    demonyms: Option<Demonyms>,
    currencies: Option<Dict<Currency>>,
    tld: Option<seq<string>>,
    timezones: Option<seq<string>>)

  datatype RawName = RawName(common: Option<string>)
  datatype RawFlags = RawFlags(svg: Option<string>, png: Option<string>)

  /** A record as the REST Countries provider sends it: every field may be missing. */
  datatype RawCountry = RawCountry(
    name: Option<RawName>,
    cca3: Option<string>,
    flags: Option<RawFlags>,
    capital: Option<seq<string>>,
    population: Option<int>,
    region: Option<string>,
    subregion: Option<string>,
    languages: Option<Dict<string>>,
    borders: Option<seq<string>>,
    area: Option<real>,
    independent: Option<bool>,
    unMember: Option<bool>,
    car: Option<Car>,
    currencies: Option<Dict<Currency>>,
    tld: Option<seq<string>>,
    timezones: Option<seq<string>>,
    demonyms: Option<Demonyms>)

  /** `c.name?.common ?? "Unknown"`. */
  function CommonName(c: RawCountry): (r: string)
    ensures c.name.Some? && c.name.value.common.Some? ==> r == c.name.value.common.value
    ensures c.name.None? || c.name.value.common.None? ==> r == "Unknown"
  {
    if c.name.Some? then c.name.value.common.GetOr("Unknown") else "Unknown"
  }

  /** `c.flags?.svg || c.flags?.png || ""`: the SVG flag, else the PNG flag, skipping empty strings. */
  function FlagUrl(c: RawCountry): (r: string)
    ensures c.flags.Some? && Truthy(c.flags.value.svg) ==> r == c.flags.value.svg.value
    ensures c.flags.Some? && !Truthy(c.flags.value.svg) && Truthy(c.flags.value.png) ==> r == c.flags.value.png.value
    ensures r == "" <==> c.flags.None? || (!Truthy(c.flags.value.svg) && !Truthy(c.flags.value.png))
  {
    if c.flags.None? then ""
    else if Truthy(c.flags.value.svg) then c.flags.value.svg.value
    else if Truthy(c.flags.value.png) then c.flags.value.png.value
    else ""
  }

  /** `c.capital?.[0] ?? "N/A"`: the first capital listed, or "N/A" when the list is absent or empty. */
  function FirstCapital(c: RawCountry): (r: string)
    ensures c.capital.Some? && |c.capital.value| > 0 ==> r == c.capital.value[0]
    ensures c.capital.None? || c.capital.value == [] ==> r == "N/A"
  {
    if c.capital.Some? && |c.capital.value| > 0 then c.capital.value[0] else "N/A"
  }

  /** Object.values(c.languages || {}): the display names of a country's languages. */
  function LanguageNames(c: Country): (r: seq<string>)
    ensures c.languages.None? ==> r == []
    ensures c.languages.Some? ==> r == Values(c.languages.value)
  {
    Values(c.languages.GetOr([]))
  }

  /** Object.keys(c.currencies || {}): the codes of a country's currencies. */
  function CurrencyCodes(c: Country): (r: seq<string>)
    ensures c.currencies.None? ==> r == []
    ensures c.currencies.Some? ==> r == Keys(c.currencies.value)
  {
    Keys(c.currencies.GetOr([]))
  }

  /** A value as a card shows it: text, or a number that the page formats with `toLocaleString` (formatting is not modelled). */
  datatype Shown = Text(text: string) | Count(n: int) | SquareKm(area: real)
}
