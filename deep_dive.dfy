/**
 * The deep-dive page of `src/components/CountryDeepDive.tsx`: four cards of
 * labelled values, where a missing or falsy field shows an em dash.
 */
module DeepDive {

  import opened Wrappers
  import opened Text
  import opened CountryModel
  import CountriesLib

  /** The placeholder for an unknown value, U+2014. */
  const DASH: string := "\U{2014}"

  /** `value || "—"`: the value when it is a non-empty string, else the dash. */
  function OrDash(s: string): (r: string)
    ensures r != ""
    ensures s != "" ==> r == s
    ensures s == "" ==> r == DASH
  {
    if s != "" then s else DASH
  }

  /** `list?.join(", ") || "—"`: the dash exactly for an absent list and for the lists that join to nothing. */
  function JoinOrDash(xs: Option<seq<string>>): (r: string)
    ensures r != ""
    ensures xs.None? || xs.value == [] || xs.value == [""] ==> r == DASH
    ensures xs.Some? && xs.value != [] && xs.value != [""] ==> r == Join(xs.value, ", ")
  {
    if xs.Some? then
      JoinEmptyIff(xs.value, ", ");
      OrDash(Join(xs.value, ", "))
    else DASH
  }

  /** `yesNo`: the dash for a missing flag, else "Yes" or "No". */
  function YesNo(v: Option<bool>): (r: string)
    ensures r == DASH <==> v.None?
    ensures r == "Yes" <==> v == Some(true)
    ensures r == "No" <==> v == Some(false)
  {
    if v.None? then DASH else if v.value then "Yes" else "No"
  }

  const GLOBE: string := "\U{1F30D} "

  /** `regionBadge`: the globe emoji, a space, then the region. */
  function RegionBadge(region: string): (r: string)
    ensures StartsWith(r, GLOBE) && r[|GLOBE|..] == region
  {
    var r := GLOBE + region;
    assert r[..|GLOBE|] == GLOBE;
    r
  }

  /** One currency as `name (symbol)`, never shorter than the three characters around the symbol. */
  function CurrencyLabel(cur: Currency): (r: string)
    ensures r == cur.name + " (" + cur.symbol + ")"
    ensures |r| >= 3 && r[|cur.name|..|cur.name| + 2] == " (" && r[|r| - 1] == ')'
  {
    var r := cur.name + " (" + cur.symbol + ")";
    assert r[|cur.name|..|cur.name| + 2] == " (";
    r
  }

  /** `.map(c => `${c.name} (${c.symbol})`)`: one label per currency, in order. */
  function CurrencyLabels(vs: seq<Currency>): (r: seq<string>)
    ensures |r| == |vs| && forall i :: 0 <= i < |vs| ==> r[i] == CurrencyLabel(vs[i])
  {
    seq(|vs|, i requires 0 <= i < |vs| => CurrencyLabel(vs[i]))
  }

  /**
   * The Currencies value: the dash only when the currencies object is
   * missing; a present object joins its `name (symbol)` entries, which is
   * the empty string for an empty object.
   */
  function CurrencyText(currencies: Option<Dict<Currency>>): (r: string)
    ensures r == DASH <==> currencies.None?
    ensures currencies.Some? ==> r == Join(CurrencyLabels(Values(currencies.value)), ", ")
    ensures currencies == Some([]) ==> r == ""
    ensures currencies.Some? && currencies.value != [] ==> |r| >= 3
  {
    if currencies.None? then DASH
    else
      var labels := CurrencyLabels(Values(currencies.value));
      JoinCoversHead(labels, ", ");
      Join(labels, ", ")
  }

  /** `demonyms?.eng ? "m / f" : "—"`: the dash exactly when there is no English entry. */
  function DemonymText(d: Option<Demonyms>): (r: string)
    ensures r == DASH <==> d.None? || d.value.eng.None?
    ensures d.Some? && d.value.eng.Some? ==> r == d.value.eng.value.m + " / " + d.value.eng.value.f
  {
    if d.Some? && d.value.eng.Some? then d.value.eng.value.m + " / " + d.value.eng.value.f else DASH
  }

  /** `car?.side || "—"`. */
  function DrivesOn(car: Option<Car>): (r: string)
    ensures r != ""
    ensures car.Some? && car.value.side != "" ==> r == car.value.side
    ensures car.None? || car.value.side == "" ==> r == DASH
  {
    OrDash(if car.Some? then car.value.side else "")
  }

  /** `area ? "<area> km²" : "—"`: an area of 0 counts as missing. */
  function AreaValue(area: Option<real>): (r: Shown)
    ensures r == Text(DASH) <==> area.None? || area.value == 0.0
    ensures r != Text(DASH) ==> r == SquareKm(area.value)
  {
    if area.Some? && area.value != 0.0 then SquareKm(area.value) else Text(DASH)
  }

  datatype Row = Row(caption: string, value: Shown)

  datatype InfoCard = InfoCard(title: string, items: seq<Row>)

  function Basics(c: Country): InfoCard
  {
    InfoCard("Basics", [
      Row("Capital", Text(c.capital)),
      Row("Region", Text(RegionBadge(c.region))),
      Row("Sub\U{2011}region", Text(OrDash(c.subregion.GetOr("")))),
      Row("Population", Count(c.population)),
      Row("Area", AreaValue(c.area))])
  }

  function Economy(c: Country): InfoCard
  {
    InfoCard("Economy", [
      Row("Currencies", Text(CurrencyText(c.currencies))),
      Row("Top\U{2011}level domains", Text(JoinOrDash(c.tld)))])
  }

  function TimeAndTransport(c: Country): InfoCard
  {
    InfoCard("Time & Transport", [
      Row("Time\U{2011}zones", Text(JoinOrDash(c.timezones))),
      Row("Drives on", Text(DrivesOn(c.car)))])
  }

  function StatusAndCulture(c: Country): InfoCard
  {
    InfoCard("Status & Culture", [
      Row("Independent", Text(YesNo(c.independent))),
      Row("UN member", Text(YesNo(c.unMember))),
      Row("Demonyms", Text(DemonymText(c.demonyms))),
      Row("Borders", Text(JoinOrDash(c.borders)))])
  }

  function Captions(card: InfoCard): (r: seq<string>)
    ensures |r| == |card.items| && forall i :: 0 <= i < |r| ==> r[i] == card.items[i].caption
  {
    seq(|card.items|, i requires 0 <= i < |card.items| => card.items[i].caption)
  }

  /**
   * The four cards of the info grid, in page order, with their rows in
   * order; each optional field is shown through its fallback helper.
   */
  function Cards(c: Country): (r: seq<InfoCard>)
    ensures |r| == 4
    ensures r[0].title == "Basics" && r[1].title == "Economy"
    ensures r[2].title == "Time & Transport" && r[3].title == "Status & Culture"
    ensures Captions(r[0]) == ["Capital", "Region", "Sub\U{2011}region", "Population", "Area"]
    ensures Captions(r[1]) == ["Currencies", "Top\U{2011}level domains"]
    ensures Captions(r[2]) == ["Time\U{2011}zones", "Drives on"]
    ensures Captions(r[3]) == ["Independent", "UN member", "Demonyms", "Borders"]
    ensures r[0].items[0].value == Text(c.capital) && r[0].items[1].value == Text(RegionBadge(c.region))
    ensures r[0].items[2].value == Text(OrDash(c.subregion.GetOr(""))) && r[0].items[3].value == Count(c.population)
    ensures r[0].items[4].value == AreaValue(c.area)
    ensures r[1].items[0].value == Text(CurrencyText(c.currencies)) && r[1].items[1].value == Text(JoinOrDash(c.tld))
    ensures r[2].items[0].value == Text(JoinOrDash(c.timezones)) && r[2].items[1].value == Text(DrivesOn(c.car))
    ensures r[3].items[0].value == Text(YesNo(c.independent)) && r[3].items[1].value == Text(YesNo(c.unMember))
    ensures r[3].items[2].value == Text(DemonymText(c.demonyms)) && r[3].items[3].value == Text(JoinOrDash(c.borders))
  {
    assert Captions(Basics(c)) == ["Capital", "Region", "Sub\U{2011}region", "Population", "Area"];
    assert Captions(Economy(c)) == ["Currencies", "Top\U{2011}level domains"];
    assert Captions(TimeAndTransport(c)) == ["Time\U{2011}zones", "Drives on"];
    assert Captions(StatusAndCulture(c)) == ["Independent", "UN member", "Demonyms", "Borders"];
    [Basics(c), Economy(c), TimeAndTransport(c), StatusAndCulture(c)]
  }

  /**
   * Every cell but Capital and Currencies shows something: each optional
   * field falls back to the dash, while the capital is whatever string the
   * record holds and an empty currencies object joins to nothing.
   */
  lemma NoBlankCells(c: Country)
    ensures forall card, row :: card in Cards(c) && row in card.items ==>
              row.caption == "Capital" || row.caption == "Currencies" || row.value != Text("")
  {
    var cards := Cards(c);
    assert RegionBadge(c.region) != "" by { assert |GLOBE| > 0; }
    assert DemonymText(c.demonyms) != "" by {
      if c.demonyms.Some? && c.demonyms.value.eng.Some? {
        assert |DemonymText(c.demonyms)| >= 3;
      }
    }
  }

  /** A record from `getCountryByCode` always has a currencies object, so its Currencies cell never shows the dash. */
  lemma DetailCurrenciesNeverDash(raw: RawCountry, code: string)
    ensures CurrencyText(CountriesLib.DetailRecord(raw, code).currencies) != DASH
  {
  }

  /** The empty currencies object of such a record shows a blank cell rather than the dash. */
  lemma DetailWithoutCurrenciesIsBlank(raw: RawCountry, code: string)
    requires raw.currencies.None? || raw.currencies == Some([])
    ensures Economy(CountriesLib.DetailRecord(raw, code)).items[0].value == Text("")
  {
  }
}
