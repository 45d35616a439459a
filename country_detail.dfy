/**
 * The summary page logic of `src/components/CountryDetail.tsx`: previous and
 * next links over the countries sorted by name, and the list of statistics.
 */
module CountryDetail {

  import opened Wrappers
  import opened Text
  import opened Seqs
  import opened CountryModel
  import CountriesLib

  datatype NavEntry = NavEntry(name: string, code: string)

  function NameOf(e: NavEntry): string
  {
    e.name
  }

  /** `list`: the given name/code pairs sorted by name. */
  function NavList(all: seq<NavEntry>): (r: seq<NavEntry>)
    ensures SortedBy(r, NameOf)
    ensures multiset(r) == multiset(all)
  {
    SortBy(all, NameOf)
  }

  function HasCode(code: string): NavEntry -> bool
  {
    (e: NavEntry) => e.code == code
  }

  /** `currentIndex`: the first position holding `code`, or -1. */
  function CurrentIndex(list: seq<NavEntry>, code: string): (r: int)
    ensures -1 <= r < |list|
    ensures r == -1 <==> forall j :: 0 <= j < |list| ==> list[j].code != code
    ensures r >= 0 ==> list[r].code == code && forall j :: 0 <= j < r ==> list[j].code != code
  {
    FindIndex(list, HasCode(code))
  }

  /** `prevCode`: the code before the current one, when the current one is found after the start. */
  function PrevCode(list: seq<NavEntry>, code: string): (r: Option<string>)
    ensures r.Some? <==> CurrentIndex(list, code) > 0
    ensures r.Some? ==> r.value == list[CurrentIndex(list, code) - 1].code
  {
    var i := CurrentIndex(list, code);
    if i > 0 then Some(list[i - 1].code) else None
  }

  /** `nextCode`: the code after the current one, when the current one is found before the end. */
  function NextCode(list: seq<NavEntry>, code: string): (r: Option<string>)
    ensures r.Some? <==> 0 <= CurrentIndex(list, code) < |list| - 1
    ensures r.Some? ==> r.value == list[CurrentIndex(list, code) + 1].code
  {
    var i := CurrentIndex(list, code);
    if i != -1 && i < |list| - 1 then Some(list[i + 1].code) else None
  }

  /** A code missing from the list gets neither link; the first entry has no previous and the last no next. */
  lemma NavigationEdges(list: seq<NavEntry>, code: string)
    ensures (forall j :: 0 <= j < |list| ==> list[j].code != code) ==> PrevCode(list, code).None? && NextCode(list, code).None?
    ensures |list| > 0 && list[0].code == code ==> PrevCode(list, code).None?
    ensures |list| > 0 && list[|list| - 1].code == code && NoDup(Codes(list)) ==> NextCode(list, code).None?
  {
    if |list| > 0 && list[|list| - 1].code == code && NoDup(Codes(list)) {
      var i := CurrentIndex(list, code);
      assert Codes(list)[i] == Codes(list)[|list| - 1];
    }
  }

  function Codes(list: seq<NavEntry>): (r: seq<string>)
    ensures |r| == |list| && forall i :: 0 <= i < |list| ==> r[i] == list[i].code
  {
    seq(|list|, i requires 0 <= i < |list| => list[i].code)
  }

  /** With distinct codes, stepping forward and then back returns to where one started. */
  lemma {:induction false} NextThenPrev(list: seq<NavEntry>, code: string)
    requires NoDup(Codes(list))
    requires NextCode(list, code).Some?
    ensures PrevCode(list, NextCode(list, code).value) == Some(code)
  {
    var i := CurrentIndex(list, code);
    var next := list[i + 1].code;
    var k := CurrentIndex(list, next);
    assert Codes(list)[i + 1] == next;
  }

  /** With distinct codes, stepping back and then forward returns to where one started. */
  lemma {:induction false} PrevThenNext(list: seq<NavEntry>, code: string)
    requires NoDup(Codes(list))
    requires PrevCode(list, code).Some?
    ensures NextCode(list, PrevCode(list, code).value) == Some(code)
  {
    var i := CurrentIndex(list, code);
    var prev := list[i - 1].code;
    assert Codes(list)[i - 1] == prev;
  }

  /** The statistics the page can list, in their display order. */
  datatype Kind = Capital | Region | Population | Languages | SubRegion | Area | Borders

  /** The label shown for each statistic. */
  function Caption(k: Kind): string
  {
    match k
    case Capital => "Capital"
    case Region => "Region"
    case Population => "Population"
    case Languages => "Languages"
    case SubRegion => "Sub-region"
    case Area => "Area"
    case Borders => "Borders"
  }

  /** Position of a statistic in the display order. */
  function Rank(k: Kind): int
  {
    match k
    case Capital => 0
    case Region => 1
    case Population => 2
    case Languages => 3
    case SubRegion => 4
    case Area => 5
    case Borders => 6
  }

  datatype Stat = Stat(kind: Kind, value: Shown)

  /** Whether `x && { ... }` yields the item rather than a falsy value that `.filter(Boolean)` drops. */
  function Shows(c: Country, k: Kind): (r: bool)
  {
    match k
    case Languages => c.languages.Some?
    case SubRegion => Truthy(c.subregion)
    case Area => c.area.Some? && c.area.value != 0.0
    case Borders => c.borders.Some? && |c.borders.value| > 0
    case _ => true
  }

  /** The item each statistic would show. */
  function Item(c: Country, k: Kind): (r: Stat)
    ensures r.kind == k
  {
    match k
    case Capital => Stat(Capital, Text(c.capital))
    case Region => Stat(Region, Text(c.region))
    case Population => Stat(Population, Count(c.population))
    case Languages => Stat(Languages, Text(Join(LanguageNames(c), ", ")))
    case SubRegion => Stat(SubRegion, Text(c.subregion.GetOr("")))
    case Area => Stat(Area, SquareKm(c.area.GetOr(0.0)))
    case Borders => Stat(Borders, Text(Join(c.borders.GetOr([]), ", ")))
  }

  /** The array literal before `.filter(Boolean)`, every entry in display order. */
  function Candidates(c: Country): (r: seq<Stat>)
    ensures Ascending(r)
    ensures forall i :: 0 <= i < |r| ==> r[i] == Item(c, r[i].kind)
  {
    [Item(c, Capital), Item(c, Region), Item(c, Population), Item(c, Languages),
     Item(c, SubRegion), Item(c, Area), Item(c, Borders)]
  }

  function Present(c: Country): Stat -> bool
  {
    (s: Stat) => Shows(c, s.kind)
  }

  /** The statistics come in strictly increasing rank, so each appears at most once and in the display order. */
  predicate Ascending(stats: seq<Stat>)
  {
    forall i, j :: 0 <= i < j < |stats| ==> Rank(stats[i].kind) < Rank(stats[j].kind)
  }

  /** Dropping entries from a list in increasing rank leaves it in increasing rank. */
  lemma {:induction false} FilterAscending(s: seq<Stat>, p: Stat -> bool)
    requires Ascending(s)
    ensures Ascending(Filter(s, p))
    decreases |s|
  {
    if s != [] {
      FilterAscending(s[1..], p);
      var rest := Filter(s[1..], p);
      forall i | 0 <= i < |rest|
        ensures Rank(s[0].kind) < Rank(rest[i].kind)
      {
        var j :| 0 <= j < |s[1..]| && s[1..][j] == rest[i];
      }
    }
  }

  lemma InCandidates(c: Country, k: Kind)
    ensures Item(c, k) in Candidates(c)
  {
    assert Candidates(c)[Rank(k)] == Item(c, k);
  }

  lemma KeptIff(all: seq<Stat>, p: Stat -> bool, x: Stat)
    requires x in all
    ensures x in Filter(all, p) <==> p(x)
  {
  }

  /**
   * `stats`: capital, region and population always, in that order; then
   * languages when the languages object is present (an empty one is truthy),
   * the sub-region when it is a non-empty string, the area when it is present
   * and not zero, and the borders when the list is not empty.
   */
  function Stats(c: Country): (r: seq<Stat>)
    ensures Ascending(r)
  {
    FilterAscending(Candidates(c), Present(c));
    Filter(Candidates(c), Present(c))
  }

  /** Capital, region and population head the list, and every entry shows its own field. */
  lemma StatsShape(c: Country)
    ensures var r := Stats(c);
            && |r| >= 3 && r[..3] == [Item(c, Capital), Item(c, Region), Item(c, Population)]
            && forall i :: 0 <= i < |r| ==> r[i] == Item(c, r[i].kind)
  {
    var all := Candidates(c);
    FilterAppend(all[..3], all[3..], Present(c));
    assert all[..3] + all[3..] == all;
    FilterKeepsAll(all[..3], Present(c));
  }

  /** Each statistic is listed exactly when its condition holds. */
  lemma StatsShow(c: Country, k: Kind)
    ensures Item(c, k) in Stats(c) <==> Shows(c, k)
  {
    InCandidates(c, k);
    KeptIff(Candidates(c), Present(c), Item(c, k));
  }

  /** An area of 0 and an empty sub-region are both left out of the list. */
  lemma FalsyFieldsOmitted(c: Country)
    requires c.area == Some(0.0) && c.subregion == Some("")
    ensures Item(c, Area) !in Stats(c) && Item(c, SubRegion) !in Stats(c)
  {
    StatsShow(c, Area);
    StatsShow(c, SubRegion);
  }

  /** A record built by `getCountryByCode` always has a languages object, so its page always lists languages. */
  lemma DetailListsLanguages(raw: RawCountry, code: string)
    ensures Item(CountriesLib.DetailRecord(raw, code), Languages) in Stats(CountriesLib.DetailRecord(raw, code))
  {
    StatsShow(CountriesLib.DetailRecord(raw, code), Languages);
  }
}
