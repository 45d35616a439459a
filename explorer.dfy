/**
 * The filter-and-paginate logic of `src/components/CountriesExplorer.tsx`:
 * region, population range, language and currency filters, the option lists
 * for the two multi-selects, and pages of forty.
 */
module Explorer {

  import opened Wrappers
  import opened Text
  import opened Seqs
  import opened Pagination
  import opened CountryModel

  const PER_PAGE: nat := 40

  /**
   * The filter inputs. A population bound is the number `parseInt` read from
   * its input box; `None` stands for an empty box and for text that does not
   * parse, since neither excludes anything.
   */
  datatype Filters = Filters(
    region: string,
    minPop: Option<int>,
    maxPop: Option<int>,
    languages: seq<string>,
    currencies: seq<string>)

  /** The filters as the component starts. */
  const NO_FILTERS: Filters := Filters("All", None, None, [], [])

  /** Some selected language is one of the country's languages. */
  predicate SpeaksOneOf(c: Country, selected: seq<string>)
  {
    exists i :: 0 <= i < |selected| && selected[i] in LanguageNames(c)
  }

  /** Some selected currency code is one of the country's currency codes. */
  predicate PaysInOneOf(c: Country, selected: seq<string>)
  {
    exists i :: 0 <= i < |selected| && selected[i] in CurrencyCodes(c)
  }

  /** The test of the `filtered` callback: every active filter accepts the country. */
  predicate Matches(c: Country, f: Filters)
  {
    && (f.region == "All" || c.region == f.region)
    && (f.minPop.None? || c.population >= f.minPop.value)
    && (f.maxPop.None? || c.population <= f.maxPop.value)
    && (|f.languages| == 0 || SpeaksOneOf(c, f.languages))
    && (|f.currencies| == 0 || PaysInOneOf(c, f.currencies))
  }

  function Accepts(f: Filters): Country -> bool
  {
    (c: Country) => Matches(c, f)
  }

  /** `filtered`: exactly the countries every active filter accepts, in their original order. */
  function Filtered(countries: seq<Country>, f: Filters): (r: seq<Country>)
    ensures forall i :: 0 <= i < |r| ==> r[i] in countries && Matches(r[i], f)
    ensures forall i :: 0 <= i < |countries| && Matches(countries[i], f) ==> countries[i] in r
    ensures f == NO_FILTERS ==> r == countries
  {
    if f == NO_FILTERS then
      FilterKeepsAll(countries, Accepts(f));
      Filter(countries, Accepts(f))
    else
      Filter(countries, Accepts(f))
  }

  /** Filtering a concatenation filters each part, so the relative order of the kept countries is the input's. */
  lemma FilteredKeepsOrder(a: seq<Country>, b: seq<Country>, f: Filters)
    ensures Filtered(a + b, f) == Filtered(a, f) + Filtered(b, f)
  {
    FilterAppend(a, b, Accepts(f));
  }

  /** A country is kept as often as it occurs when it matches, and never otherwise. */
  lemma FilteredCount(countries: seq<Country>, f: Filters, c: Country)
    ensures multiset(Filtered(countries, f))[c] == if Matches(c, f) then multiset(countries)[c] else 0
  {
    FilterCount(countries, Accepts(f), c);
  }

  /** With every other filter off, a region keeps exactly the countries of that region, compared case-sensitively. */
  lemma RegionOnly(countries: seq<Country>, region: string)
    requires region != "All"
    ensures var r := Filtered(countries, Filters(region, None, None, [], []));
            && (forall i :: 0 <= i < |r| ==> r[i].region == region)
            && (forall i :: 0 <= i < |countries| && countries[i].region == region ==> countries[i] in r)
  {
  }

  /** `totalPages`: never less than one page, even for an empty result. */
  function TotalPages(n: nat): (r: nat)
    ensures r >= 1
    ensures r * PER_PAGE >= n
    ensures r == 1 || (r - 1) * PER_PAGE < n
    ensures n <= PER_PAGE ==> r == 1
  {
    var c := CeilDiv(n, PER_PAGE);
    if c < 1 then 1 else c
  }

  /** `slice`: the countries on page `page`, `filtered.slice((page - 1) * 40, page * 40)`. */
  function PageSlice(filtered: seq<Country>, page: int): (r: seq<Country>)
    ensures |r| <= PER_PAGE
    ensures page >= 1 ==> r == filtered[Min((page - 1) * PER_PAGE, |filtered|)..Min(page * PER_PAGE, |filtered|)]
  {
    PageOf(filtered, page, PER_PAGE)
  }

  /** Pages 1 to `totalPages`, put together, show every filtered country once, in order. */
  lemma PagesCoverFiltered(filtered: seq<Country>)
    ensures FirstPages(filtered, PER_PAGE, TotalPages(|filtered|)) == filtered
  {
    if |filtered| == 0 {
      FirstPagesArePrefix(filtered, PER_PAGE, 1);
    } else {
      AllPagesReproduce(filtered, PER_PAGE);
    }
  }

  /** The component's state: the loaded countries, the filters and the current page. */
  datatype View = View(countries: seq<Country>, filters: Filters, page: int)

  function Initial(countries: seq<Country>): (v: View)
    ensures v.filters == NO_FILTERS && v.page == 1
    ensures Visible(v) == countries[..Min(PER_PAGE, |countries|)]
  {
    View(countries, NO_FILTERS, 1)
  }

  /** The countries on screen. */
  function Visible(v: View): seq<Country>
  {
    PageSlice(Filtered(v.countries, v.filters), v.page)
  }

  /** Setting a filter input; the effect on the filter values then puts the view back on page 1. */
  function ChangeFilters(v: View, f: Filters): (r: View)
    ensures r.countries == v.countries && r.filters == f
    ensures f != v.filters ==> r.page == 1
    ensures f == v.filters ==> r == v
  {
    if f == v.filters then v else View(v.countries, f, 1)
  }

  /** After a filter change the screen shows the first forty matches of the new filters. */
  lemma ChangeShowsFirstPage(v: View, f: Filters)
    requires f != v.filters
    ensures var n := |Filtered(v.countries, f)|;
            Visible(ChangeFilters(v, f)) == Filtered(v.countries, f)[..Min(PER_PAGE, n)]
  {
  }

  /** The strings `items` yields for some country: the union the option lists are built from. */
  ghost predicate Offered(countries: seq<Country>, items: Country -> seq<string>, x: string)
  {
    exists k :: 0 <= k < |countries| && x in items(countries[k])
  }

  function Identity(s: string): string
  {
    s
  }

  /**
   * The `forEach`/`add` loops that fill a `Set` with every string `items`
   * yields for some country, then `Array.from(set).sort()`: sorted, free of
   * duplicates, and holding exactly the union.
   */
  method SortedUnion(countries: seq<Country>, items: Country -> seq<string>) returns (r: seq<string>)
    ensures SortedBy(r, Identity)
    ensures NoDup(r)
    ensures forall x :: x in r <==> Offered(countries, items, x)
  {
    var seen: seq<string> := [];
    var i := 0;
    while i < |countries|
      invariant 0 <= i <= |countries|
      invariant NoDup(seen)
      invariant forall x :: x in seen <==> Offered(countries[..i], items, x)
    {
      var vs := items(countries[i]);
      var j := 0;
      while j < |vs|
        invariant 0 <= j <= |vs|
        invariant NoDup(seen)
        invariant forall x :: x in seen <==> Offered(countries[..i], items, x) || x in vs[..j]
      {
        if vs[j] !in seen {
          seen := seen + [vs[j]];
        }
        j := j + 1;
      }
      assert vs[..j] == vs;
      forall x
        ensures Offered(countries[..i + 1], items, x) <==> Offered(countries[..i], items, x) || x in vs
      {
        assert countries[..i + 1][i] == countries[i];
        if Offered(countries[..i + 1], items, x) {
          var k :| 0 <= k < i + 1 && x in items(countries[..i + 1][k]);
          if k < i {
            assert countries[..i][k] == countries[..i + 1][k];
          }
        }
        if Offered(countries[..i], items, x) {
          var k :| 0 <= k < i && x in items(countries[..i][k]);
          assert countries[..i + 1][k] == countries[..i][k];
        }
      }
      i := i + 1;
    }
    assert countries[..i] == countries;
    r := SortBy(seen, Identity);
    NoDupPermutation(seen, r);
    forall x ensures x in r <==> x in seen {
      assert x in r <==> x in multiset(r);
      assert x in seen <==> x in multiset(seen);
    }
  }

  /** `allLanguages`: the sorted, duplicate-free union of every country's language names. */
  method AllLanguages(countries: seq<Country>) returns (r: seq<string>)
    ensures SortedBy(r, Identity) && NoDup(r)
    ensures forall x :: x in r <==> exists k :: 0 <= k < |countries| && x in LanguageNames(countries[k])
  {
    r := SortedUnion(countries, LanguageNames);
  }

  /** `allCurrencies`: the sorted, duplicate-free union of every country's currency codes. */
  method AllCurrencies(countries: seq<Country>) returns (r: seq<string>)
    ensures SortedBy(r, Identity) && NoDup(r)
    ensures forall x :: x in r <==> exists k :: 0 <= k < |countries| && x in CurrencyCodes(countries[k])
  {
    r := SortedUnion(countries, CurrencyCodes);
  }

  /** The sample of the filter test: Canada in the Americas and France in Europe. */
  function Sample(): seq<Country>
  {
    [ Country(name := "Canada", code := "CAN", flag := "ca.svg", capital := "Ottawa", population := 10,
              region := "Americas", languages := Some([("eng", "English")]),
              currencies := Some([("CAD", Currency("Canadian dollar", "$"))]),
              subregion := None, borders := None, area := None, independent := None, unMember := None,
              car := None, demonyms := None, tld := None, timezones := None),
      Country(name := "France", code := "FRA", flag := "fr.svg", capital := "Paris", population := 20,
              region := "Europe", languages := Some([("fra", "French")]),
              currencies := Some([("EUR", Currency("Euro", "€"))]),
              subregion := None, borders := None, area := None, independent := None, unMember := None,
              car := None, demonyms := None, tld := None, timezones := None) ]
  }

  /** Choosing Europe keeps France and drops Canada. */
  lemma EuropeKeepsFranceOnly()
    ensures Visible(ChangeFilters(Initial(Sample()), Filters("Europe", None, None, [], []))) == [Sample()[1]]
  {
    var f := Filters("Europe", None, None, [], []);
    assert !Matches(Sample()[0], f) && Matches(Sample()[1], f);
    assert Filtered(Sample(), f) == [Sample()[1]];
  }
}
