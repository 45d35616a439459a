/** The search-and-paginate logic of `src/components/CountriesList.tsx`: name search and pages of 48. */
module CountriesList {

  import opened Text
  import opened Seqs
  import opened Pagination
  import opened CountryModel

  const PER_PAGE: nat := 48

  /** The search test: the lowercased name contains the lowercased search text. */
  predicate NameMatches(c: Country, search: string)
  {
    Includes(Lower(c.name), Lower(search))
  }

  function Searching(search: string): Country -> bool
  {
    (c: Country) => NameMatches(c, search)
  }

  /** The search test holds exactly when the lowercased search text occurs somewhere in the lowercased name. */
  lemma NameMatchesIff(c: Country, search: string)
    ensures NameMatches(c, search) <==> exists k :: OccursAt(Lower(c.name), Lower(search), k)
  {
    IncludesIff(Lower(c.name), Lower(search));
  }

  /** `filtered`: exactly the countries whose name contains the search text ignoring case, in their original order. */
  function Filtered(countries: seq<Country>, search: string): (r: seq<Country>)
    ensures forall i :: 0 <= i < |r| ==> r[i] in countries && NameMatches(r[i], search)
    ensures forall i :: 0 <= i < |countries| && NameMatches(countries[i], search) ==> countries[i] in r
  {
    Filter(countries, Searching(search))
  }

  /** An empty search keeps every country. */
  lemma EmptySearchKeepsAll(countries: seq<Country>)
    ensures Filtered(countries, "") == countries
  {
    forall i | 0 <= i < |countries| ensures Searching("")(countries[i]) {
      IncludesEmpty(Lower(countries[i].name));
    }
    FilterKeepsAll(countries, Searching(""));
  }

  /** Filtering a concatenation filters each part: the order of the matches is the input's. */
  lemma FilteredKeepsOrder(a: seq<Country>, b: seq<Country>, search: string)
    ensures Filtered(a + b, search) == Filtered(a, search) + Filtered(b, search)
  {
    FilterAppend(a, b, Searching(search));
  }

  /** `totalPages = Math.ceil(n / 48)`: zero when nothing matches, unlike the explorer. */
  function TotalPages(n: nat): (r: nat)
    ensures r * PER_PAGE >= n
    ensures r == 0 || (r - 1) * PER_PAGE < n
    ensures r == 0 <==> n == 0
  {
    CeilDiv(n, PER_PAGE)
  }

  /** `pageSlice = filtered.slice(start, start + 48)` with `start = (page - 1) * 48`. */
  function PageSlice(filtered: seq<Country>, page: int): (r: seq<Country>)
    ensures |r| <= PER_PAGE
    ensures page >= 1 ==> r == filtered[Min(PageStart(page, PER_PAGE), |filtered|)..Min(PageStart(page, PER_PAGE) + PER_PAGE, |filtered|)]
  {
    PageOf(filtered, page, PER_PAGE)
  }

  /** Pages 1 to `totalPages` show every match once, in order. */
  lemma PagesCoverFiltered(filtered: seq<Country>)
    ensures FirstPages(filtered, PER_PAGE, TotalPages(|filtered|)) == filtered
  {
    AllPagesReproduce(filtered, PER_PAGE);
  }

  /** A page button: its number, and whether it is the current page (drawn as primary). */
  datatype Button = Button(number: int, current: bool)

  /** The paginator: buttons 1 to `totalPages`, drawn only when there is more than one page. */
  function PageButtons(totalPages: nat, page: int): (r: seq<Button>)
    ensures totalPages <= 1 ==> r == []
    ensures totalPages > 1 ==> |r| == totalPages
    ensures forall i :: 0 <= i < |r| ==> r[i].number == i + 1 && (r[i].current <==> i + 1 == page)
    ensures totalPages > 1 && 1 <= page <= totalPages ==> exists i :: 0 <= i < |r| && r[i].current
  {
    var r := if totalPages > 1 then seq(totalPages, i requires 0 <= i < totalPages => Button(i + 1, i + 1 == page)) else [];
    assert totalPages > 1 && 1 <= page <= totalPages ==> r[page - 1].current;
    r
  }

  /** The component's state: loaded countries, search text and current page. */
  datatype View = View(countries: seq<Country>, search: string, page: int)

  /** Typing in the search box: the new text is taken and the page goes back to 1, whatever it was. */
  function OnSearchInput(v: View, text: string): (r: View)
    ensures r.countries == v.countries && r.search == text && r.page == 1
  {
    View(v.countries, text, 1)
  }

  /** Clicking page button `n`. */
  function OnPageButton(v: View, n: int): (r: View)
    ensures r.countries == v.countries && r.search == v.search && r.page == n
  {
    View(v.countries, v.search, n)
  }

  /** The countries on screen. */
  function Visible(v: View): seq<Country>
  {
    PageSlice(Filtered(v.countries, v.search), v.page)
  }

  /** After typing, the screen shows the first 48 matches of the new text. */
  lemma SearchShowsFirstPage(v: View, text: string)
    ensures var n := |Filtered(v.countries, text)|;
            Visible(OnSearchInput(v, text)) == Filtered(v.countries, text)[..Min(PER_PAGE, n)]
  {
    assert PageStart(1, PER_PAGE) == 0;
  }
}
