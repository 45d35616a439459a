# countries-api, modelled in Dafny

This project models the logic of a Next.js country catalogue. The catalogue has a
list page with a case-insensitive search and pages of 48. It has an explorer with
region, population-range, language and currency filters and pages of 40. Each
country has a summary page with previous/next links and a statistics list, and a
deep-dive page of four information cards. Two server routes sit behind these
pages. `GET /api/countries` lists countries, falling back to a one-record list.
`GET /api/news` answers from a per-country headline cache that lives for 30 minutes.

Everything the program does over the network, with the clock or with the
environment comes in as a parameter:

- an upstream answer is `Upstream<T>`: the fetch threw, or a response with its
  `ok` flag and a parsed body (`None` for a missing or non-array body);
- the time is an integer `now` in milliseconds;
- an environment variable or request header is an `Option<string>`.

A JavaScript object used as a dictionary (`languages`, `currencies`) is a
sequence of key/value pairs in insertion order, so `Object.keys` and
`Object.values` keep their order. A promise outcome is `Settled<T>`: it
rejects, or it resolves with a value.

Modules follow the source files:

- `NewsCache`: `src/lib/getNewsByCode.ts`. It is a `class Cache` whose
  `entries` map is updated in place by `GetNewsByCode`.
- `NewsRoute`: `src/app/api/news/route.ts`.
- `CountriesLib`: `src/lib/countries.ts`.
- `CountriesRoute`: `src/app/api/countries/route.ts`.
- `BaseUrl`: `src/lib/getBaseUrl.ts`.
- `Explorer`: `src/components/CountriesExplorer.tsx`.
- `CountriesList`: `src/components/CountriesList.tsx`.
- `CountryDetail`: `src/components/CountryDetail.tsx`.
- `DeepDive`: `src/components/CountryDeepDive.tsx`.

Shared modules:

- `Text`: JavaScript string operations.
- `Seqs`: array methods, with `slice` clamping its bounds as JavaScript does.
- `Pagination`: ceiling division and pages.
- `CountryModel`: the `Country` record, the raw upstream record, and their field defaults.

React component state is a value, because React replaces state rather than
mutating it. Each event handler or effect is a function from the old view to
the new one. The `Set`-filling loops of the explorer are methods with loops.

Three points of the news lookup are easy to misread, and the model follows the code:

- Only one request is sent. The route reads a `name` parameter, and its own
  doc comment promises a keyword fallback. But `name` never reaches the
  lookup (`src/app/api/news/route.ts:9`, `:26`; `src/lib/getNewsByCode.ts:13`).
- Only an `ok` answer that has an `articles` field is cached
  (`src/lib/getNewsByCode.ts:35-46`).
- The key is the code as given, and only the URL lowercases it
  (`src/lib/getNewsByCode.ts:15`, `:29`, `:43`). The keys are lowercase only
  when the lookup is called through the route, which lowercases the code first.

## Model

| member | source | states |
|---|---|---|
| NewsCache.RequestUrl | src/lib/getNewsByCode.ts:28-29 | the request is the top-headlines endpoint with `country=` set to the lowercased code, then `&lang=en&token=` and the API key |
| NewsCache.Cache.constructor | src/lib/getNewsByCode.ts:10 | the cache starts empty |
| NewsCache.Cache.GetNewsByCode | src/lib/getNewsByCode.ts:13-52 | a fresh entry (`now - timestamp < TTL`, strict) is returned with no request and no change, even without an API key; a miss without a key returns `[]` and sends nothing; a miss with a key sends one request for the lowercased code; an ok answer with `articles`, even an empty one, is returned and stored under the code as given, stamped `now`; a thrown fetch, a non-ok status or a missing `articles` returns `[]` and leaves the cache as it was; no other key changes |
| NewsCache.LookupTwice | src/lib/getNewsByCode.ts:18-20 | after a successful lookup at `t`, a lookup at `t2` returns the same articles with no request when `t2 - t < TTL`, and sends the request again once `t2 - t >= TTL` |
| NewsCache.CaseVariantsMissSeparately | src/lib/getNewsByCode.ts:15-46 | right after "US" is fetched and cached, "us" still misses and sends the very same request |
| NewsRoute.CacheKey | src/app/api/news/route.ts:15-18 | the key exists exactly when the `code` parameter is a non-empty string; it is that string lowercased, with no ASCII upper-case letter left |
| NewsRoute.Get | src/app/api/news/route.ts:14-35 | a missing or empty `code` gives 400 with the error message and leaves the cache alone; any other `code` gives 200 with the lookup's articles under the lowercased code: on a fresh entry the cached articles, with the cache unchanged; on a miss answered ok with `articles`, those articles unchanged, now cached under the lowercased code and stamped `now`; on any other miss `[]`, with the cache unchanged; status 500 never happens; if every cache key was lowercase, every key still is |
| CountriesLib.StripTrailingSlash | src/lib/countries.ts:41 | a final `/` is removed, and only that one; a string not ending in `/` is unchanged |
| CountriesLib.StripAppendedSlash | src/lib/countries.ts:41 | stripping a `/` appended to any string gives that string back, even when it already ended in `/` |
| CountriesLib.BaseUrl | src/lib/countries.ts:38-41 | in development the base is `http://localhost:3000`; otherwise it is the site URL without its trailing slash, or `""` when the site URL is unset |
| CountriesLib.GetCountryByName | src/lib/countries.ts:58-64 | it rejects exactly when the listing fetch fails; otherwise it gives the first listed country whose name matches ignoring case, or `null` when no name matches |
| CountriesLib.DetailRecord | src/lib/countries.ts:90-111 | fields with defaults: name `"Unknown"`, code is `cca3` or the uppercased input, flag is svg, then png, then `""`, capital is the first entry or `"N/A"`, population 0, region `"Unknown"`; languages and currencies default to `{}`; borders, tld and timezones default to `[]`; the other fields pass through |
| CountriesLib.GetCountryByCode | src/lib/countries.ts:71-114 | a thrown fetch rejects; a non-ok status, a missing body or an empty array gives `null`; otherwise the first record is mapped, using the uppercased input as the fallback code |
| CountryModel.CommonName | src/lib/countries.ts:92 | `name.common` when present, else `"Unknown"` |
| CountryModel.FlagUrl | src/lib/countries.ts:94 | the svg URL when non-empty, else the png URL when non-empty, else `""` |
| CountryModel.FirstCapital | src/lib/countries.ts:95 | the first capital, or `"N/A"` when the list is absent or empty |
| CountryModel.LanguageNames | src/components/CountriesExplorer.tsx:67 | the language names in insertion order, or none when `languages` is absent |
| CountryModel.CurrencyCodes | src/components/CountriesExplorer.tsx:71 | the currency codes in insertion order, or none when `currencies` is absent |
| CountriesRoute.ListRecord | src/app/api/countries/route.ts:24-36 | the same name, flag, capital, population and region defaults as the detail record; code `"N/A"` when `cca3` is missing; languages default to `{}`; subregion passes through; every other field is left out |
| CountriesRoute.Get | src/app/api/countries/route.ts:9-57 | status 200 always; a delivered array maps one light record per raw record, in order; any failure gives exactly the fallback record |
| CountriesRoute.FallbackIsCanada | src/app/api/countries/route.ts:43-56 | the fallback is Canada, `CAN`, 38,000,000 people, with English and French |
| CountriesRoute.ListAndDetailAgree | src/app/api/countries/route.ts:26-35 | the list and detail mappings agree on every field both fill; only `code` differs when `cca3` is missing (`"N/A"` for the list, the requested code for the detail) |
| BaseUrl.RequestHost | src/lib/getBaseUrl.ts:9 | `x-forwarded-host` when non-empty, else `host` when non-empty, else none |
| BaseUrl.Protocol | src/lib/getBaseUrl.ts:11 | `http` exactly when the host contains `localhost`, else `https` |
| BaseUrl.GetBaseUrl | src/lib/getBaseUrl.ts:3-15 | precedence: the site URL when non-empty; then `https://` plus the Vercel URL; then protocol and request host; then `http://localhost:3000` |
| BaseUrl.WithoutEnvTheOriginIsAUrl | src/lib/getBaseUrl.ts:8-14 | without environment settings the result starts with `http://` or `https://`; it is `http` exactly when there is no host or the host names localhost |
| Explorer.Filtered | src/components/CountriesExplorer.tsx:60-76 | every kept country is from the input and passes every active filter (region, inclusive population bounds, some selected language, some selected currency); every input country that passes is kept; with no filter active the list is unchanged |
| Explorer.FilteredKeepsOrder | src/components/CountriesExplorer.tsx:61 | filtering distributes over concatenation, so kept countries keep their relative order |
| Explorer.FilteredCount | src/components/CountriesExplorer.tsx:61 | a matching country is kept as often as it occurs, a non-matching one never |
| Explorer.RegionOnly | src/components/CountriesExplorer.tsx:62 | with only a region set, exactly the countries of that region (compared exactly) remain |
| Explorer.EuropeKeepsFranceOnly | src/__tests__/filters.test.tsx:28-34 | selecting Europe on the Canada/France sample shows France and not Canada |
| Explorer.TotalPages | src/components/CountriesExplorer.tsx:82 | at least one page; the smallest count of 40-item pages that holds everything |
| Explorer.PageSlice | src/components/CountriesExplorer.tsx:83 | at most 40 countries, exactly `filtered[(page-1)*40 .. min(page*40, n)]` |
| Explorer.PagesCoverFiltered | src/components/CountriesExplorer.tsx:82-83 | pages 1 to `totalPages`, joined, are exactly the filtered list |
| Explorer.Initial | src/components/CountriesExplorer.tsx:24-31 | it starts with no filter, on page 1, showing the first 40 countries |
| Explorer.ChangeFilters | src/components/CountriesExplorer.tsx:78-80 | a change to any filter puts the view back on page 1; setting the same filters changes nothing |
| Explorer.ChangeShowsFirstPage | src/components/CountriesExplorer.tsx:78-83 | after a filter change the screen shows the first 40 matches of the new filters |
| Explorer.SortedUnion | src/components/CountriesExplorer.tsx:48-58 | the `Set`-filling loops then `sort()`: sorted, free of duplicates, and holding exactly the strings some country yields |
| Explorer.AllLanguages | src/components/CountriesExplorer.tsx:48-52 | sorted, duplicate-free, exactly the union of all language names |
| Explorer.AllCurrencies | src/components/CountriesExplorer.tsx:54-58 | sorted, duplicate-free, exactly the union of all currency codes |
| CountriesList.NameMatchesIff | src/components/CountriesList.tsx:45-47 | a country matches exactly when the lowercased search occurs at some position of the lowercased name |
| CountriesList.Filtered | src/components/CountriesList.tsx:45-47 | the kept countries are exactly the matching ones of the input |
| CountriesList.EmptySearchKeepsAll | src/components/CountriesList.tsx:45-47 | an empty search keeps every country, in order |
| CountriesList.FilteredKeepsOrder | src/components/CountriesList.tsx:45 | search filtering distributes over concatenation |
| CountriesList.TotalPages | src/components/CountriesList.tsx:49 | the smallest page count of 48 that holds every match; zero exactly when nothing matches |
| CountriesList.PageSlice | src/components/CountriesList.tsx:50-51 | at most 48 countries, exactly the range from `start` to `start + 48` clamped to the list |
| CountriesList.PagesCoverFiltered | src/components/CountriesList.tsx:49-51 | pages 1 to `totalPages`, joined, are exactly the matches |
| CountriesList.PageButtons | src/components/CountriesList.tsx:129-141 | no buttons unless there is more than one page; otherwise buttons 1 to `totalPages`, and exactly the current page is highlighted |
| CountriesList.OnSearchInput | src/components/CountriesList.tsx:68-71 | typing takes the new text and returns to page 1 |
| CountriesList.OnPageButton | src/components/CountriesList.tsx:134 | a page button moves to its page and keeps the search |
| CountriesList.SearchShowsFirstPage | src/components/CountriesList.tsx:68-71 | after typing, the screen shows the first 48 matches |
| CountryDetail.NavList | src/components/CountryDetail.tsx:32-36 | the navigation list is sorted by name and is a permutation of its input |
| CountryDetail.CurrentIndex | src/components/CountryDetail.tsx:49 | the first position holding the code, or -1 exactly when no entry has it |
| CountryDetail.PrevCode | src/components/CountryDetail.tsx:50 | present exactly when the index is above 0; it is the code one position back |
| CountryDetail.NextCode | src/components/CountryDetail.tsx:51 | present exactly when `0 <= index < length - 1`; it is the code one position on |
| CountryDetail.NavigationEdges | src/components/CountryDetail.tsx:49-51 | a code missing from the list has neither link; the first entry has no previous link; with distinct codes the last entry has no next link |
| CountryDetail.NextThenPrev | src/components/CountryDetail.tsx:50-51 | with distinct codes, the previous of the next is the starting code |
| CountryDetail.PrevThenNext | src/components/CountryDetail.tsx:50-51 | with distinct codes, the next of the previous is the starting code |
| CountryDetail.Stats | src/components/CountryDetail.tsx:64-97 | the listed statistics come in the fixed display order, each at most once |
| CountryDetail.FilterAscending | src/components/CountryDetail.tsx:95 | `.filter(Boolean)` on a list in display order leaves it in display order |
| CountryDetail.StatsShape | src/components/CountryDetail.tsx:66-73 | Capital, Region and Population always come first, in that order, and every entry shows its own field |
| CountryDetail.StatsShow | src/components/CountryDetail.tsx:74-95 | Languages, Sub-region, Area and Borders are listed exactly when their conditions hold: an object present, a non-empty string, a non-zero area, a non-empty array |
| CountryDetail.FalsyFieldsOmitted | src/components/CountryDetail.tsx:79-88 | an area of 0 and an empty sub-region are both left out |
| CountryDetail.DetailListsLanguages | src/components/CountryDetail.tsx:74-78 | a record from `getCountryByCode` always lists its languages, since they default to `{}` |
| DeepDive.OrDash | src/components/CountryDeepDive.tsx:57 | the value when non-empty, the dash for an empty value, so never an empty string |
| DeepDive.JoinOrDash | src/components/CountryDeepDive.tsx:77-100 | the joined list, never empty; the dash exactly for an absent list, `[]` or `[""]` |
| DeepDive.YesNo | src/components/CountryDeepDive.tsx:144 | the dash exactly when the flag is missing, "Yes" exactly for true, "No" exactly for false |
| DeepDive.RegionBadge | src/components/CountryDeepDive.tsx:147-149 | the globe emoji and a space, followed by the region unchanged |
| DeepDive.CurrencyLabel | src/components/CountryDeepDive.tsx:73 | the text is the name, ` (`, the symbol and `)`; so at least three characters, with ` (` right after the name and `)` last |
| DeepDive.CurrencyText | src/components/CountryDeepDive.tsx:70-75 | the dash exactly when currencies are absent; a present object gives the `name (symbol)` labels of its values, in order, joined by `", "`; an empty object gives `""`; any currency gives at least three characters |
| DeepDive.DemonymText | src/components/CountryDeepDive.tsx:95-98 | `m / f` when an English demonym exists, the dash exactly when none does |
| DeepDive.DrivesOn | src/components/CountryDeepDive.tsx:85 | the car side when non-empty; the dash when there is no car or its side is empty; never empty |
| DeepDive.AreaValue | src/components/CountryDeepDive.tsx:61 | the dash exactly for a missing area or an area of 0, otherwise the area in km² |
| DeepDive.Cards | src/components/CountryDeepDive.tsx:52-102 | four cards titled Basics, Economy, Time & Transport and Status & Culture; each card's row captions in page order; every row's value comes from its field through the matching fallback helper |
| DeepDive.NoBlankCells | src/components/CountryDeepDive.tsx:52-102 | every cell except Capital and Currencies shows a non-empty text |
| DeepDive.DetailCurrenciesNeverDash | src/components/CountryDeepDive.tsx:70-75 | a record from `getCountryByCode` never shows the dash for currencies |
| DeepDive.DetailWithoutCurrenciesIsBlank | src/components/CountryDeepDive.tsx:70-75 | such a record without currencies shows an empty Currencies cell rather than the dash |
| Text.Lower | src/components/CountriesList.tsx:46 | same length, no ASCII upper-case letter left, and every other character unchanged |
| Text.Upper | src/lib/countries.ts:74 | same length, no ASCII lower-case letter left, and every other character unchanged |
| Text.IncludesIff | src/components/CountriesList.tsx:46 | `includes` holds exactly when the substring occurs at some position |
| Text.IncludesEmpty | src/components/CountriesList.tsx:46 | every string includes the empty string |
| Text.JoinEmptyIff | src/components/CountryDeepDive.tsx:77 | with a non-empty separator, a join is empty exactly for `[]` and `[""]` |
| Text.LexLeTotal | src/components/CountriesExplorer.tsx:51 | the string order used for sorting is total |
| Text.LexLeTransitive | src/components/CountriesExplorer.tsx:51 | the string order is transitive |
| Text.LexLeAntisymmetric | src/components/CountriesExplorer.tsx:51 | the string order is antisymmetric |
| Seqs.Filter | src/components/CountriesExplorer.tsx:61-75 | every kept element is from the input and satisfies the predicate; every satisfying input element is kept |
| Seqs.FilterAppend | src/components/CountriesExplorer.tsx:61 | filtering distributes over concatenation |
| Seqs.FilterCount | src/components/CountriesExplorer.tsx:61 | an element's multiplicity is kept when it satisfies the predicate and is 0 otherwise |
| Seqs.FilterKeepsAll | src/components/CountriesList.tsx:45-47 | a predicate every element satisfies keeps the list unchanged |
| Seqs.FindIndex | src/components/CountryDetail.tsx:49 | -1 exactly when nothing matches; otherwise the first matching index |
| Seqs.NoDupIff | src/components/CountriesExplorer.tsx:49-51 | no duplicates exactly when every element occurs at most once |
| Seqs.NoDupPermutation | src/components/CountriesExplorer.tsx:51 | reordering a duplicate-free list leaves it duplicate-free |
| Seqs.InsertBy | src/components/CountryDetail.tsx:35 | inserting into a sorted list keeps it sorted and adds exactly that element |
| Seqs.SortBy | src/components/CountryDetail.tsx:35 | the result is sorted by the key and is a permutation of the input |
| Seqs.Slice | src/components/CountriesExplorer.tsx:83 | JavaScript `slice`: no longer than `end - start`; for `0 <= start <= end` exactly the range clamped to the list; empty when `0 <= end <= start` |
| Pagination.CeilDiv | src/components/CountriesList.tsx:49 | the smallest `r` with `r * d >= n` |
| Pagination.PageStart | src/components/CountriesList.tsx:50 | page 1 and after start at a non-negative offset |
| Pagination.PageOf | src/components/CountriesList.tsx:50-51 | no more than `per` items, exactly the page's range clamped to the list |
| Pagination.FirstPagesArePrefix | src/components/CountriesExplorer.tsx:83 | the first `k` pages together are the first `k * per` items |
| Pagination.AllPagesReproduce | src/components/CountriesList.tsx:49-51 | the first `ceil(n / per)` pages together are the whole list |
| Pagination.PagePastEndIsEmpty | src/components/CountriesList.tsx:50-51 | a page starting past the end is empty |

## Left out

- All `fetch` calls and response parsing are left out. Each upstream outcome is a parameter. Neither `getCountries` nor `src/lib/countryService.ts` is part of this model, beyond the outcome each passes on.
- `Date.now()` is left out: the time is the parameter `now`.
- `process.env` and the request headers are parameters.
- Console logging is left out: it has no effect on results.
- The race between concurrent lookups that write the same cache entry is left out. The model is sequential.
- React rendering is left out, and so are JSX, animation, images, map iframes and styling. So are the keyboard handler that follows the previous/next links and the `useEffect` fetches that fill the lists. The explorer's reset effect is modelled as part of the filter change. An effect that fires when an array is replaced by an equal one is not modelled: equal filters count as no change.
- `toLocaleString` formatting of population and area is left out. Those values stay numbers (`Count`, `SquareKm`).
- The area is a `real`, not an IEEE double, and `NaN` is not modelled.
- Text.LexLeTotal and Seqs.SortBy: `localeCompare` and the default `sort()` are both modelled by one code-point lexicographic order. The default sort really compares UTF-16 code units, and `localeCompare` compares by locale. The two differ for characters outside the Basic Multilingual Plane and for accented letters. They also differ on letter case and punctuation. So by code point "DR Congo" sorts before "Denmark", since `R` comes before `e`, but `localeCompare` puts it after "Dominican Republic". So the previous/next order of CountryDetail.NavList can differ from the program's even for unaccented names.
- Text.Lower and Text.Upper map ASCII letters only. Unicode case mapping is not modelled.
- Explorer.Filtered: a population bound is `Option<int>`, the value `parseInt` yields. `None` stands for an empty box and for text that does not parse, since neither excludes anything. Parsing itself is left out.
- CountriesLib.GetCountryByName: `decodeURIComponent` is left out, so its input counts as already decoded.
- NewsRoute.Get: the `name` parameter is read and handed to the lookup, which takes no such argument. So no keyword fallback query exists to model.
- The route's 500 branch can never be reached, because the lookup catches every failure itself. It is stated as `status != 500`.
- The Currencies cell shows a currency with no symbol as `name (undefined)`. This is not modelled: the symbol is always a string.
- Pure UI and configuration files are not part of this model: the navigation bar, the hero, about and footer sections, the layout and page files, `tailwind.config.ts` and `next.config.js`.
