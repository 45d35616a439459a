/**
 * The per-country news cache of `src/lib/getNewsByCode.ts`: a process-wide
 * map from the caller's code to the articles fetched for it and the time of
 * the fetch, trusted for thirty minutes.
 */
module NewsCache {

  import opened Wrappers
  import opened Http
  import opened Text

  /** Thirty minutes, in milliseconds. */
  const TTL: int := 1000 * 60 * 30

  const TOP_HEADLINES: string := "https://gnews.io/api/v4/top-headlines"

  datatype Article = Article(
    title: string,
    url: string,
    description: Option<string>,
    image: Option<string>,
    publishedAt: Option<string>)

  /** The JSON body of a provider response; `articles` is `None` when the field is missing or null. */
  datatype NewsBody = NewsBody(articles: Option<seq<Article>>)

  datatype Entry = Entry(articles: seq<Article>, timestamp: int)

  /** The request sent to the provider: the country is the lowercased code, while the cache key stays the code as given. */
  function RequestUrl(code: string, apiKey: string): (r: string)
    ensures StartsWith(r, TOP_HEADLINES + "?country=" + Lower(code) + "&lang=en&token=")
    ensures r == TOP_HEADLINES + "?country=" + Lower(code) + "&lang=en&token=" + apiKey
  {
    var prefix := TOP_HEADLINES + "?country=" + Lower(code) + "&lang=en&token=";
    var r := prefix + apiKey;
    assert r[..|prefix|] == prefix;
    r
  }

  /** An entry for `code` exists and is younger than the TTL at time `now`. */
  predicate IsFresh(entries: map<string, Entry>, code: string, now: int)
  {
    code in entries && now - entries[code].timestamp < TTL
  }

  /** The provider answered ok with an `articles` field: the only outcome that is cached. */
  predicate Fetched(upstream: Upstream<NewsBody>)
  {
    upstream.Response? && upstream.ok && upstream.body.Some? && upstream.body.value.articles.Some?
  }

  class Cache {
    var entries: map<string, Entry>

    /** The module starts with an empty cache. */
    constructor ()
      ensures entries == map[]
    {
      entries := map[];
    }

    /**
     * `getNewsByCode(code)` at time `now`, with the `GNEWS_API_KEY` setting
     * `apiKey` and `upstream` the provider's answer should a request go out.
     * Returns the articles and the URL the request went to (`None`: no
     * request was made).
     */
    method GetNewsByCode(code: string, now: int, apiKey: Option<string>, upstream: Upstream<NewsBody>)
      returns (articles: seq<Article>, request: Option<string>)
      modifies this
      // a fresh entry is served as it is, without a request, even without an API key
      ensures IsFresh(old(entries), code, now) ==>
                articles == old(entries)[code].articles && request == None && entries == old(entries)
      // a miss without a key returns nothing and sends nothing
      ensures !IsFresh(old(entries), code, now) && !Truthy(apiKey) ==>
                articles == [] && request == None && entries == old(entries)
      // a miss with a key sends one request for the lowercased code
      ensures !IsFresh(old(entries), code, now) && Truthy(apiKey) ==>
                request == Some(RequestUrl(code, apiKey.value))
      // the provider's articles, even an empty list, are stored under the code as given, stamped `now`
      ensures !IsFresh(old(entries), code, now) && Truthy(apiKey) && Fetched(upstream) ==>
                articles == upstream.body.value.articles.value
                && entries == old(entries)[code := Entry(articles, now)]
      // a thrown fetch, a non-ok status or a missing `articles` field is not cached
      ensures !IsFresh(old(entries), code, now) && Truthy(apiKey) && !Fetched(upstream) ==>
                articles == [] && entries == old(entries)
      // no other key is touched
      ensures forall k :: k != code ==> (k in entries <==> k in old(entries))
      ensures forall k :: k != code && k in entries ==> entries[k] == old(entries)[k]
    {
      if code in entries && now - entries[code].timestamp < TTL {
        return entries[code].articles, None;
      }
      if apiKey.None? || apiKey.value == "" {
        return [], None;
      }
      request := Some(RequestUrl(code, apiKey.value));
      match upstream
      case Threw =>
        articles := [];
      case Response(ok, body) =>
        if !ok || body.None? || body.value.articles.None? {
          articles := [];
        } else {
          articles := body.value.articles.value;
          entries := entries[code := Entry(articles, now)];
        }
    }
  }

  /**
   * Two lookups for the same code: the first, at time `t`, misses and
   * succeeds; the second, at `t2`, is served from the cache without a
   * request exactly when `t2 - t < TTL`, and otherwise asks the provider again.
   */
  method LookupTwice(cache: Cache, code: string, t: int, t2: int, apiKey: Option<string>,
                     first: Upstream<NewsBody>, second: Upstream<NewsBody>)
      returns (a1: seq<Article>, a2: seq<Article>, request2: Option<string>)
    requires !IsFresh(cache.entries, code, t) && Truthy(apiKey) && Fetched(first)
    modifies cache
    ensures a1 == first.body.value.articles.value
    ensures t2 - t < TTL ==> a2 == a1 && request2 == None
    ensures t2 - t >= TTL ==> request2 == Some(RequestUrl(code, apiKey.value))
  {
    var r1;
    a1, r1 := cache.GetNewsByCode(code, t, apiKey, first);
    assert cache.entries[code] == Entry(a1, t);
    a2, request2 := cache.GetNewsByCode(code, t2, apiKey, second);
  }

  /**
   * The key is the code as given while the request lowercases it: right
   * after "US" was fetched and cached, a lookup of "us" still misses and
   * sends the very same request again.
   */
  method CaseVariantsMissSeparately(cache: Cache, now: int, apiKey: Option<string>,
                                    first: Upstream<NewsBody>, second: Upstream<NewsBody>)
      returns (request1: Option<string>, request2: Option<string>)
    requires "us" !in cache.entries && !IsFresh(cache.entries, "US", now) && Truthy(apiKey) && Fetched(first)
    modifies cache
    ensures request1 == request2 == Some(RequestUrl("us", apiKey.value))
    ensures "US" in cache.entries
  {
    var a1, a2;
    a1, request1 := cache.GetNewsByCode("US", now, apiKey, first);
    a2, request2 := cache.GetNewsByCode("us", now, apiKey, second);
    assert Lower("US") == Lower("us");
  }
}
