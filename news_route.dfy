/** `GET /api/news` (`src/app/api/news/route.ts`): validates `code` and answers from the news cache. */
module NewsRoute {

  import opened Wrappers
  import opened Http
  import opened Text
  import opened NewsCache

  datatype Payload = Articles(articles: seq<Article>) | Error(message: string)
  datatype Reply = Reply(status: int, payload: Payload)

  const MISSING_CODE: string := "Missing `code` query parameter"

  /** The `code` query parameter, lowercased; `None` when it is absent or empty, both of which are falsy. */
  function CacheKey(codeParam: Option<string>): (r: Option<string>)
    ensures r.Some? <==> Truthy(codeParam)
    ensures r.Some? ==> r.value == Lower(codeParam.value) && r.value != ""
    ensures r.Some? ==> forall i :: 0 <= i < |r.value| ==> !IsUpperAscii(r.value[i])
  {
    if Truthy(codeParam) then Some(Lower(codeParam.value)) else None
  }

  /** Every key of the cache is lowercase. */
  predicate LowerKeys(entries: map<string, Entry>)
  {
    forall k :: k in entries ==> Lower(k) == k
  }

  /**
   * The handler. A missing or empty `code` is answered with 400 and leaves
   * the cache alone; otherwise the articles of the lookup under the lowercased
   * code are returned with 200. The `name` parameter is read and handed over,
   * but the lookup takes no such argument and ignores it. The 500 branch of the
   * handler is never taken: the lookup catches every failure itself.
   */
  method Get(cache: Cache, codeParam: Option<string>, nameParam: Option<string>, now: int,
             apiKey: Option<string>, upstream: Upstream<NewsBody>) returns (reply: Reply)
    modifies cache
    ensures !Truthy(codeParam) ==> reply == Reply(400, Error(MISSING_CODE)) && cache.entries == old(cache.entries)
    ensures Truthy(codeParam) ==> reply.status == 200 && reply.payload.Articles?
    // a fresh entry under the lowercased code is returned and nothing changes
    ensures Truthy(codeParam) && IsFresh(old(cache.entries), Lower(codeParam.value), now) ==>
              reply.payload.articles == old(cache.entries)[Lower(codeParam.value)].articles
              && cache.entries == old(cache.entries)
    // a miss answered ok with `articles` returns them unchanged and caches them under the lowercased code
    ensures Truthy(codeParam) && !IsFresh(old(cache.entries), Lower(codeParam.value), now)
            && Truthy(apiKey) && Fetched(upstream) ==>
              reply.payload.articles == upstream.body.value.articles.value
              && cache.entries == old(cache.entries)[Lower(codeParam.value) := Entry(reply.payload.articles, now)]
    // any other miss returns no articles and leaves the cache as it was
    ensures Truthy(codeParam) && !IsFresh(old(cache.entries), Lower(codeParam.value), now)
            && !(Truthy(apiKey) && Fetched(upstream)) ==>
              reply.payload.articles == [] && cache.entries == old(cache.entries)
    ensures reply.status != 500
    ensures LowerKeys(old(cache.entries)) ==> LowerKeys(cache.entries)
  {
    var key := CacheKey(codeParam);
    if key.None? {
      return Reply(400, Error(MISSING_CODE));
    }
    LowerIdempotent(codeParam.value);
    var articles, _ := cache.GetNewsByCode(key.value, now, apiKey, upstream);
    reply := Reply(200, Articles(articles));
  }
}
