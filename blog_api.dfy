/** The cache-aside request handlers of the blog backend: the posts list, one
    post by slug, and the cache statistics.

    The Notion database query and the block listing of a page are inputs: `query`
    is the list of pages the query returned, or the text of the exception it
    raised, and `blocksOf(id)` is the block list of page `id`, or the text of the
    exception fetching it raised. Each request happens at one instant `now`. */
module BlogApi {
  import opened Wrappers
  import opened Cache
  import opened NotionParser

  /** A post as it appears in the listing. */
  datatype PostSummary = PostSummary(
    id: string, title: string, slug: string, date: string, excerpt: string, cover: string, published: bool)

  /** A full post: the summary fields plus the Markdown content. */
  datatype PostDetail = PostDetail(
    id: string, title: string, slug: string, date: string, excerpt: string, cover: string, published: bool,
    content: string)

  /** The body of `GET /posts`. */
  datatype PostsResponse = PostsResponse(posts: seq<PostSummary>, total: int)

  /** An `HTTPException`: the status code and its detail text. */
  datatype HttpError = HttpError(statusCode: int, detail: string)

  /** What the shared cache holds: a posts listing or one post. */
  datatype Cached = CachedPosts(response: PostsResponse) | CachedPost(detail: PostDetail)

  /** The fixed part of `GET /cache/stats`. */
  datatype CacheInfo = CacheInfo(defaultTtl: int, postsListTtl: int, individualPostTtl: int)

  /** The body of `GET /cache/stats`. */
  datatype CacheStatsResponse = CacheStatsResponse(cacheStats: CacheStats, expiredCleaned: nat, cacheInfo: CacheInfo)

  const PostsListKey := "posts_list"
  const PostsListTtl := 300
  const PostTtl := 600

  /** The cache key of the post with the given slug. */
  function PostKey(slug: string): string {
    "post_" + slug
  }

  /** No slug's key collides with the listing's key. */
  lemma PostKeyIsNotListKey(slug: string)
    ensures PostKey(slug) != PostsListKey
  {
    assert PostKey(slug)[4] == '_' != PostsListKey[4];
  }

  /** The post keys of two slugs coincide only when the slugs do. */
  lemma PostKeyInjective(a: string, b: string)
    ensures PostKey(a) == PostKey(b) <==> a == b
  {
    if PostKey(a) == PostKey(b) {
      assert a == PostKey(a)[5..] == PostKey(b)[5..] == b;
    }
  }

  /** What the handlers keep true of the shared cache: the listing key holds a
      listing whose `total` is its length, and every other key is `"post_" + slug`
      holding the detail of the post with that slug. */
  ghost predicate ApiCache(m: map<string, Entry<Cached>>) {
    && (PostsListKey in m ==>
          m[PostsListKey].value.CachedPosts?
          && m[PostsListKey].value.response.total == |m[PostsListKey].value.response.posts|)
    && forall k :: k in m && k != PostsListKey ==>
          m[k].value.CachedPost? && k == PostKey(m[k].value.detail.slug)
  }

  /** The global cache starts empty, and an empty cache is well formed. */
  lemma EmptyApiCache()
    ensures ApiCache(map[])
  {
  }

  /** The module-level `cache = SimpleCache(default_ttl=300)`: empty, five-minute
      default TTL, and well formed from the start. */
  method NewBlogCache() returns (c: SimpleCache<Cached>)
    ensures fresh(c)
    ensures c.entries == map[] && c.defaultTtl == 300
    ensures ApiCache(c.entries)
  {
    c := new SimpleCache(300);
    EmptyApiCache();
  }

  /** Storing a detail under its own post key keeps the cache well formed. */
  lemma ApiCacheStorePost(m: map<string, Entry<Cached>>, d: PostDetail, expiresAt: int)
    requires ApiCache(m)
    ensures ApiCache(m[PostKey(d.slug) := Entry(CachedPost(d), expiresAt)])
  {
    PostKeyIsNotListKey(d.slug);
  }

  /** Storing a listing whose total is its length under `"posts_list"` keeps the cache well formed. */
  lemma ApiCacheStoreListing(m: map<string, Entry<Cached>>, response: PostsResponse, expiresAt: int)
    requires ApiCache(m) && response.total == |response.posts|
    ensures ApiCache(m[PostsListKey := Entry(CachedPosts(response), expiresAt)])
  {
  }

  /** Removing entries keeps the cache well formed. */
  lemma ApiCacheSubmap(m: map<string, Entry<Cached>>, n: map<string, Entry<Cached>>)
    requires ApiCache(m)
    requires n.Keys <= m.Keys && forall k :: k in n ==> n[k] == m[k]
    ensures ApiCache(n)
  {
  }

  /** The summary model built from a page's parsed properties. */
  function Summary(props: PageProps): PostSummary {
    PostSummary(props.id, props.title, props.slug, props.date, props.excerpt, props.cover, props.published)
  }

  /** The detail model built from a page's parsed properties and its content. */
  function Detail(props: PageProps, content: string): PostDetail {
    PostDetail(props.id, props.title, props.slug, props.date, props.excerpt, props.cover, props.published, content)
  }

  /** The summaries of the pages, in query order. */
  function Summaries(pages: seq<Page>): seq<PostSummary>
    decreases |pages|
  {
    if |pages| == 0 then [] else Summaries(pages[..|pages| - 1]) + [Summary(ParsePageProperties(pages[|pages| - 1]))]
  }

  /** There is one summary per page, and the i-th summary is built from the i-th page. */
  lemma {:induction false} SummariesInQueryOrder(pages: seq<Page>)
    ensures |Summaries(pages)| == |pages|
    ensures forall i :: 0 <= i < |pages| ==> Summaries(pages)[i] == Summary(ParsePageProperties(pages[i]))
    decreases |pages|
  {
    if |pages| > 0 {
      var init := pages[..|pages| - 1];
      SummariesInQueryOrder(init);
      assert forall i :: 0 <= i < |init| ==> pages[i] == init[i];
    }
  }

  /** The listing built on a miss: every page summarised, `total` the number of pages. */
  function PostsListing(pages: seq<Page>): (r: PostsResponse)
    ensures r.total == |r.posts| == |pages|
    ensures forall i :: 0 <= i < |pages| ==> r.posts[i] == Summary(ParsePageProperties(pages[i]))
  {
    SummariesInQueryOrder(pages);
    PostsResponse(Summaries(pages), |pages|)
  }

  /** The slug a page is looked up by. */
  function SlugOf(page: Page): string {
    ParsePageProperties(page).slug
  }

  /** The index of the first page with the given slug, if any. */
  function FirstMatch(pages: seq<Page>, slug: string): (r: Option<nat>)
    ensures r.Some? ==> r.value < |pages| && SlugOf(pages[r.value]) == slug
    ensures r.Some? ==> forall j :: 0 <= j < r.value ==> SlugOf(pages[j]) != slug
    ensures r.None? ==> forall j :: 0 <= j < |pages| ==> SlugOf(pages[j]) != slug
    decreases |pages|
  {
    if |pages| == 0 then None
    else if SlugOf(pages[0]) == slug then Some(0)
    else
      match FirstMatch(pages[1..], slug)
      case None => None
      case Some(i) => Some(i + 1)
  }

  /** The 404 `get_post` raises for an unknown slug. */
  function NotFound(slug: string): HttpError {
    HttpError(404, "Post with slug '" + slug + "' not found")
  }

  /** The 500 `get_posts` raises for any failure. */
  function PostsFailure(message: string): HttpError {
    HttpError(500, "Failed to fetch posts: " + message)
  }

  /** The 500 `get_post` raises for any failure that is not an `HTTPException`. */
  function PostFailure(message: string): HttpError {
    HttpError(500, "Failed to fetch post: " + message)
  }

  /** What `get_post` answers on a cache miss. */
  function FetchPost(query: Result<seq<Page>, string>, slug: string, blocksOf: string -> Result<seq<Block>, string>)
    : Result<PostDetail, HttpError>
  {
    match query
    case Err(e) => Err(PostFailure(e))
    case Ok(pages) =>
      match FirstMatch(pages, slug)
      case None => Err(NotFound(slug))
      case Some(i) =>
        var props := ParsePageProperties(pages[i]);
        match blocksOf(props.id)
        case Err(e) => Err(PostFailure(e))
        case Ok(blocks) => Ok(Detail(props, BlocksMarkdown(blocks)))
  }

  /** A miss answers 404 exactly when the query succeeded and no page has the slug. */
  lemma NotFoundIffNoPageHasSlug(
    query: Result<seq<Page>, string>, slug: string, blocksOf: string -> Result<seq<Block>, string>)
    ensures FetchPost(query, slug, blocksOf) == Err(NotFound(slug)) <==>
              query.Ok? && forall j :: 0 <= j < |query.value| ==> SlugOf(query.value[j]) != slug
  {
    if query.Ok? && FirstMatch(query.value, slug).Some? {
      var i := FirstMatch(query.value, slug).value;
      assert SlugOf(query.value[i]) == slug;
    }
  }

  /** A successful miss returns the detail of the first page carrying the slug,
      whose slug is therefore the one requested. */
  lemma FetchPostUsesFirstMatch(
    pages: seq<Page>, slug: string, blocksOf: string -> Result<seq<Block>, string>, i: nat)
    requires i < |pages| && SlugOf(pages[i]) == slug
    requires forall j :: 0 <= j < i ==> SlugOf(pages[j]) != slug
    ensures blocksOf(pages[i].id).Ok? ==>
              FetchPost(Ok(pages), slug, blocksOf)
              == Ok(Detail(ParsePageProperties(pages[i]), BlocksMarkdown(blocksOf(pages[i].id).value)))
    ensures blocksOf(pages[i].id).Err? ==>
              FetchPost(Ok(pages), slug, blocksOf) == Err(PostFailure(blocksOf(pages[i].id).error))
  {
    assert FirstMatch(pages, slug) == Some(i);
  }

  /** Whatever a miss answers, a detail carries the requested slug and an error is a 404 or a 500. */
  lemma FetchPostOutcome(
    query: Result<seq<Page>, string>, slug: string, blocksOf: string -> Result<seq<Block>, string>)
    ensures FetchPost(query, slug, blocksOf).Ok? ==> FetchPost(query, slug, blocksOf).value.slug == slug
    ensures FetchPost(query, slug, blocksOf).Err? ==>
              FetchPost(query, slug, blocksOf).error.statusCode in {404, 500}
  {
  }

  /** `GET /posts`: the cached listing on a hit; on a miss, one summary per page
      in query order, stored under `"posts_list"` for 300 seconds. */
  method GetPosts(cache: SimpleCache<Cached>, query: Result<seq<Page>, string>, now: int)
    returns (r: Result<PostsResponse, HttpError>)
    requires ApiCache(cache.entries)
    modifies cache
    ensures ApiCache(cache.entries)
    ensures r.Ok? ==> r.value.total == |r.value.posts|
    ensures var hit := Lookup(old(cache.entries), PostsListKey, now);
      var probed := EvictIfExpired(old(cache.entries), PostsListKey, now);
      if hit.Some? then
        r.Ok? && hit == Some(CachedPosts(r.value)) && cache.entries == old(cache.entries)
      else if query.Err? then
        r == Err(PostsFailure(query.error)) && cache.entries == probed
      else
        r == Ok(PostsListing(query.value))
        && cache.entries == probed[PostsListKey := Entry(CachedPosts(r.value), now + PostsListTtl)]
  {
    var cached := cache.Get(PostsListKey, now);
    ApiCacheSubmap(old(cache.entries), cache.entries);
    if cached.Some? {
      return Ok(cached.value.response);
    }
    if query.Err? {
      return Err(PostsFailure(query.error));
    }
    var pages := query.value;
    var posts: seq<PostSummary> := [];
    for i := 0 to |pages|
      invariant posts == Summaries(pages[..i])
    {
      assert pages[..i + 1][..i] == pages[..i];
      var props := ParsePageProperties(pages[i]);
      posts := posts + [Summary(props)];
    }
    assert pages[..|pages|] == pages;
    var response := PostsResponse(posts, |posts|);
    SummariesInQueryOrder(pages);
    ApiCacheStoreListing(cache.entries, response, now + PostsListTtl);
    cache.Set(PostsListKey, CachedPosts(response), now, Some(PostsListTtl));
    r := Ok(response);
  }

  /** `GET /posts/{slug}`: the cached detail under `"post_" + slug` on a hit; on a
      miss, the detail of the first page carrying the slug, stored for 600 seconds,
      or a 404 (nothing stored) when no page carries it. */
  method GetPost(
    cache: SimpleCache<Cached>, slug: string, query: Result<seq<Page>, string>,
    blocksOf: string -> Result<seq<Block>, string>, now: int)
    returns (r: Result<PostDetail, HttpError>)
    requires ApiCache(cache.entries)
    modifies cache
    ensures ApiCache(cache.entries)
    ensures r.Ok? ==> r.value.slug == slug
    ensures var hit := Lookup(old(cache.entries), PostKey(slug), now);
      var probed := EvictIfExpired(old(cache.entries), PostKey(slug), now);
      if hit.Some? then
        r.Ok? && hit == Some(CachedPost(r.value)) && cache.entries == old(cache.entries)
      else
        r == FetchPost(query, slug, blocksOf)
        && cache.entries == if r.Ok? then probed[PostKey(slug) := Entry(CachedPost(r.value), now + PostTtl)] else probed
  {
    PostKeyIsNotListKey(slug);
    var key := "post_" + slug;
    var cached := cache.Get(key, now);
    ApiCacheSubmap(old(cache.entries), cache.entries);
    if cached.Some? {
      PostKeyInjective(slug, old(cache.entries)[key].value.detail.slug);
      return Ok(cached.value.detail);
    }
    if query.Err? {
      return Err(PostFailure(query.error));
    }
    var pages := query.value;
    var target: Option<Page> := None;
    var i := 0;
    while i < |pages|
      invariant 0 <= i <= |pages|
      invariant target.None?
      invariant forall j :: 0 <= j < i ==> SlugOf(pages[j]) != slug
    {
      var props := ParsePageProperties(pages[i]);
      if props.slug == slug {
        target := Some(pages[i]);
        break;
      }
      i := i + 1;
    }
    if target.None? {
      return Err(NotFound(slug));
    }
    FetchPostUsesFirstMatch(pages, slug, blocksOf, i);
    var props := ParsePageProperties(target.value);
    var blocks := blocksOf(props.id);
    if blocks.Err? {
      return Err(PostFailure(blocks.error));
    }
    var content := ParseBlocksToMarkdown(blocks.value);
    var detail := Detail(props, content);
    ApiCacheStorePost(cache.entries, detail, now + PostTtl);
    cache.Set(key, CachedPost(detail), now, Some(PostTtl));
    r := Ok(detail);
  }

  /** `GET /cache/stats`: the statistics at `statsAt`, then a cleanup at
      `cleanupAt`, reporting how many entries the cleanup removed. */
  method GetCacheStats(cache: SimpleCache<Cached>, statsAt: int, cleanupAt: int) returns (r: CacheStatsResponse)
    modifies cache
    ensures ApiCache(old(cache.entries)) ==> ApiCache(cache.entries)
    ensures r.cacheStats == StatsOf(old(cache.entries), statsAt)
    ensures cache.entries == Unexpired(old(cache.entries), cleanupAt)
    ensures r.expiredCleaned == |old(cache.entries)| - |cache.entries|
    ensures r.cacheInfo == CacheInfo(cache.defaultTtl, PostsListTtl, PostTtl)
    ensures statsAt <= cleanupAt ==> r.cacheStats.expiredEntries <= r.expiredCleaned
    ensures statsAt == cleanupAt ==> r.cacheStats.expiredEntries == r.expiredCleaned
  {
    var stats := cache.Stats(statsAt);
    var cleaned := cache.CleanupExpired(cleanupAt);
    if ApiCache(old(cache.entries)) {
      ApiCacheSubmap(old(cache.entries), cache.entries);
    }
    if statsAt <= cleanupAt {
      ExpiredKeysMonotone(old(cache.entries), statsAt, cleanupAt);
    }
    r := CacheStatsResponse(stats, cleaned, CacheInfo(cache.defaultTtl, PostsListTtl, PostTtl));
  }
}
