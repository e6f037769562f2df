# Blog backend: TTL cache, Notion serialiser and cache-aside handlers, in Dafny

This project models the Python backend of a blog whose posts are stored in a
Notion database. Three parts of it are modelled, and properties of each are
proved:

- **`SimpleCache`** (`cache.dfy`, module `Cache`): an in-memory dictionary from
  key to `(value, expires_at)`. Expiry is lazy on `get`. `set` overwrites.
  The model also covers `delete`, `clear`, bulk `cleanup_expired` and `stats`.
  It is a class with a `map` field. The clock is an explicit integer
  argument `now`, in seconds. An entry is still valid when `now == expires_at`.
- **The Notion parser** (`notion_parser.dfy`, module `NotionParser`):
  - `extract_rich_text` wraps each text run in Markdown marks: bold innermost,
    then italic, code and strikethrough, with the link outermost.
  - `parse_blocks_to_markdown` writes one line per block, except blocks of an
    unknown type and paragraphs whose text is empty or whitespace only, and
    joins the lines with a blank line.
  - The `get_*_from_property` helpers and `parse_page_properties` flatten a
    page's properties.
  - Both loops are methods proved against specification functions
    (`RichTextMarkdown`, `BlocksMarkdown`), and the lemmas state what those
    functions guarantee.
- **The request handlers** (`blog_api.dfy`, module `BlogApi`):
  - `get_posts` and `get_post` are cache-aside lookups in front of the Notion
    query. On a miss they build the response and store it for 300 or 600
    seconds. `get_post` picks the first page whose slug matches, and answers 404
    (storing nothing) when none does. Any other failure becomes a 500.
  - `get_cache_stats` reports the statistics and then runs the cleanup.
  - The handlers keep an invariant of the shared cache, `ApiCache`:
    - `"posts_list"` holds a listing whose `total` is its length.
    - Every other key is `"post_" + slug` and holds the detail of the post with that slug.

  So every detail `get_post` returns, from the cache or freshly built, has the
  requested slug.

`wrappers.dfy` holds `Option` and `Result`. `text.dfy` holds Python's
`str.join` and the "is `s.strip()` empty" test, using Python's set of
whitespace characters.

## Model

| member | source | states |
|---|---|---|
| `Cache.SimpleCache.constructor` | backend/app/cache.py:11-13 | A new cache is empty and keeps the given default TTL (300 unless another is given). |
| `Cache.SimpleCache.Get` | backend/app/cache.py:15-29 | A missing key gives None and no change. An entry with `now > expires_at` gives None and exactly that key is removed. Otherwise the stored value comes back and the cache is untouched. |
| `Cache.SimpleCache.Set` | backend/app/cache.py:31-44 | The key maps to the value with `expires_at = now + ttl`, the default TTL when none is given. An earlier entry is replaced and every other key is unchanged. |
| `Cache.GetAfterSet` | backend/app/cache.py:15-42 | With `ttl >= 0`, a `get` at the same instant right after `set` returns the value just stored and removes nothing. |
| `Cache.GetAfterSetNegativeTtl` | backend/app/cache.py:15-42 | With a negative TTL the entry is born expired: the next `get` misses and deletes it. |
| `Cache.SimpleCache.Delete` | backend/app/cache.py:46-52 | Returns true exactly when the key was present. Afterwards the key is absent and every other entry is unchanged. |
| `Cache.SimpleCache.Clear` | backend/app/cache.py:54-57 | The cache is empty afterwards. |
| `Cache.SimpleCache.CleanupExpired` | backend/app/cache.py:59-73 | Removes exactly the entries with `now > expires_at` and keeps all others unchanged. Returns the number removed, so old size = new size + count. |
| `Cache.CleanupRemovesExpired` | backend/app/cache.py:59-73 | The keys left after cleanup are the old keys minus the expired ones. The number removed equals the number of expired keys. |
| `Cache.SimpleCache.Stats` | backend/app/cache.py:75-87 | Reports `total_entries` = size and `valid_entries` = number of keys with `now <= expires_at`. The rest are `expired_entries`. The cache is not changed. |
| `Cache.StatsOf` | backend/app/cache.py:75-87 | The reported figures satisfy `valid + expired = total`, and `expired` is the number of keys with `now > expires_at`. |
| `Cache.KeysPartition` | backend/app/cache.py:62-65 | Every key is valid or expired and never both, so the two counts add up to the cache size. |
| `Cache.ExpiredKeysMonotone` | backend/app/cache.py:62-65 | An entry expired at one instant is expired at every later one, so the expired count never shrinks as time passes. |
| `Text.JoinConcat` | backend/app/notion/parser.py:131 | Joining two non-empty line lists puts exactly one separator between the two joins. |
| `Text.JoinEmptySeparator` | backend/app/notion/parser.py:157 | Joining with `""` is plain concatenation, including empty lists. |
| `NotionParser.MarkedShape` | backend/app/notion/parser.py:141-149 | The annotation marks nest around the content: bold is innermost, then italic, then code, with strikethrough outermost. |
| `NotionParser.DecoratedShape` | backend/app/notion/parser.py:137-155 | A run's Markdown is its opening marks (link, strikethrough, code, italic, bold), then the content, then the closing marks in reverse order with `](href)` last. |
| `NotionParser.PlainRunUnchanged` | backend/app/notion/parser.py:138-155 | A run with no annotations and no (non-empty) link is written exactly as its content. |
| `NotionParser.DecoratedRunsConcat` | backend/app/notion/parser.py:137-155 | Decorating a list of runs distributes over concatenation of the list. |
| `NotionParser.RichTextConcat` | backend/app/notion/parser.py:133-157 | The Markdown of a run list is the in-order concatenation of its runs' Markdown. |
| `NotionParser.RichTextEmptyAndSingle` | backend/app/notion/parser.py:133-157 | No runs give `""`; one run gives its decorated text. |
| `NotionParser.ExtractRichText` | backend/app/notion/parser.py:133-157 | The loop that rebinds `content` mark by mark and joins the parts computes `RichTextMarkdown`. |
| `NotionParser.DroppedBlocks` | backend/app/notion/parser.py:81-129 | A block contributes nothing exactly when its type is not recognised, or it is a paragraph whose text is empty or whitespace only. |
| `NotionParser.HeadingLine` | backend/app/notion/parser.py:89-99 | A heading of level n is written as n `#` characters, a space and its text, even when the text is empty. |
| `NotionParser.CodeBlockKeepsText` | backend/app/notion/parser.py:109-112 | A code block is `` ``` `` plus the language, a newline, the code verbatim, a newline and a closing fence; the code can be read back from between the fences. |
| `NotionParser.ImageLine` | backend/app/notion/parser.py:114-125 | An image is written `![caption](url)`. With no caption the caption is empty, and an image of neither `file` nor `external` type has an empty url. |
| `NotionParser.NumberedItemsAllOne` | backend/app/notion/parser.py:105-107 | Numbered items are never renumbered: each one is written as `1. ` followed by its text. |
| `NotionParser.LinesOfKeptBlocks` | backend/app/notion/parser.py:81-129 | When no block is dropped, there is exactly one line per block, in block order. |
| `NotionParser.BlockLines` | backend/app/notion/parser.py:79-129 | No block contributes more than one line. |
| `NotionParser.BlockLinesConcat` | backend/app/notion/parser.py:81-129 | The lines of two concatenated block lists are the lines of the first followed by those of the second. |
| `NotionParser.DroppedBlockIgnored` | backend/app/notion/parser.py:81-131 | Inserting a block that contributes nothing (unknown type or blank paragraph) anywhere leaves the document unchanged. |
| `NotionParser.BlocksMarkdownEmptyAndSingle` | backend/app/notion/parser.py:77-131 | No blocks give `""`; one block gives its line, or `""` when it is dropped. |
| `NotionParser.BlocksMarkdownConcat` | backend/app/notion/parser.py:131 | Two non-empty documents are joined by exactly one blank line (`"\n\n"`), in block order. |
| `NotionParser.ParseBlocksToMarkdown` | backend/app/notion/parser.py:77-131 | The loop over blocks, with its per-type branches, computes `BlocksMarkdown`. |
| `NotionParser.FirstRunOnly` | backend/app/notion/parser.py:41-53 | Title and rich-text properties yield the plain `text.content` of their first run only. Annotations, links and later runs are ignored, and missing content gives `""`. |
| `NotionParser.CoverFromFirstFile` | backend/app/notion/parser.py:66-75 | The cover is read from the first file only: `file.url` for type `file`, `external.url` for type `external`, `""` for any other type. |
| `NotionParser.PropertyDefaults` | backend/app/notion/parser.py:41-75 | A missing or empty list gives `""`. A missing, null or empty date, or one with no `start`, gives `""`. A missing checkbox gives false. |
| `NotionParser.PageWithoutProperties` | backend/app/notion/parser.py:27-39 | A page with no properties parses to its id with every other field at its default. |
| `NotionParser.ParsePageFor` | backend/app/notion/parser.py:27-39 | Round trip: parsing the page Notion holds for a set of post properties gives those properties back. |
| `BlogApi.PostKeyIsNotListKey` | backend/app/main.py:90 | No post's cache key `"post_" + slug` can collide with `"posts_list"`. |
| `BlogApi.PostKeyInjective` | backend/app/main.py:90 | Two slugs share a cache key only if they are equal. |
| `BlogApi.SummariesInQueryOrder` | backend/app/main.py:53-66 | There is one summary per page, and the i-th summary is built from the i-th page's properties. |
| `BlogApi.PostsListing` | backend/app/main.py:53-68 | The listing built on a miss has `total == len(posts) ==` the number of pages, each summary in query order. |
| `BlogApi.FirstMatch` | backend/app/main.py:102-108 | The search returns the first page whose parsed slug equals the requested one, or reports that no page has it. |
| `BlogApi.NotFoundIffNoPageHasSlug` | backend/app/main.py:103-115 | On a miss the handler answers 404 exactly when the query succeeded and no page has the slug. |
| `BlogApi.FetchPostUsesFirstMatch` | backend/app/main.py:102-133 | When the first match is page i, the answer is built from page i's properties and its content, or is a 500 carrying the content fetch's error. |
| `BlogApi.FetchPostOutcome` | backend/app/main.py:110-149 | A returned detail has the requested slug. Every error is a 404 or a 500. |
| `BlogApi.GetPosts` | backend/app/main.py:35-82 | A hit on `"posts_list"` returns the cached listing and ignores the query. On a miss, a failed query gives a 500 and nothing is stored. Otherwise the listing is returned and stored under `"posts_list"` until `now + 300`. The cache invariant is kept. |
| `BlogApi.GetPost` | backend/app/main.py:85-149 | A hit on `"post_" + slug` returns the cached detail, which has that slug. On a miss, the answer is `FetchPost`, and only a successful detail is stored, until `now + 600`. The cache invariant is kept. |
| `BlogApi.GetCacheStats` | backend/app/main.py:152-166 | The statistics are taken before the cleanup, and the cleanup count is the number of entries it removed. The fixed TTLs are reported as 300 and 600. If stats and cleanup run at the same instant, the expired count equals the cleanup count; when cleanup runs later, the count is at least the expired count. |
| `BlogApi.EmptyApiCache` | backend/app/cache.py:90 | The shared cache starts empty, and an empty cache meets the invariant the handlers keep: so the handlers' precondition holds when the server starts. |
| `BlogApi.NewBlogCache` | backend/app/cache.py:90 | The module-level cache is a fresh, empty `SimpleCache` with a default TTL of 300 seconds, and it meets the handlers' invariant from the start. |

## Left out

- The Notion SDK calls `query_database`, the block listing inside `get_page_content`, and `backend/notion/client.py` are API and environment access. Their results are inputs of the handlers: `query` is the page list or an exception's text, and `blocksOf(id)` is a page's block list or an exception's text. The server-side filter on `Published` and the sort by date in `query_database` are therefore not modelled.
- The clock is an integer number of seconds passed as `now`. Each handler request is modelled at a single instant, while the Python `SimpleCache` reads `datetime.now()` separately in `get` and `set`. `GetCacheStats` takes two instants, one for `stats` and one for `cleanup_expired`. `created_at` is dropped because it is never read.
- The cache is generic in its value type. The global instance holds a datatype `Cached` for the two kinds of value the handlers store. The Python handlers rely on the truthiness of a cached value (`if cached_posts:`); the response models they store are always truthy, so a hit is `Some`.
- Notion JSON is modelled with typed datatypes. An `Option` field stands for a key that may be missing. Behaviour that exists only for malformed JSON is not modelled:
  - a block missing its own key (`block["paragraph"]`), which makes `get_post` answer 500;
  - a null `language`, which would be printed as `None`;
  - an empty page dictionary, which `if not target_page` would treat as not found;
  - a `None` field rejected by the response models.

  A missing image caption and an empty one behave the same and are both an empty list.
- Pydantic validation, FastAPI routing, CORS, logging, the `/` index route and the `ContactForm`/`ErrorResponse` models are library behaviour or have no logic.
- `backend/app/email_utils.py` is SMTP network I/O and is not part of this model.
- The frontend turns post Markdown into HTML and sanitises it with library calls (`marked` and `DOMPurify` in `frontend/src/app/blog/[slug]/page.jsx`, `react-markdown` with a syntax highlighter in `page.tsx`); this is not modelled. The other frontend files (pages, components, `frontend/src/lib/api.js`) are UI markup and a network wrapper. `backend/test_notion.py` needs a live Notion connection. Neither is part of this model.
- Concurrency: the handlers are modelled one request at a time against the shared cache. Interleaved requests are not modelled.
