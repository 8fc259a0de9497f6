# Paged product search over a search engine, in Dafny

This project models the core of a small Java client for an Elasticsearch product
index: the offset-based pagination protocol (`search` opens a walk at offset 0 with
window 10, `next` asks for the window after a held page, an exhausted answer becomes
the shared empty page) and the batched save that writes the ids of the bulk response
back onto the products by position.

- `wrappers.dfy` (`Wrappers`): `Option` for Java's nullable references, `Result` and
  `Outcome` for calls that return or throw.
- `java_int.dfy` (`JavaInt`): Java's 32-bit `int` as `int32`, with the wrap-around
  addition used for `from + size`.
- `page.dfy` (`Pages`): `Page<T>` as an immutable datatype (items, input, from, size)
  with its getters and the sentinel `Empty()`. Being a datatype value, a page cannot
  change after it is built, and every `Empty()` is the same value, which is how the
  model renders the single shared `EMPTY` instance.
- `paged_search.dfy` (`PagedSearch`): the search request (query input, fields, from,
  size), the backend as a function from request to response or failure,
  `GetPageResult`, `Search` and `Next`.
- `bulk_save.dfy` (`BulkSave`): the `Product` class whose `id` is updated in place,
  the bulk request builder loop `BuildOperations`, the write-back loop
  `WriteBackIds`, `Save` (a list) and `SaveOne` (one product).
- `pagination_walk.dfy` (`PaginationWalk`): the whole walk against a backend that
  ranks a fixed list of documents and answers `(from, size)` with all of them as
  total hits and the slice at `from` of at most `size` documents. It proves that the
  walk's pages start at 0, 10, 20, ..., that all pages but the last are full, that the
  last one holds `N - 10 * ((N - 1) / 10)` items, that the walk then stays at the
  empty page, that the pages together hold every document once in rank order, and the
  21-document scenario of the integration test.

The search engine, its transport and failures are not modelled: the search backend
and the bulk backend are function parameters, and a backend failure (Java's
`IOException`) is an `Err` value that every operation passes on unchanged.

`next` does not check for the empty page: on it, it computes `0 + 0` and sends the
request for offset 0, size 0 and a `null` input, and its answer decides the result
(`PagedSearch.NextOfEmptyRestarts`). A stricter design would report an invalid-state
error there; the code raises none and neither does the model. Against the ranked-list
backend a size-0 window has no hits, so the walk stays at the empty page.

## Model

| member | source | states |
|---|---|---|
| `JavaInt.Add` | src/main/java/de/spinscale/restclient/ProductServiceImpl.java:39 | Java `int` addition of `from + size`: the exact sum when it fits in 32 bits, otherwise a value congruent to it modulo 2^32 |
| `Pages.ConstructorStoresArguments` | src/main/java/de/spinscale/restclient/Page.java:16-43 | `Get`, `GetInput`, `GetFrom`, `GetSize` return exactly the items, input, offset and size the page was built with |
| `Pages.EmptyCharacterized` | src/main/java/de/spinscale/restclient/Page.java:9-31 | a page is the sentinel exactly when it has no items, a null input, offset 0 and size 0, so all results of `Empty()` are one value |
| `PagedSearch.Sources` | src/main/java/de/spinscale/restclient/ProductServiceImpl.java:53 | the page items are the hits' sources, one per hit, in hit order |
| `PagedSearch.GetPageResult` | src/main/java/de/spinscale/restclient/ProductServiceImpl.java:44-55 | a backend failure passes through; the result is the empty page exactly when total hits are 0 or no hits came back; otherwise the page holds the hits' sources, the given input and the request's own from and size (not the item count) |
| `PagedSearch.Search` | src/main/java/de/spinscale/restclient/ProductServiceImpl.java:33-35 | the result is the page for the request of offset 0 and size 10 over fields name and description for that input: empty exactly when that answer is exhausted, else `Page(sources, input, 0, 10)` |
| `PagedSearch.Next` | src/main/java/de/spinscale/restclient/ProductServiceImpl.java:38-42 | the result is the page for the request at `from + size` (Java int) with the same size and input; a non-empty result starts at exactly `page.from + page.size` when that sum fits |
| `PagedSearch.NextOfEmptyRestarts` | src/main/java/de/spinscale/restclient/ProductServiceImpl.java:38-41 | `next` on the sentinel sends the request for offset 0, size 0 and a null input |
| `BulkSave.OperationFor` | src/main/java/de/spinscale/restclient/ProductServiceImpl.java:98-102 | a product with an id is indexed under that id, one without leaves the id to the backend; the document is the product as it is |
| `BulkSave.Operations` | src/main/java/de/spinscale/restclient/ProductServiceImpl.java:95-107 | the bulk request has one operation per product, the i-th for the i-th product |
| `BulkSave.BuildOperations` | src/main/java/de/spinscale/restclient/ProductServiceImpl.java:95-106 | the builder loop produces exactly `Operations(products)` |
| `BulkSave.WriteBackIds` | src/main/java/de/spinscale/restclient/ProductServiceImpl.java:109-112 | each product holds the response id of its last position written; a response shorter than the list throws at its length after writing the positions before it; no other field changes |
| `BulkSave.Save` | src/main/java/de/spinscale/restclient/ProductServiceImpl.java:86-113 | a failed bulk call changes no id; otherwise the ids are written back by position as in `WriteBackIds`; names, descriptions and stock never change |
| `BulkSave.SaveOne` | src/main/java/de/spinscale/restclient/ProductServiceImpl.java:81-83 | saving one product is saving the one-element list: on success the product's id is the first response id, on failure or an empty response it keeps its id |
| `BulkSave.DistinctProductsGetPositionalIds` | src/main/java/de/spinscale/restclient/ProductServiceImpl.java:109-112 | with no product listed twice, the i-th product ends with the i-th response id |
| `BulkSave.LastWriteWins` | src/main/java/de/spinscale/restclient/ProductServiceImpl.java:109-112 | a product listed more than once ends with the response id of its last position |
| `BulkSave.UnwrittenKeepsId` | src/main/java/de/spinscale/restclient/ProductServiceImpl.java:109-112 | a product at no written position keeps its id |
| `BulkSave.WrittenProductsHaveIds` | src/test/java/de/spinscale/restclient/ElasticsearchIntegrationTest.java:142-151 | when the backend reports an id for every item, every written product, including one saved with no id, ends with a non-null id |
| `PaginationWalk.SearchGivesFirstPage` | src/main/java/de/spinscale/restclient/ProductServiceImpl.java:33-35 | against the ranked list, `search` returns the first 10 documents at offset 0 with size 10, or the empty page when there are none |
| `PaginationWalk.NextOfExpectedPage` | src/main/java/de/spinscale/restclient/ProductServiceImpl.java:38-55 | against the ranked list, `next` of the k-th page of any window size is the (k+1)-th page, and `next` of the empty page is the empty page |
| `PaginationWalk.WalkFollowsSlices` | src/test/java/de/spinscale/restclient/ElasticsearchIntegrationTest.java:188-205 | the k-th page of the walk holds documents `10k .. min(10k+10, N)` at offset `10k` with size 10, or is the empty page once `10k >= N` |
| `PaginationWalk.WalkShape` | src/test/java/de/spinscale/restclient/ElasticsearchIntegrationTest.java:188-205 | page k is non-empty exactly when `k < ceil(N/10)`; it then starts at `10k` with size 10 and the walk's input; every page but the last has 10 items and the last has `N - 10 * ((N - 1) / 10)` |
| `PaginationWalk.WalkCollectsPrefix` | src/test/java/de/spinscale/restclient/ElasticsearchIntegrationTest.java:188-205 | the first m pages together hold the first `10m` documents in rank order |
| `PaginationWalk.WalkCollectsAll` | src/test/java/de/spinscale/restclient/ElasticsearchIntegrationTest.java:188-205 | the non-empty pages of a walk together hold every document exactly once, in rank order |
| `PaginationWalk.NoDocumentsGiveEmpty` | src/main/java/de/spinscale/restclient/ProductServiceImpl.java:46-48 | with nothing indexed, `search` returns the empty page at once |
| `PaginationWalk.TwentyOneProducts` | src/test/java/de/spinscale/restclient/ElasticsearchIntegrationTest.java:188-205 | for 21 products the pages hold ids "0".."9", "10".."19" and "20" at offsets 0, 10, 20, and the fourth call returns the empty page |

## Left out

- The Elasticsearch client calls (`client.search`, `client.bulk`, `client.get`), transport, TLS, credentials and container setup: the search and bulk calls are function parameters, and their failures are `Err` values passed through unchanged.
- `findById`: a pass-through of the backend's get response with no logic of its own.
- The multi-match query of `createSearchRequest`: only the facts that input, from and size are passed on unchanged and that the fields are `name` and `description` are kept.
- What the request builder of the Java client does with a `null` query text (as `next` on the empty page sends) is not modelled; the backend function decides the answer.
- Hit metadata (index, id, score), a missing total-hits object and a null hit source are not modelled; a hit is its source document.
- The result window limit of the search engine is not modelled; the ranked-list backend only refuses a negative offset or size.
- `Product.java` is not part of this model: the `Product` class has the fields the save touches or keeps (id, name, description, stock); the floating-point price is left out.
- The cluster-health, async, search_after, bool-query and aggregation tests: they exercise the search engine itself, concurrency and floating point, not this code.
- PaginationWalk.WalkShape: like every walk lemma, it assumes `N + 10 <= 2^31`, so that no offset of the walk overflows a Java `int`; longer lists are not covered.
