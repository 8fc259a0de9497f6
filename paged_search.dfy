/**
 * The paging half of the product service: `search` opens a walk, `next` chains from a
 * held page, and `GetPageResult` turns one backend answer into a page or the sentinel.
 * The search engine is a parameter: a function from a request to a response or a failure.
 */
module PagedSearch {
  import opened Wrappers
  import opened JavaInt
  import opened Pages

  /** The window size of the first page of every walk. */
  const DefaultPageSize: int32 := 10

  /** The document fields the multi-match query searches. */
  const SearchFields: seq<string> := ["name", "description"]

  /** What the request builder is given: the query text, the fields, and the window. */
  datatype SearchRequest = SearchRequest(query: Option<string>, fields: seq<string>, from: int32, size: int32)

  /** One hit; only its source document is used here (index, id and score are not modelled). */
  datatype Hit<T> = Hit(source: T)

  /** The backend's answer: the total number of matches and the hits of the requested window. */
  datatype SearchResponse<T> = SearchResponse(totalHits: int, hits: seq<Hit<T>>)

  /** A failure reported by the backend or its transport, passed to the caller unchanged. */
  datatype BackendError = BackendError(reason: string)

  /** The search engine, seen as a function of the request. */
  type SearchBackend<T> = SearchRequest -> Result<SearchResponse<T>, BackendError>

  /** A response that ends the walk: no matches at all, or no hits in this window. */
  predicate Exhausted<T>(response: SearchResponse<T>) {
    response.totalHits == 0 || response.hits == []
  }

  /** The request for a window of `size` results starting at `from` over the default fields. */
  function CreateSearchRequest(input: Option<string>, from: int32, size: int32): SearchRequest {
    SearchRequest(input, SearchFields, from, size)
  }

  /** The source documents of the hits, in hit order. */
  function Sources<T>(hits: seq<Hit<T>>): (r: seq<T>)
    ensures |r| == |hits|
    ensures forall i :: 0 <= i < |hits| ==> r[i] == hits[i].source
  {
    if hits == [] then [] else [hits[0].source] + Sources(hits[1..])
  }

  /**
   * Sends `request` to the backend and builds the page: a failure passes through, an
   * exhausted response gives the sentinel, and otherwise the page carries the hits'
   * sources, the given input and the request's own offset and size.
   */
  function GetPageResult<T>(backend: SearchBackend<T>, request: SearchRequest, input: Option<string>): (r: Result<Page<T>, BackendError>)
    ensures backend(request).Err? ==> r == Err(backend(request).error)
    ensures backend(request).Ok? ==> r.Ok? && (r.value == Empty() <==> Exhausted(backend(request).value))
    ensures r.Ok? && r.value != Empty() ==>
      && r.value.Get() == Sources(backend(request).value.hits)
      && |r.value.Get()| == |backend(request).value.hits|
      && r.value.GetInput() == input
      && r.value.GetFrom() == request.from
      && r.value.GetSize() == request.size
  {
    match backend(request)
    case Err(e) => Err(e)
    case Ok(response) =>
      if response.totalHits == 0 then Ok(Empty())
      else if response.hits == [] then Ok(Empty())
      else Ok(Page(Sources(response.hits), input, request.from, request.size))
  }

  /** The first page of a walk: the window at offset 0 of `DefaultPageSize` results for `input`. */
  function Search<T>(backend: SearchBackend<T>, input: Option<string>): (r: Result<Page<T>, BackendError>)
    ensures var response := backend(SearchRequest(input, SearchFields, 0, DefaultPageSize));
      && (response.Err? ==> r == Err(response.error))
      && (response.Ok? ==> r.Ok? && (r.value == Empty() <==> Exhausted(response.value)))
      && (r.Ok? && r.value != Empty() ==>
            r.value == Page(Sources(response.value.hits), input, 0, DefaultPageSize))
  {
    GetPageResult(backend, CreateSearchRequest(input, 0, DefaultPageSize), input)
  }

  /**
   * The page after `page`: the window at `page.from + page.size` (Java `int` addition)
   * of the same size for the same input. Nothing checks for the sentinel, whose
   * successor is the request for offset 0, size 0 and no input.
   */
  function Next<T>(backend: SearchBackend<T>, page: Page<T>): (r: Result<Page<T>, BackendError>)
    ensures var request := SearchRequest(page.GetInput(), SearchFields, Add(page.GetFrom(), page.GetSize()), page.GetSize());
      var response := backend(request);
      && (response.Err? ==> r == Err(response.error))
      && (response.Ok? ==> r.Ok? && (r.value == Empty() <==> Exhausted(response.value)))
      && (r.Ok? && r.value != Empty() ==>
            r.value == Page(Sources(response.value.hits), page.GetInput(), request.from, page.GetSize()))
    ensures r.Ok? && r.value != Empty() && InRange(page.GetFrom() as int + page.GetSize() as int) ==>
      r.value.GetFrom() as int == page.GetFrom() as int + page.GetSize() as int
  {
    var from := Add(page.GetFrom(), page.GetSize());
    var request := CreateSearchRequest(page.GetInput(), from, page.GetSize());
    GetPageResult(backend, request, page.GetInput())
  }

  /** `next` on the sentinel re-issues the request for offset 0 and size 0 with no input. */
  lemma NextOfEmptyRestarts<T>(backend: SearchBackend<T>)
    ensures Next(backend, Empty()) == GetPageResult(backend, SearchRequest(None, SearchFields, 0, 0), None)
  {
  }
}
