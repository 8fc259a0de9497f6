/**
 * A whole pagination walk (`search`, then `next` again and again) against a backend
 * that ranks a fixed list of documents, every one of which matches the query: a
 * request for `(from, size)` reports all of them as total hits and returns the slice
 * starting at `from` of at most `size` documents.
 */
module PaginationWalk {
  import opened Wrappers
  import opened JavaInt
  import opened Pages
  import opened PagedSearch

  function Min(a: int, b: int): int {
    if a <= b then a else b
  }

  /** The documents at positions `from` to `from + size`, cut at the end of the list. */
  function Window<T>(docs: seq<T>, from: nat, size: nat): seq<T> {
    docs[Min(from, |docs|)..Min(from + size, |docs|)]
  }

  function AsHits<T>(docs: seq<T>): (r: seq<Hit<T>>)
    ensures |r| == |docs|
    ensures forall i :: 0 <= i < |docs| ==> r[i] == Hit(docs[i])
  {
    seq(|docs|, i requires 0 <= i < |docs| => Hit(docs[i]))
  }

  /** The ranked-list backend; it refuses a negative offset or size, as the search engine does. */
  function SliceBackend<T>(docs: seq<T>): SearchBackend<T> {
    (request: SearchRequest) =>
      if request.from < 0 || request.size < 0 then Err(BackendError("from and size must not be negative"))
      else Ok(SearchResponse(|docs|, AsHits(Window(docs, request.from as nat, request.size as nat))))
  }

  /** The result of `search(input)` followed by `k` calls of `next`, each on the previous page. */
  function PageAfter<T>(backend: SearchBackend<T>, input: Option<string>, k: nat): Result<Page<T>, BackendError> {
    if k == 0 then Search(backend, input)
    else match PageAfter(backend, input, k - 1)
      case Err(e) => Err(e)
      case Ok(page) => Next(backend, page)
  }

  /** The number of non-empty pages of size `size` over `n` documents. */
  function PageCount(n: nat, size: nat): nat
    requires size > 0
  {
    (n + size - 1) / size
  }

  /** A list short enough that no offset of the walk overflows a Java `int`. */
  predicate Addressable<T>(docs: seq<T>, size: int32) {
    0 < size && |docs| + size as int <= TwoTo31
  }

  /** The `k`-th page of a walk with window `size`: the `k`-th slice, or the sentinel past the end. */
  function ExpectedPage<T>(docs: seq<T>, input: Option<string>, size: int32, k: nat): (p: Page<T>)
    requires Addressable(docs, size)
  {
    if k * size as int < |docs| then
      Page(docs[k * size as int..Min((k + 1) * size as int, |docs|)], input, (k * size as int) as int32, size)
    else Empty()
  }

  lemma SourcesOfHits<T>(docs: seq<T>)
    ensures Sources(AsHits(docs)) == docs
  {
  }

  /** Against the ranked list, `next` of one expected page is the expected page after it. */
  lemma NextOfExpectedPage<T>(docs: seq<T>, input: Option<string>, size: int32, k: nat)
    requires Addressable(docs, size)
    ensures Next(SliceBackend(docs), ExpectedPage(docs, input, size, k)) == Ok(ExpectedPage(docs, input, size, k + 1))
  {
    var s := size as int;
    var n := |docs|;
    var page := ExpectedPage(docs, input, size, k);
    assert (k + 1) * s == k * s + s;
    assert (k + 2) * s == k * s + s + s;
    if k * s < n {
      var from := Add(page.GetFrom(), page.GetSize());
      assert from as int == (k + 1) * s;
      var w := Window(docs, (k + 1) * s, s);
      SourcesOfHits(w);
      if (k + 1) * s < n {
        assert w == docs[(k + 1) * s..Min((k + 2) * s, n)];
      } else {
        assert w == [];
      }
    } else {
      assert page == Empty();
      assert Window(docs, 0, 0) == [];
      assert (k + 1) * s >= n;
    }
  }

  /** `search` against the ranked list gives expected page 0 of window `DefaultPageSize`. */
  lemma SearchGivesFirstPage<T>(docs: seq<T>, input: Option<string>)
    requires Addressable(docs, DefaultPageSize)
    ensures Search(SliceBackend(docs), input) == Ok(ExpectedPage(docs, input, DefaultPageSize, 0))
  {
    SourcesOfHits(Window(docs, 0, 10));
  }

  /** A walk whose first page and every step are known is known at every step. */
  lemma {:induction false} WalkByInduction<T>(backend: SearchBackend<T>, input: Option<string>, expected: nat -> Page<T>, k: nat)
    requires Search(backend, input) == Ok(expected(0))
    requires forall j: nat :: Next(backend, expected(j)) == Ok(expected(j + 1))
    ensures PageAfter(backend, input, k) == Ok(expected(k))
  {
    if k > 0 {
      WalkByInduction(backend, input, expected, k - 1);
    }
  }

  /** Every step of the walk is the expected page: the walk visits the slices of 10 in order, then stays at the sentinel. */
  lemma WalkFollowsSlices<T>(docs: seq<T>, input: Option<string>, k: nat)
    requires Addressable(docs, DefaultPageSize)
    ensures PageAfter(SliceBackend(docs), input, k) == Ok(ExpectedPage(docs, input, DefaultPageSize, k))
  {
    var expected := (j: nat) => ExpectedPage(docs, input, DefaultPageSize, j);
    SearchGivesFirstPage(docs, input);
    forall j: nat
      ensures Next(SliceBackend(docs), expected(j)) == Ok(expected(j + 1))
    {
      NextOfExpectedPage(docs, input, DefaultPageSize, j);
    }
    WalkByInduction(SliceBackend(docs), input, expected, k);
  }

  /**
   * The shape of the walk over `N` documents: page `k` is non-empty exactly when
   * `k < ceil(N / 10)`; it then starts at `10 * k`, has size 10 and the walk's input;
   * every page but the last has 10 items, the last has `N - 10 * ((N - 1) / 10)`.
   */
  lemma {:induction false} WalkShape<T>(docs: seq<T>, input: Option<string>, k: nat)
    requires Addressable(docs, DefaultPageSize)
    ensures var r := PageAfter(SliceBackend(docs), input, k);
      var n := |docs|;
      && r.Ok?
      && (r.value != Empty() <==> k < PageCount(n, 10))
      && (r.value != Empty() ==>
            r.value.GetFrom() as int == 10 * k && r.value.GetSize() == 10 && r.value.GetInput() == input)
      && (k + 1 < PageCount(n, 10) ==> |r.value.Get()| == 10)
      && (k + 1 == PageCount(n, 10) ==> |r.value.Get()| == n - 10 * ((n - 1) / 10))
  {
    WalkFollowsSlices(docs, input, k);
  }

  /** The items of the first `m` pages of the walk, one page after the other. */
  function Collected<T>(backend: SearchBackend<T>, input: Option<string>, m: nat): seq<T> {
    Concat((j: nat) => ItemsOf(PageAfter(backend, input, j)), m)
  }

  /** `parts(0) + parts(1) + ... + parts(m - 1)`. */
  function Concat<T>(parts: nat -> seq<T>, m: nat): seq<T> {
    if m == 0 then [] else Concat(parts, m - 1) + parts(m - 1)
  }

  /** The items of a page, and none for a failed call. */
  function ItemsOf<T>(r: Result<Page<T>, BackendError>): seq<T> {
    match r
    case Err(_) => []
    case Ok(page) => page.Get()
  }

  /** The items of expected page `k` of window 10 are the window at `10 * k`. */
  lemma ExpectedItems<T>(docs: seq<T>, input: Option<string>, k: nat)
    requires Addressable(docs, DefaultPageSize)
    ensures ExpectedPage(docs, input, DefaultPageSize, k).Get() == Window(docs, 10 * k, 10)
  {
    var n := |docs|;
    assert k * DefaultPageSize as int == 10 * k;
    assert (k + 1) * DefaultPageSize as int == 10 * k + 10;
    if 10 * k >= n {
      assert Window(docs, 10 * k, 10) == [];
    }
  }

  lemma PrefixGrows<T>(docs: seq<T>, a: nat)
    ensures docs[..Min(a + 10, |docs|)] == docs[..Min(a, |docs|)] + Window(docs, a, 10)
  {
  }

  /** Page `k` of the walk holds the window of 10 documents at `10 * k`. */
  lemma WalkItems<T>(docs: seq<T>, input: Option<string>, k: nat)
    requires Addressable(docs, DefaultPageSize)
    ensures PageAfter(SliceBackend(docs), input, k).Ok?
    ensures PageAfter(SliceBackend(docs), input, k).value.Get() == Window(docs, 10 * k, 10)
  {
    WalkFollowsSlices(docs, input, k);
    ExpectedItems(docs, input, k);
  }

  /** Consecutive windows of 10 documents, joined, make up the prefix of the list. */
  lemma {:induction false} ConcatWindows<T>(parts: nat -> seq<T>, docs: seq<T>, m: nat)
    requires forall j: nat :: parts(j) == Window(docs, 10 * j, 10)
    ensures Concat(parts, m) == docs[..Min(10 * m, |docs|)]
  {
    if m > 0 {
      ConcatWindows(parts, docs, m - 1);
      PrefixGrows(docs, 10 * (m - 1));
    }
  }

  /** The first `m` pages hold the first `10 * m` documents in rank order: no document is skipped or repeated. */
  lemma WalkCollectsPrefix<T>(docs: seq<T>, input: Option<string>, m: nat)
    requires Addressable(docs, DefaultPageSize)
    ensures Collected(SliceBackend(docs), input, m) == docs[..Min(10 * m, |docs|)]
  {
    var parts := (j: nat) => ItemsOf(PageAfter(SliceBackend(docs), input, j));
    forall j: nat
      ensures parts(j) == Window(docs, 10 * j, 10)
    {
      WalkItems(docs, input, j);
    }
    ConcatWindows(parts, docs, m);
  }

  /** A complete walk returns every document exactly once, in rank order. */
  lemma WalkCollectsAll<T>(docs: seq<T>, input: Option<string>)
    requires Addressable(docs, DefaultPageSize)
    ensures Collected(SliceBackend(docs), input, PageCount(|docs|, 10)) == docs
  {
    WalkCollectsPrefix(docs, input, PageCount(|docs|, 10));
  }

  /** With nothing indexed, `search` gives the sentinel at once. */
  lemma NoDocumentsGiveEmpty<T>(input: Option<string>)
    ensures Search(SliceBackend<T>([]), input) == Ok(Empty())
  {
  }

  /** The ids of 21 products indexed in id order. */
  const TwentyOneIds: seq<string> := ["0", "1", "2", "3", "4", "5", "6", "7", "8", "9", "10",
    "11", "12", "13", "14", "15", "16", "17", "18", "19", "20"]

  /** 21 indexed products walked with a query that matches all: pages of 10, 10 and 1, then the sentinel. */
  lemma TwentyOneProducts()
    ensures var backend := SliceBackend(TwentyOneIds);
      && PageAfter(backend, Some("name"), 0) == Ok(Page(["0", "1", "2", "3", "4", "5", "6", "7", "8", "9"], Some("name"), 0, 10))
      && PageAfter(backend, Some("name"), 1) == Ok(Page(["10", "11", "12", "13", "14", "15", "16", "17", "18", "19"], Some("name"), 10, 10))
      && PageAfter(backend, Some("name"), 2) == Ok(Page(["20"], Some("name"), 20, 10))
      && PageAfter(backend, Some("name"), 3) == Ok(Empty())
  {
    var ids := TwentyOneIds;
    assert ids[0..10] == ["0", "1", "2", "3", "4", "5", "6", "7", "8", "9"];
    assert ids[10..20] == ["10", "11", "12", "13", "14", "15", "16", "17", "18", "19"];
    assert ids[20..21] == ["20"];
    WalkFollowsSlices(ids, Some("name"), 0);
    WalkFollowsSlices(ids, Some("name"), 1);
    WalkFollowsSlices(ids, Some("name"), 2);
    WalkFollowsSlices(ids, Some("name"), 3);
  }
}
