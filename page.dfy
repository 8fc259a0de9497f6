/** The immutable result window `Page<T>` and its shared empty sentinel. */
module Pages {
  import opened Wrappers
  import opened JavaInt

  /**
   * One window of search results: the items in backend rank order, the query input
   * that produced them (`None` is Java's `null`), the offset of the window and the
   * requested window size. As a datatype value a page cannot change after it is built.
   */
  datatype Page<T> = Page(products: seq<T>, input: Option<string>, from: int32, size: int32)
  {
    /** The items of the page, in order; a sequence is a value, so callers cannot alter the page through it. */
    function Get(): seq<T> {
      products
    }

    function GetInput(): Option<string> {
      input
    }

    function GetFrom(): int32 {
      from
    }

    function GetSize(): int32 {
      size
    }
  }

  /** The shared sentinel that marks an exhausted walk: no items, no input, offset 0, size 0. */
  function Empty<T>(): Page<T> {
    Page([], None, 0, 0)
  }

  /** The getters return exactly what the constructor was given. */
  lemma ConstructorStoresArguments<T>(products: seq<T>, input: Option<string>, from: int32, size: int32)
    ensures var p := Page(products, input, from, size);
      p.Get() == products && p.GetInput() == input && p.GetFrom() == from && p.GetSize() == size
  {
  }

  /**
   * A page is the sentinel exactly when it has no items, no input, offset 0 and size 0;
   * hence any two results of `Empty()` are the same value.
   */
  lemma EmptyCharacterized<T>(p: Page<T>)
    ensures p == Empty() <==> (p.Get() == [] && p.GetInput() == None && p.GetFrom() == 0 && p.GetSize() == 0)
  {
  }
}
