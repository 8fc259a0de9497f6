/**
 * The saving half of the product service: a batch of products is sent as one bulk
 * request, and the ids in the bulk response are written back onto the products by
 * position. The bulk call is a parameter: a function from the operations to the
 * per-item results or a failure.
 */
module BulkSave {
  import opened Wrappers
  import opened PagedSearch

  /** The document a product is indexed as, taken when the request is built. */
  datatype ProductDoc = ProductDoc(id: Option<string>, name: string, description: string, stockAvailable: int)

  /** A product; `save` updates its `id` field in place. */
  class Product {
    var id: Option<string>
    var name: string
    var description: string
    var stockAvailable: int

    constructor (id: Option<string>, name: string, description: string, stockAvailable: int)
      ensures this.id == id && this.name == name && this.description == description
      ensures this.stockAvailable == stockAvailable
    {
      this.id := id;
      this.name := name;
      this.description := description;
      this.stockAvailable := stockAvailable;
    }

    function Doc(): ProductDoc
      reads this
    {
      ProductDoc(id, name, description, stockAvailable)
    }
  }

  /** One index operation of a bulk request: with the product's own id, or leaving the id to the backend. */
  datatype IndexOp = IndexWithId(id: string, document: ProductDoc) | IndexAutoId(document: ProductDoc)

  /** One entry of the bulk response; the id the backend reports may be absent. */
  datatype BulkItem = BulkItem(id: Option<string>)

  /** How `save` can fail: the bulk call itself, or a response with fewer items than products. */
  datatype SaveError = BulkFailed(cause: BackendError) | ResponseTooShort(index: nat)

  /** The bulk call, seen as a function of the operations sent. */
  type BulkBackend = seq<IndexOp> -> Result<seq<BulkItem>, BackendError>

  function Min(a: int, b: int): int {
    if a <= b then a else b
  }

  /** The operation for one document: it names the document's id exactly when it has one. */
  function OperationFor(doc: ProductDoc): (op: IndexOp)
    ensures op.document == doc
    ensures op.IndexWithId? <==> doc.id.Some?
    ensures op.IndexWithId? ==> doc.id == Some(op.id)
  {
    if doc.id.Some? then IndexWithId(doc.id.value, doc) else IndexAutoId(doc)
  }

  /** The operations of the bulk request for `products`, one per product, in list order. */
  function Operations(products: seq<Product>): (ops: seq<IndexOp>)
    reads products
    ensures |ops| == |products|
    ensures forall i :: 0 <= i < |products| ==> ops[i] == OperationFor(products[i].Doc())
  {
    if products == [] then [] else [OperationFor(products[0].Doc())] + Operations(products[1..])
  }

  /** The builder loop: one operation per product, appended in list order. */
  method BuildOperations(products: seq<Product>) returns (ops: seq<IndexOp>)
    ensures ops == Operations(products)
  {
    ops := [];
    for i := 0 to |products|
      invariant |ops| == i
      invariant forall j :: 0 <= j < i ==> ops[j] == OperationFor(products[j].Doc())
    {
      ops := ops + [OperationFor(products[i].Doc())];
    }
  }

  /**
   * The id object `p` holds after the first `n` positional writes `products[i].id := items[i].id`,
   * given that it held `before`: a product listed twice keeps the id of its last position.
   */
  function IdAfterWrites(products: seq<Product>, items: seq<BulkItem>, p: Product, n: nat, before: Option<string>): Option<string>
    requires n <= |products| && n <= |items|
  {
    if n == 0 then before
    else if products[n - 1] == p then items[n - 1].id
    else IdAfterWrites(products, items, p, n - 1, before)
  }

  /** The write-back loop: copies the i-th response id onto the i-th product; a short response throws at its length. */
  method WriteBackIds(products: seq<Product>, items: seq<BulkItem>) returns (r: Outcome<SaveError>)
    modifies products
    ensures r == if |items| < |products| then Fail(ResponseTooShort(|items|)) else Pass
    ensures forall p :: p in products ==>
      p.id == IdAfterWrites(products, items, p, Min(|products|, |items|), old(p.id))
    ensures forall p :: p in products ==>
      p.name == old(p.name) && p.description == old(p.description) && p.stockAvailable == old(p.stockAvailable)
  {
    var size := |products|;
    var i := 0;
    while i < size
      invariant 0 <= i <= size && i <= |items|
      invariant forall p :: p in products ==> p.id == IdAfterWrites(products, items, p, i, old(p.id))
      invariant forall p :: p in products ==>
        p.name == old(p.name) && p.description == old(p.description) && p.stockAvailable == old(p.stockAvailable)
    {
      if i >= |items| {
        return Fail(ResponseTooShort(i));
      }
      products[i].id := items[i].id;
      i := i + 1;
    }
    return Pass;
  }

  /** `save(List)`: one bulk request for all products, then the positional id write-back. */
  method Save(products: seq<Product>, bulk: BulkBackend) returns (r: Outcome<SaveError>)
    modifies products
    ensures match bulk(old(Operations(products)))
      case Err(e) => r == Fail(BulkFailed(e)) && forall p :: p in products ==> p.id == old(p.id)
      case Ok(items) =>
        && r == (if |items| < |products| then Fail(ResponseTooShort(|items|)) else Pass)
        && forall p :: p in products ==>
             p.id == IdAfterWrites(products, items, p, Min(|products|, |items|), old(p.id))
    ensures forall p :: p in products ==>
      p.name == old(p.name) && p.description == old(p.description) && p.stockAvailable == old(p.stockAvailable)
  {
    var ops := BuildOperations(products);
    var response := bulk(ops);
    match response
    case Err(e) =>
      r := Fail(BulkFailed(e));
    case Ok(items) =>
      r := WriteBackIds(products, items);
  }

  /** `save(Product)`: the save of the one-element list holding `product`. */
  method SaveOne(product: Product, bulk: BulkBackend) returns (r: Outcome<SaveError>)
    modifies product
    ensures match bulk([OperationFor(old(product.Doc()))])
      case Err(e) => r == Fail(BulkFailed(e)) && product.id == old(product.id)
      case Ok(items) =>
        if items == [] then r == Fail(ResponseTooShort(0)) && product.id == old(product.id)
        else r == Pass && product.id == items[0].id
    ensures product.name == old(product.name) && product.description == old(product.description)
    ensures product.stockAvailable == old(product.stockAvailable)
  {
    assert Operations([product]) == [OperationFor(product.Doc())];
    r := Save([product], bulk);
  }

  /** With no product listed twice, the i-th product ends with exactly the i-th response id. */
  lemma {:induction false} DistinctProductsGetPositionalIds(products: seq<Product>, items: seq<BulkItem>, k: nat, n: nat, before: Option<string>)
    requires n <= |products| && n <= |items| && k < n
    requires forall i, j :: 0 <= i < j < |products| ==> products[i] != products[j]
    ensures IdAfterWrites(products, items, products[k], n, before) == items[k].id
  {
    if k < n - 1 {
      DistinctProductsGetPositionalIds(products, items, k, n - 1, before);
    }
  }

  /** A product written at position `k` and at no later position below `n` ends with the `k`-th response id. */
  lemma {:induction false} LastWriteWins(products: seq<Product>, items: seq<BulkItem>, p: Product, k: nat, n: nat, before: Option<string>)
    requires n <= |products| && n <= |items| && k < n
    requires products[k] == p
    requires forall j :: k < j < n ==> products[j] != p
    ensures IdAfterWrites(products, items, p, n, before) == items[k].id
  {
    if k < n - 1 {
      assert products[n - 1] != p;
      LastWriteWins(products, items, p, k, n - 1, before);
    }
  }

  /** A product at no position below `n` keeps the id it had. */
  lemma {:induction false} UnwrittenKeepsId(products: seq<Product>, items: seq<BulkItem>, p: Product, n: nat, before: Option<string>)
    requires n <= |products| && n <= |items|
    requires forall j :: 0 <= j < n ==> products[j] != p
    ensures IdAfterWrites(products, items, p, n, before) == before
  {
    if n > 0 {
      assert products[n - 1] != p;
      UnwrittenKeepsId(products, items, p, n - 1, before);
    }
  }

  /** When the backend reports an id for every item, every written product ends with an id. */
  lemma {:induction false} WrittenProductsHaveIds(products: seq<Product>, items: seq<BulkItem>, p: Product, n: nat, before: Option<string>)
    requires n <= |products| && n <= |items|
    requires p in products[..n]
    requires forall j :: 0 <= j < n ==> items[j].id.Some?
    ensures IdAfterWrites(products, items, p, n, before).Some?
  {
    if products[n - 1] != p {
      assert p in products[..n - 1] by {
        var k :| 0 <= k < n && products[k] == p;
        assert k < n - 1;
        assert products[..n - 1][k] == p;
      }
      WrittenProductsHaveIds(products, items, p, n - 1, before);
    }
  }
}
