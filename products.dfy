/**
 * The product use case (usecase/product_usecase.go) over a product table.
 *
 * The table is a sequence of rows; the repository's queries are functions
 * of it and its writes are methods that replace it. uuid.Parse is the
 * predicate `isUuid` given to the use case; each repository call may fail
 * with a driver error given as a parameter.
 */
module Products {
  import opened Wrappers
  import opened Seqs

  /** The float64 price, carried as its bits and never computed with. */
  datatype Price = Price(bits: bv64)

  datatype Product = Product(id: string, name: string, sku: string, image: string, price: Price, description: string)

  datatype ProductError =
    | InvalidProductId
    | DuplicateSku
    | NoRows
    | Driver(id: nat, text: string)

  /** What err.Error() returns for each failure the product use case reports. */
  function ErrorText(e: ProductError): (t: string)
    ensures !e.Driver? ==> |t| > 0
    ensures e.Driver? ==> t == e.text
  {
    match e
    case InvalidProductId => "invalid product ID"
    case DuplicateSku => "product with this SKU already exists"
    case NoRows => "sql: no rows in result set"
    case Driver(_, text) => text
  }

  /** The three fixed failures have different messages, so a client can tell them apart. */
  lemma FixedErrorTextsDistinct(e1: ProductError, e2: ProductError)
    requires !e1.Driver? && !e2.Driver? && e1 != e2
    ensures ErrorText(e1) != ErrorText(e2)
  {
  }

  function Min(a: int, b: int): int
  {
    if a <= b then a else b
  }

  /**
   * A row as the listing query reads it back: the query does not select the
   * description, so the scanned product keeps an empty one.
   */
  function Listed(p: Product): (q: Product)
    ensures q.description == "" && q.(description := p.description) == p
  {
    p.(description := "")
  }

  /** The rows LIMIT `limit` OFFSET `offset` selects, as the listing query returns them. */
  function Page(products: seq<Product>, limit: nat, offset: nat): (r: seq<Product>)
    ensures |r| == (if offset >= |products| then 0 else Min(limit, |products| - offset))
    ensures forall i :: 0 <= i < |r| ==> r[i] == Listed(products[offset + i])
  {
    if offset >= |products| then []
    else
      var n := Min(limit, |products| - offset);
      seq(n, i requires 0 <= i < n => Listed(products[offset + i]))
  }

  /** The table after UPDATE ... WHERE id = p.id: every row with that id becomes `p`. */
  function ReplaceById(products: seq<Product>, p: Product): (r: seq<Product>)
    ensures |r| == |products|
    ensures forall i :: 0 <= i < |r| ==> r[i] == if products[i].id == p.id then p else products[i]
  {
    seq(|products|, i requires 0 <= i < |products| => if products[i].id == p.id then p else products[i])
  }

  /** The table after DELETE ... WHERE id = `id`: the other rows, in their order. */
  function RemoveById(products: seq<Product>, id: string): (r: seq<Product>)
    ensures |r| <= |products|
    ensures forall p :: p in r <==> p in products && p.id != id
    ensures forall p :: multiset(r)[p] == if p.id == id then 0 else multiset(products)[p]
  {
    if |products| == 0 then []
    else
      assert products == [products[0]] + products[1..];
      if products[0].id == id then RemoveById(products[1..], id)
      else [products[0]] + RemoveById(products[1..], id)
  }

  /** An UPDATE that matches no row changes nothing and reports no error. */
  lemma UpdateOfMissingIdChangesNothing(products: seq<Product>, p: Product)
    requires forall q :: q in products ==> q.id != p.id
    ensures ReplaceById(products, p) == products
  {
    assert forall i :: 0 <= i < |products| ==> products[i] in products;
  }

  class ProductRepository {
    var products: seq<Product>

    constructor(initial: seq<Product>)
      ensures products == initial
    {
      products := initial;
    }

    function GetProducts(limit: int, offset: int, fault: Option<ProductError>): (r: Result<seq<Product>, ProductError>)
      reads this
      ensures fault.Some? ==> r == Err(fault.value)
      ensures r.Err? <==> fault.Some? || limit < 0 || offset < 0
      ensures r.Ok? ==> |r.value| <= limit
      ensures r.Ok? ==> forall p :: p in r.value ==> p.description == "" && exists q :: q in products && p == Listed(q)
    {
      if fault.Some? then Err(fault.value)
      else if limit < 0 || offset < 0 then Err(Driver(0, "LIMIT and OFFSET must not be negative"))
      else Ok(Page(products, limit, offset))
    }

    function GetProductByID(id: string, fault: Option<ProductError>): (r: Result<Product, ProductError>)
      reads this
      ensures fault.Some? ==> r == Err(fault.value)
      ensures r.Ok? ==> r.value in products && r.value.id == id
      ensures fault.None? ==> (r == Err(NoRows) <==> forall p :: p in products ==> p.id != id)
      ensures fault.None? ==> r.Ok? || r == Err(NoRows)
    {
      if fault.Some? then Err(fault.value)
      else
        match FirstIndex(products, (p: Product) => p.id == id)
        case Some(i) => Ok(products[i])
        case None => Err(NoRows)
    }

    function GetProductBySKU(sku: string, fault: Option<ProductError>): (r: Result<Product, ProductError>)
      reads this
      ensures fault.Some? ==> r == Err(fault.value)
      ensures r.Ok? ==> r.value in products && r.value.sku == sku
      ensures fault.None? ==> (r == Err(NoRows) <==> forall p :: p in products ==> p.sku != sku)
      ensures fault.None? ==> r.Ok? || r == Err(NoRows)
    {
      if fault.Some? then Err(fault.value)
      else
        match FirstIndex(products, (p: Product) => p.sku == sku)
        case Some(i) => Ok(products[i])
        case None => Err(NoRows)
    }

    method CreateProduct(p: Product, fault: Option<ProductError>) returns (err: Option<ProductError>)
      modifies this
      ensures err == fault
      ensures products == if fault.Some? then old(products) else old(products) + [p]
    {
      if fault.Some? {
        return fault;
      }
      products := products + [p];
      return None;
    }

    method UpdateProduct(p: Product, fault: Option<ProductError>) returns (err: Option<ProductError>)
      modifies this
      ensures err == fault
      ensures products == if fault.Some? then old(products) else ReplaceById(old(products), p)
    {
      if fault.Some? {
        return fault;
      }
      products := ReplaceById(products, p);
      return None;
    }

    method DeleteProduct(id: string, fault: Option<ProductError>) returns (err: Option<ProductError>)
      modifies this
      ensures err == fault
      ensures products == if fault.Some? then old(products) else RemoveById(old(products), id)
    {
      if fault.Some? {
        return fault;
      }
      products := RemoveById(products, id);
      return None;
    }
  }

  class ProductUsecase {
    const repo: ProductRepository
    /** Whether uuid.Parse accepts a string. */
    const isUuid: string -> bool

    constructor(repo: ProductRepository, isUuid: string -> bool)
      ensures this.repo == repo && this.isUuid == isUuid
    {
      this.repo := repo;
      this.isUuid := isUuid;
    }

    /** Exactly the repository's page, or its error. */
    function GetProducts(limit: int, offset: int, fault: Option<ProductError>): (r: Result<seq<Product>, ProductError>)
      reads repo
      ensures fault.Some? ==> r == Err(fault.value)
      ensures r.Ok? ==> 0 <= limit && 0 <= offset && r.value == Page(repo.products, limit, offset)
      ensures r.Err? <==> (fault.Some? || limit < 0 || offset < 0)
    {
      repo.GetProducts(limit, offset, fault)
    }

    /** An id uuid.Parse rejects is refused without consulting the repository. */
    function GetProductByID(id: string, fault: Option<ProductError>): (r: Result<Product, ProductError>)
      reads repo
      ensures !isUuid(id) ==> r == Err(InvalidProductId) && ErrorText(r.error) == "invalid product ID"
      ensures isUuid(id) ==> r == repo.GetProductByID(id, fault)
    {
      if !isUuid(id) then Err(InvalidProductId) else repo.GetProductByID(id, fault)
    }

    /**
     * Refuses a product whose SKU the lookup finds on a row with a non-empty
     * id; otherwise (a failed lookup counts as "absent") stores it once
     * under the fresh id `newId`.
     */
    method CreateProduct(product: Product, newId: string, lookupFault: Option<ProductError>, insertFault: Option<ProductError>)
      returns (err: Option<ProductError>)
      modifies repo
      ensures var existing := old(repo.GetProductBySKU(product.sku, lookupFault));
        if existing.Ok? && existing.value.id != "" then
          err == Some(DuplicateSku) && ErrorText(err.value) == "product with this SKU already exists" &&
          repo.products == old(repo.products)
        else
          err == insertFault &&
          repo.products == if insertFault.Some? then old(repo.products) else old(repo.products) + [product.(id := newId)]
    {
      var existing := repo.GetProductBySKU(product.sku, lookupFault);
      if existing.Ok? && existing.value.id != "" {
        return Some(DuplicateSku);
      }
      var stored := product.(id := newId);
      err := repo.CreateProduct(stored, insertFault);
    }

    /** Refuses an id uuid.Parse rejects, leaving the table as it was; otherwise updates by id. */
    method UpdateProduct(product: Product, fault: Option<ProductError>) returns (err: Option<ProductError>)
      modifies repo
      ensures !isUuid(product.id) ==> err == Some(InvalidProductId) && repo.products == old(repo.products)
      ensures !isUuid(product.id) ==> ErrorText(err.value) == "invalid product ID"
      ensures isUuid(product.id) ==>
        err == fault &&
        repo.products == if fault.Some? then old(repo.products) else ReplaceById(old(repo.products), product)
    {
      if !isUuid(product.id) {
        return Some(InvalidProductId);
      }
      err := repo.UpdateProduct(product, fault);
    }

    /** Refuses an id uuid.Parse rejects, leaving the table as it was; otherwise deletes by id. */
    method DeleteProduct(id: string, fault: Option<ProductError>) returns (err: Option<ProductError>)
      modifies repo
      ensures !isUuid(id) ==> err == Some(InvalidProductId) && repo.products == old(repo.products)
      ensures !isUuid(id) ==> ErrorText(err.value) == "invalid product ID"
      ensures isUuid(id) ==>
        err == fault &&
        repo.products == if fault.Some? then old(repo.products) else RemoveById(old(repo.products), id)
    {
      if !isUuid(id) {
        return Some(InvalidProductId);
      }
      err := repo.DeleteProduct(id, fault);
    }
  }
}
