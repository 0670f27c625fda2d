/**
 * The product endpoints: the filtered, paginated listing, and the create,
 * read, partial update, delete and bulk delete of single rows, with the
 * webhooks each change announces.
 */
module Products {
  import opened Wrappers
  import opened Text
  import opened Models
  import opened Schemas
  import opened Store
  import opened WebhookService

  /** `page_size` may not exceed 100. */
  const PAGE_SIZE_MAX: int := 100

  /** The query parameters' defaults: the first page, 50 items. */
  const DEFAULT_PAGE: int := 1
  const DEFAULT_PAGE_SIZE: int := 50

  /** The reply to a request whose parameters or body fail validation. */
  const VALIDATION_ERROR := HttpError(422, "Unprocessable Entity")

  const PRODUCT_NOT_FOUND := HttpError(404, "Product not found")

  /** The refusal of a sku some other product already has, quoting the sku as sent. */
  function SkuTaken(sku: string): HttpError {
    HttpError(400, "Product with SKU '" + sku + "' already exists")
  }

  /** The ids in use. */
  function Ids(c: Catalog): set<nat> {
    set k | k in c.rows :: c.rows[k].id
  }

  /** The key of the row with id `id` (`filter(Product.id == id).first()`), if there is one. */
  function KeyOf(c: Catalog, id: int): (r: Option<string>)
    requires CatalogValid(c)
    ensures r.Some? <==> id in Ids(c)
    ensures r.Some? ==> r.value in c.rows && c.rows[r.value].id == id
  {
    if id in Ids(c) then
      var k :| k in c.rows && c.rows[k].id == id;
      Some(k)
    else None
  }

  /** The stored product with id `id`. */
  function ProductRow(c: Catalog, id: nat): (p: Product)
    requires CatalogValid(c) && id in Ids(c)
    ensures p.id == id && p.sku in c.rows && c.rows[p.sku] == p
  {
    c.rows[KeyOf(c, id).value]
  }

  /** Every row is the row its own id finds. */
  lemma RowById(c: Catalog, k: string)
    requires CatalogValid(c) && k in c.rows
    ensures c.rows[k].id in Ids(c) && ProductRow(c, c.rows[k].id) == c.rows[k]
  {
    assert c.rows[k].id in Ids(c);
  }

  /** The sku check of create and update: a stored product whose sku lower-cases to `sku`. */
  predicate SkuInUse(c: Catalog, sku: string) {
    exists k :: k in c.rows && Lower(c.rows[k].sku) == sku
  }

  /** Keys are their rows' lower-case skus, so the check is a key lookup. */
  lemma SkuInUseIsKey(c: Catalog, sku: string)
    requires CatalogValid(c)
    ensures SkuInUse(c, sku) <==> sku in c.rows && IsLower(sku)
  {
    if SkuInUse(c, sku) {
      var k :| k in c.rows && Lower(c.rows[k].sku) == sku;
      assert IsLower(k);
    }
    if sku in c.rows && IsLower(sku) {
      assert Lower(c.rows[sku].sku) == sku;
    }
  }

  // ---------------------------------------------------------------- listing

  /** The optional query-string filters of the listing. */
  datatype Filters = Filters(sku: Option<string>, name: Option<string>, active: Option<bool>, search: Option<string>)

  /** A string filter takes effect only when given and non-empty (`if sku:`). */
  predicate Given(s: Option<string>) {
    s.Some? && s.value != ""
  }

  /** The filters, all of which must hold. */
  predicate Matches(p: Product, f: Filters) {
    && (Given(f.sku) ==> Lower(p.sku) == Lower(f.sku.value))
    && (Given(f.name) ==> ContainsIgnoringCase(p.name, f.name.value))
    && (f.active.Some? ==> p.active == f.active.value)
    && (Given(f.search) ==> ContainsIgnoringCase(p.sku, f.search.value) || ContainsIgnoringCase(p.name, f.search.value))
  }

  /** The ids of the products the filters select. */
  function MatchIds(c: Catalog, f: Filters): (r: set<nat>)
    ensures r <= Ids(c)
  {
    set k | k in c.rows && Matches(c.rows[k], f) :: c.rows[k].id
  }

  /** The products with ids `ids`, in reverse order of the ids. */
  function Reversed(c: Catalog, ids: seq<nat>): (r: seq<Product>)
    requires CatalogValid(c)
    requires forall i :: 0 <= i < |ids| ==> ids[i] in Ids(c)
    ensures |r| == |ids|
    ensures forall i :: 0 <= i < |ids| ==> r[i] == ProductRow(c, ids[|ids| - 1 - i])
  {
    if ids == [] then [] else Reversed(c, ids[1..]) + [ProductRow(c, ids[0])]
  }

  /** Every id of the sequence finds its product in the reversed listing. */
  lemma {:induction false} ReversedContains(c: Catalog, ids: seq<nat>, id: nat)
    requires CatalogValid(c)
    requires forall i :: 0 <= i < |ids| ==> ids[i] in Ids(c)
    requires id in ids
    ensures id in Ids(c) && ProductRow(c, id) in Reversed(c, ids)
  {
    var j :| 0 <= j < |ids| && ids[j] == id;
    assert Reversed(c, ids)[|ids| - 1 - j] == ProductRow(c, id);
  }

  /** The filtered products, newest (largest id, latest `created_at`) first. */
  function Listing(c: Catalog, f: Filters): seq<Product>
    requires CatalogValid(c)
  {
    Reversed(c, Ascending(MatchIds(c, f)))
  }

  /** The listing holds only stored products that pass the filters, strictly newest first. */
  lemma {:induction false} ListingSound(c: Catalog, f: Filters)
    requires CatalogValid(c)
    ensures var l := Listing(c, f);
      && (forall i :: 0 <= i < |l| ==> l[i].sku in c.rows && c.rows[l[i].sku] == l[i] && Matches(l[i], f))
      && (forall i, j :: 0 <= i < j < |l| ==> l[i].id > l[j].id)
  {
    var ids := Ascending(MatchIds(c, f));
    AscendingSorted(MatchIds(c, f));
    var l := Listing(c, f);
    forall i | 0 <= i < |l|
      ensures l[i].sku in c.rows && c.rows[l[i].sku] == l[i] && Matches(l[i], f)
    {
      var id := ids[|ids| - 1 - i];
      assert id in MatchIds(c, f);
      var k :| k in c.rows && Matches(c.rows[k], f) && c.rows[k].id == id;
      assert c.rows[k] == l[i];
    }
  }

  /** Every stored product that passes the filters is listed. */
  lemma ListingComplete(c: Catalog, f: Filters, k: string)
    requires CatalogValid(c)
    requires k in c.rows && Matches(c.rows[k], f)
    ensures c.rows[k] in Listing(c, f)
  {
    var id := c.rows[k].id;
    var ids := Ascending(MatchIds(c, f));
    assert id in ids by {
      assert id in MatchIds(c, f);
      AscendingSorted(MatchIds(c, f));
    }
    ReversedContains(c, ids, id);
    RowById(c, k);
  }

  /** One page of the listing, as the endpoint returns it. */
  datatype ProductPage = ProductPage(items: seq<Product>, total: nat, page: int, pageSize: int, pages: int)

  /** `math.ceil(total / page_size)` for a non-empty result, 1 for an empty one. */
  function PageCount(total: nat, pageSize: int): int
    requires pageSize >= 1
  {
    if total > 0 then (total + pageSize - 1) / pageSize else 1
  }

  /** The page count is the least number of pages that hold every result, and at least 1. */
  lemma PageCountIsCeiling(total: nat, pageSize: int)
    requires pageSize >= 1
    ensures PageCount(total, pageSize) >= 1
    ensures total > 0 ==> (PageCount(total, pageSize) - 1) * pageSize < total <= PageCount(total, pageSize) * pageSize
  {
    if total > 0 {
      var n := total + pageSize - 1;
      var q := n / pageSize;
      assert q * pageSize <= n < q * pageSize + pageSize;
    }
  }

  /** The at most `size` elements of `s` that start at `offset` (`OFFSET ... LIMIT ...`). */
  function Window<T>(s: seq<T>, offset: nat, size: nat): (r: seq<T>)
    ensures |r| == (if offset >= |s| then 0 else if offset + size <= |s| then size else |s| - offset)
    ensures forall i :: 0 <= i < |r| ==> r[i] == s[offset + i]
  {
    if offset >= |s| then [] else s[offset..if offset + size <= |s| then offset + size else |s|]
  }

  /** `GET /api/products`: filter, count, order newest first, then cut out page `page`. */
  function ListProducts(c: Catalog, page: int, pageSize: int, f: Filters): (r: Result<ProductPage, HttpError>)
    requires CatalogValid(c)
    ensures r.Err? <==> page < 1 || pageSize < 1 || pageSize > PAGE_SIZE_MAX
    ensures r.Err? ==> r.error == VALIDATION_ERROR
    ensures r.Ok? ==> r.value.page == page && r.value.pageSize == pageSize && |r.value.items| <= pageSize
  {
    if page < 1 || pageSize < 1 || pageSize > PAGE_SIZE_MAX then Err(VALIDATION_ERROR)
    else
      var all := Listing(c, f);
      Ok(ProductPage(Window(all, (page - 1) * pageSize, pageSize), |all|, page, pageSize, PageCount(|all|, pageSize)))
  }

  /**
   * A page is the run of the listing that starts `(page - 1) * page_size` in;
   * `total` counts the whole listing, not the page.
   */
  lemma ListPageIsWindow(c: Catalog, page: int, pageSize: int, f: Filters)
    requires CatalogValid(c)
    requires 1 <= page && 1 <= pageSize <= PAGE_SIZE_MAX
    ensures ListProducts(c, page, pageSize, f).Ok?
    ensures var all := Listing(c, f);
      var r := ListProducts(c, page, pageSize, f).value;
      var offset: nat := (page - 1) * pageSize;
      && r.total == |all|
      && |r.items| == (if offset >= |all| then 0 else if offset + pageSize <= |all| then pageSize else |all| - offset)
      && (forall i :: 0 <= i < |r.items| ==> r.items[i] == all[offset + i])
  {
  }

  /** Result `n` lies on page `n / page_size + 1`, at position `n % page_size`, and that page exists. */
  lemma PageOfIndex(n: nat, pageSize: int, total: nat)
    requires 1 <= pageSize && n < total
    ensures var offset := (n / pageSize + 1 - 1) * pageSize;
      offset + n % pageSize == n && n % pageSize < pageSize && n / pageSize + 1 <= PageCount(total, pageSize)
  {
    PageCountIsCeiling(total, pageSize);
    var q := n / pageSize;
    assert q * pageSize + n % pageSize == n;
    var pages := PageCount(total, pageSize);
    assert q * pageSize < pages * pageSize;
    assert (pages - q) * pageSize == pages * pageSize - q * pageSize;
    assert (pages - q) * pageSize > 0;
  }

  /** The `n`-th result of the listing is item `n % page_size` of page `n / page_size + 1`, whatever the page size. */
  lemma EveryResultIsOnItsPage(c: Catalog, pageSize: int, f: Filters, n: nat)
    requires CatalogValid(c)
    requires 1 <= pageSize <= PAGE_SIZE_MAX
    requires n < |Listing(c, f)|
    ensures var r := ListProducts(c, n / pageSize + 1, pageSize, f).value;
      n % pageSize < |r.items| && r.items[n % pageSize] == Listing(c, f)[n]
      && n / pageSize + 1 <= r.pages
  {
    PageOfIndex(n, pageSize, |Listing(c, f)|);
    ListPageIsWindow(c, n / pageSize + 1, pageSize, f);
  }

  /** `GET /api/products` with `page` and `page_size` possibly omitted from the query string. */
  function ListProductsQuery(c: Catalog, page: Option<int>, pageSize: Option<int>, f: Filters): (r: Result<ProductPage, HttpError>)
    requires CatalogValid(c)
    ensures page.None? && pageSize.None? ==> r.Ok? && r.value.page == 1 && r.value.pageSize == 50
  {
    ListProducts(c, page.GetOr(DEFAULT_PAGE), pageSize.GetOr(DEFAULT_PAGE_SIZE), f)
  }

  /** With neither parameter given, the reply is the 50 newest matching products, or all of them when fewer match. */
  lemma DefaultQueryListsNewestFifty(c: Catalog, f: Filters)
    requires CatalogValid(c)
    ensures ListProductsQuery(c, None, None, f).Ok?
    ensures var all := Listing(c, f);
      var r := ListProductsQuery(c, None, None, f).value;
      && r.total == |all|
      && |r.items| == (if |all| <= 50 then |all| else 50)
      && (forall i :: 0 <= i < |r.items| ==> r.items[i] == all[i])
  {
    ListPageIsWindow(c, DEFAULT_PAGE, DEFAULT_PAGE_SIZE, f);
  }

  /** Absent or empty string filters and no `active` filter list every stored product. */
  lemma NoFiltersListEverything(c: Catalog, f: Filters, k: string)
    requires CatalogValid(c)
    requires !Given(f.sku) && !Given(f.name) && f.active.None? && !Given(f.search)
    requires k in c.rows
    ensures c.rows[k] in Listing(c, f)
  {
    ListingComplete(c, f, k);
  }

  // ---------------------------------------------------------------- reading

  /** `GET /api/products/{id}`. */
  function GetProduct(c: Catalog, id: int): (r: Result<Product, HttpError>)
    requires CatalogValid(c)
    ensures r.Err? <==> id !in Ids(c)
    ensures r.Err? ==> r.error == PRODUCT_NOT_FOUND
    ensures r.Ok? ==> r.value.id == id && r.value.sku in c.rows && c.rows[r.value.sku] == r.value
  {
    match KeyOf(c, id)
    case None => Err(PRODUCT_NOT_FOUND)
    case Some(k) => Ok(c.rows[k])
  }

  // ---------------------------------------------------------------- creating

  /** The row an accepted create inserts. */
  function NewProduct(c: Catalog, body: ProductCreate): Product {
    Product(c.nextId, Lower(Trim(body.sku)), body.name, body.description, body.active)
  }

  /**
   * `create_product` as written: the duplicate check compares stored skus with
   * `lower(sku)`, but the row is inserted with `lower(strip(sku))`. When only
   * the stripped form clashes, the insert breaks the unique index and the
   * request ends in an unhandled error; the serial value the insert drew is
   * spent all the same.
   */
  function CreateOutcomeAsWritten(c: Catalog, body: ProductCreate): (Result<Product, HttpError>, Catalog) {
    if !ValidProductCreate(body) then (Err(VALIDATION_ERROR), c)
    else if SkuInUse(c, Lower(body.sku)) then (Err(SkuTaken(body.sku)), c)
    else if Lower(Trim(body.sku)) in c.rows then (Err(INTERNAL_SERVER_ERROR), c.(nextId := c.nextId + 1))
    else
      var p := NewProduct(c, body);
      (Ok(p), Catalog(c.rows[p.sku := p], c.nextId + 1))
  }

  /** `create_product` as evidently intended: the duplicate check uses the sku that is stored. */
  function CreateOutcome(c: Catalog, body: ProductCreate): (Result<Product, HttpError>, Catalog) {
    if !ValidProductCreate(body) then (Err(VALIDATION_ERROR), c)
    else if SkuInUse(c, Lower(Trim(body.sku))) then (Err(SkuTaken(body.sku)), c)
    else
      var p := NewProduct(c, body);
      (Ok(p), Catalog(c.rows[p.sku := p], c.nextId + 1))
  }

  /** The stored sku is `lower(strip(sku))`, which is lower case and no longer than the sku sent. */
  lemma NewSkuShape(sku: string)
    ensures IsLower(Lower(Trim(sku))) && |Lower(Trim(sku))| <= |sku|
  {
    LowerIsLower(Trim(sku));
  }

  /**
   * A create is refused with 400 exactly when some stored sku equals the new
   * one ignoring case; otherwise it adds one product, with a fresh id, the
   * normalised sku and the body's other fields, and changes no other row.
   */
  lemma CreateOutcomeSpec(c: Catalog, body: ProductCreate)
    requires CatalogValid(c)
    ensures var (r, c') := CreateOutcome(c, body);
      && CatalogValid(c')
      && (r.Err? ==> c' == c)
      && (r == Err(SkuTaken(body.sku)) <==> ValidProductCreate(body) && SkuInUse(c, Lower(Trim(body.sku))))
      && (r.Ok? ==>
            && r.value.sku == Lower(Trim(body.sku)) && r.value.name == body.name
            && r.value.description == body.description && r.value.active == body.active
            && r.value.id !in Ids(c) && Ids(c') == Ids(c) + {r.value.id}
            && c'.rows == c.rows[r.value.sku := r.value] && r.value.sku !in c.rows
            && |c'.rows| == |c.rows| + 1)
  {
    var sku := Lower(Trim(body.sku));
    NewSkuShape(body.sku);
    SkuInUseIsKey(c, sku);
    if ValidProductCreate(body) && sku !in c.rows {
      InsertNew(c, NewProduct(c, body));
    }
  }

  /** Inserting a product with a fresh lower-case key and the next id keeps the constraints and adds one id. */
  lemma InsertNew(c: Catalog, p: Product)
    requires CatalogValid(c)
    requires p.sku !in c.rows && IsLower(p.sku) && ProductFits(p) && p.id == c.nextId
    ensures var c' := Catalog(c.rows[p.sku := p], c.nextId + 1);
      CatalogValid(c') && Ids(c') == Ids(c) + {p.id} && p.id !in Ids(c)
  {
    var c' := Catalog(c.rows[p.sku := p], c.nextId + 1);
    assert c'.rows[p.sku] == p;
    forall id | id in Ids(c')
      ensures id in Ids(c) + {p.id}
    {
      var k :| k in c'.rows && c'.rows[k].id == id;
      if k != p.sku {
        assert k in c.rows;
      }
    }
    forall id | id in Ids(c)
      ensures id in Ids(c')
    {
      var k :| k in c.rows && c.rows[k].id == id;
      assert c'.rows[k] == c.rows[k];
    }
  }

  /** A created product can be read back by its id. */
  lemma CreateThenGet(c: Catalog, body: ProductCreate)
    requires CatalogValid(c)
    requires CreateOutcome(c, body).0.Ok?
    ensures CatalogValid(CreateOutcome(c, body).1)
    ensures GetProduct(CreateOutcome(c, body).1, CreateOutcome(c, body).0.value.id) == CreateOutcome(c, body).0
  {
    CreateOutcomeSpec(c, body);
    var (r, c') := CreateOutcome(c, body);
    RowById(c', r.value.sku);
  }

  /** When the sku has no surrounding white space the two checks are the same. */
  lemma CreateAsWrittenAgreesOnTrimmedSku(c: Catalog, body: ProductCreate)
    requires CatalogValid(c)
    requires Trim(body.sku) == body.sku
    ensures CreateOutcomeAsWritten(c, body) == CreateOutcome(c, body)
  {
    NewSkuShape(body.sku);
    SkuInUseIsKey(c, Lower(body.sku));
  }

  /**
   * A padded sku whose stripped form is taken: as written the check passes and
   * the insert fails with 500; as intended the request is refused with 400.
   */
  lemma PaddedDuplicateSkuAsWritten(c: Catalog, body: ProductCreate)
    requires CatalogValid(c) && ValidProductCreate(body)
    requires Lower(body.sku) !in c.rows && Lower(Trim(body.sku)) in c.rows
    ensures CreateOutcomeAsWritten(c, body) == (Err(INTERNAL_SERVER_ERROR), c.(nextId := c.nextId + 1))
    ensures CreateOutcome(c, body) == (Err(SkuTaken(body.sku)), c)
  {
    SkuCheckMissesPadding(c, body.sku);
    PaddedCreateAsWritten(c, body);
    PaddedCreateCorrected(c, body);
  }

  lemma PaddedCreateAsWritten(c: Catalog, body: ProductCreate)
    requires ValidProductCreate(body) && !SkuInUse(c, Lower(body.sku)) && Lower(Trim(body.sku)) in c.rows
    ensures CreateOutcomeAsWritten(c, body).0 == Err(INTERNAL_SERVER_ERROR)
    ensures CreateOutcomeAsWritten(c, body).1.rows == c.rows && CreateOutcomeAsWritten(c, body).1.nextId == c.nextId + 1
  {
  }

  lemma PaddedCreateCorrected(c: Catalog, body: ProductCreate)
    requires CatalogValid(c) && ValidProductCreate(body) && Lower(Trim(body.sku)) in c.rows
    ensures CreateOutcome(c, body) == (Err(SkuTaken(body.sku)), c)
  {
    SkuCheckCatchesStored(c, body.sku);
  }

  /** The as-written check does not see a sku whose lower-cased form is not a key. */
  lemma SkuCheckMissesPadding(c: Catalog, sku: string)
    requires CatalogValid(c) && Lower(sku) !in c.rows
    ensures !SkuInUse(c, Lower(sku))
  {
    SkuInUseIsKey(c, Lower(sku));
  }

  /** The corrected check sees a stored sku whose stripped, lower-cased form is a key. */
  lemma SkuCheckCatchesStored(c: Catalog, sku: string)
    requires CatalogValid(c) && Lower(Trim(sku)) in c.rows
    ensures SkuInUse(c, Lower(Trim(sku)))
  {
    NewSkuShape(sku);
    SkuInUseIsKey(c, Lower(Trim(sku)));
  }

  /** The case exists: a product `a` is stored and the body's sku is `" a"`. */
  lemma PaddedDuplicateSkuExample()
    ensures var c := Catalog(map["a" := Product(0, "a", "n", None, true)], 1);
      var body := ProductCreate(" a", "n", None, true);
      && CreateOutcomeAsWritten(c, body).0 == Err(INTERNAL_SERVER_ERROR)
      && CreateOutcome(c, body).0 == Err(SkuTaken(" a"))
  {
    var c := Catalog(map["a" := Product(0, "a", "n", None, true)], 1);
    var body := ProductCreate(" a", "n", None, true);
    PaddedSkuFacts();
    assert CatalogValid(c);
    PaddedDuplicateSkuAsWritten(c, body);
  }

  lemma PaddedSkuFacts()
    ensures Lower(" a") == " a" && Trim(" a") == "a" && Lower("a") == "a"
  {
    assert TrimLeft(" a") == "a" by { assert " a"[1..] == "a"; }
  }

  /** The outcome of a valid body: refused when its stored sku is a key, otherwise the insert. */
  lemma CreateStep(c: Catalog, body: ProductCreate)
    requires CatalogValid(c) && ValidProductCreate(body)
    ensures var sku := Lower(Trim(body.sku));
      var p := NewProduct(c, body);
      && (sku in c.rows ==> CreateOutcome(c, body) == (Err(SkuTaken(body.sku)), c))
      && (sku !in c.rows ==> CreateOutcome(c, body) == (Ok(p), Catalog(c.rows[sku := p], c.nextId + 1))
                             && CatalogValid(Catalog(c.rows[sku := p], c.nextId + 1)))
  {
    var sku := Lower(Trim(body.sku));
    NewSkuShape(body.sku);
    SkuInUseIsKey(c, sku);
    if sku !in c.rows {
      InsertNew(c, NewProduct(c, body));
    }
  }

  /** `POST /api/products`: insert the product, commit, then announce it. */
  method CreateProduct(db: Store, body: ProductCreate, reachable: string -> bool) returns (r: Result<Product, HttpError>)
    requires CatalogValid(db.catalog)
    modifies db`catalog, db`outbox
    ensures CatalogValid(db.catalog)
    ensures (r, db.catalog) == CreateOutcome(old(db.catalog), body)
    ensures db.outbox == old(db.outbox) + (if r.Ok? then Dispatch(db.webhooks, "product.created", ProductCreated(r.value), reachable) else [])
  {
    if !ValidProductCreate(body) {
      return Err(VALIDATION_ERROR);
    }
    var sku := Lower(Trim(body.sku));
    if sku in db.catalog.rows {
      CreateStep(db.catalog, body);
      return Err(SkuTaken(body.sku));
    }
    var p := NewProduct(db.catalog, body);
    CreateStep(db.catalog, body);
    db.catalog := Catalog(db.catalog.rows[sku := p], db.catalog.nextId + 1);
    TriggerWebhooks(db, "product.created", ProductCreated(p), reachable);
    return Ok(p);
  }

  // ---------------------------------------------------------------- updating

  /** The product with the body's non-None fields applied; a new sku is lower-cased but not stripped. */
  function Patched(p: Product, u: ProductUpdate): Product {
    Product(
      p.id,
      if u.sku.Some? then Lower(u.sku.value) else p.sku,
      u.name.GetOr(p.name),
      if u.description.Some? then u.description else p.description,
      u.active.GetOr(p.active))
  }

  /** The new sku belongs to a different product. */
  predicate SkuClash(c: Catalog, id: int, u: ProductUpdate) {
    u.sku.Some? && Lower(u.sku.value) in c.rows && c.rows[Lower(u.sku.value)].id != id
  }

  /** `PUT /api/products/{id}`: 404, 400 on a sku another product has, otherwise the patched row, re-keyed by its sku. */
  function UpdateOutcome(c: Catalog, id: int, u: ProductUpdate): (Result<Product, HttpError>, Catalog)
    requires CatalogValid(c)
  {
    if !ValidProductUpdate(u) then (Err(VALIDATION_ERROR), c)
    else match KeyOf(c, id)
      case None => (Err(PRODUCT_NOT_FOUND), c)
      case Some(k) =>
        if SkuClash(c, id, u) then (Err(SkuTaken(u.sku.value)), c)
        else
          var p := Patched(c.rows[k], u);
          (Ok(p), Catalog((c.rows - {k})[p.sku := p], c.nextId))
  }

  /**
   * An update is refused with 404 exactly for an unknown id and with 400
   * exactly when another product's sku equals the new one ignoring case;
   * otherwise it changes only the supplied fields of that one product.
   */
  lemma UpdateOutcomeSpec(c: Catalog, id: int, u: ProductUpdate)
    requires CatalogValid(c)
    ensures var (r, c') := UpdateOutcome(c, id, u);
      && CatalogValid(c')
      && (r.Err? ==> c' == c)
      && (r == Err(PRODUCT_NOT_FOUND) <==> ValidProductUpdate(u) && id !in Ids(c))
      && (r == Err(SkuTaken(u.sku.GetOr(""))) <==>
            ValidProductUpdate(u) && id in Ids(c) && u.sku.Some?
            && exists k :: k in c.rows && c.rows[k].id != id && Lower(c.rows[k].sku) == Lower(u.sku.value))
      && (r.Ok? ==>
            var before := ProductRow(c, id);
            && r.value.id == id
            && r.value.sku == (if u.sku.Some? then Lower(u.sku.value) else before.sku)
            && r.value.name == (if u.name.Some? then u.name.value else before.name)
            && r.value.description == (if u.description.Some? then u.description else before.description)
            && r.value.active == (if u.active.Some? then u.active.value else before.active)
            && c'.rows[r.value.sku] == r.value
            && Ids(c') == Ids(c)
            && (forall k :: k in c.rows && c.rows[k].id != id ==> k in c'.rows && c'.rows[k] == c.rows[k]))
  {
    var (r, c') := UpdateOutcome(c, id, u);
    if ValidProductUpdate(u) && id in Ids(c) {
      var k := KeyOf(c, id).value;
      if u.sku.Some? {
        var s := Lower(u.sku.value);
        LowerIsLower(u.sku.value);
        assert (exists k2 :: k2 in c.rows && c.rows[k2].id != id && Lower(c.rows[k2].sku) == s) <==> SkuClash(c, id, u) by {
          if SkuClash(c, id, u) {
            assert Lower(c.rows[s].sku) == s;
          }
          if exists k2 :: k2 in c.rows && c.rows[k2].id != id && Lower(c.rows[k2].sku) == s {
            var k2 :| k2 in c.rows && c.rows[k2].id != id && Lower(c.rows[k2].sku) == s;
            assert IsLower(k2);
          }
        }
      }
      if r.Ok? {
        UpdateKeepsValid(c, k, id, u);
      }
    }
  }

  /** The re-keyed catalog still satisfies the table's constraints and keeps the same ids. */
  lemma UpdateKeepsValid(c: Catalog, k: string, id: int, u: ProductUpdate)
    requires CatalogValid(c) && ValidProductUpdate(u)
    requires k in c.rows && c.rows[k].id == id && !SkuClash(c, id, u)
    ensures var p := Patched(c.rows[k], u);
      var c' := Catalog((c.rows - {k})[p.sku := p], c.nextId);
      CatalogValid(c') && Ids(c') == Ids(c)
      && (forall k2 :: k2 in c.rows && c.rows[k2].id != id ==> k2 in c'.rows && c'.rows[k2] == c.rows[k2])
  {
    var p := Patched(c.rows[k], u);
    var c' := Catalog((c.rows - {k})[p.sku := p], c.nextId);
    if u.sku.Some? {
      LowerIsLower(u.sku.value);
    }
    assert IsLower(p.sku);
    forall k2 | k2 in c.rows && c.rows[k2].id != id
      ensures k2 in c'.rows && c'.rows[k2] == c.rows[k2]
    {
      assert k2 != k;
      assert k2 != p.sku;
    }
    assert Ids(c') == Ids(c) by {
      forall x | x in Ids(c')
        ensures x in Ids(c)
      {
        var k2 :| k2 in c'.rows && c'.rows[k2].id == x;
        if k2 != p.sku {
          assert k2 in c.rows;
        }
      }
      forall x | x in Ids(c)
        ensures x in Ids(c')
      {
        var k2 :| k2 in c.rows && c.rows[k2].id == x;
        if k2 == k {
          assert c'.rows[p.sku].id == x;
        } else {
          assert k2 != p.sku;
          assert c'.rows[k2].id == x;
        }
      }
    }
  }

  /** A body with no fields returns the product and leaves the table as it was. */
  lemma EmptyUpdateChangesNothing(c: Catalog, id: int)
    requires CatalogValid(c) && id in Ids(c)
    ensures UpdateOutcome(c, id, ProductUpdate(None, None, None, None)) == (Ok(ProductRow(c, id)), c)
  {
    var k := KeyOf(c, id).value;
    var p := c.rows[k];
    assert Patched(p, ProductUpdate(None, None, None, None)) == p;
    assert (c.rows - {k})[k := p] == c.rows;
  }

  /** Sending the same update twice leaves the table as sending it once. */
  lemma UpdateIsIdempotent(c: Catalog, id: int, u: ProductUpdate)
    requires CatalogValid(c)
    requires UpdateOutcome(c, id, u).0.Ok?
    ensures CatalogValid(UpdateOutcome(c, id, u).1)
    ensures UpdateOutcome(UpdateOutcome(c, id, u).1, id, u) == UpdateOutcome(c, id, u)
  {
    var k := KeyOf(c, id).value;
    var p := Patched(c.rows[k], u);
    var c' := Catalog((c.rows - {k})[p.sku := p], c.nextId);
    assert UpdateOutcome(c, id, u) == (Ok(p), c');
    UpdateKeepsValid(c, k, id, u);
    assert c'.rows[p.sku] == p;
    var k' := KeyOf(c', id).value;
    assert k' == p.sku;
    if u.sku.Some? {
      LowerIsLower(u.sku.value);
    }
    assert Patched(p, u) == p;
    assert (c'.rows - {k'})[p.sku := p] == c'.rows;
  }

  /** `PUT /api/products/{id}`: apply the supplied fields, commit, then announce the new row. */
  method UpdateProduct(db: Store, id: int, u: ProductUpdate, reachable: string -> bool) returns (r: Result<Product, HttpError>)
    requires CatalogValid(db.catalog)
    modifies db`catalog, db`outbox
    ensures CatalogValid(db.catalog)
    ensures (r, db.catalog) == UpdateOutcome(old(db.catalog), id, u)
    ensures db.outbox == old(db.outbox) + (if r.Ok? then Dispatch(db.webhooks, "product.updated", ProductUpdated(r.value), reachable) else [])
  {
    UpdateOutcomeSpec(db.catalog, id, u);
    if !ValidProductUpdate(u) {
      return Err(VALIDATION_ERROR);
    }
    var key := KeyOf(db.catalog, id);
    if key.None? {
      return Err(PRODUCT_NOT_FOUND);
    }
    if SkuClash(db.catalog, id, u) {
      return Err(SkuTaken(u.sku.value));
    }
    var p := db.catalog.rows[key.value];
    if u.sku.Some? {
      p := p.(sku := Lower(u.sku.value));
    }
    if u.name.Some? {
      p := p.(name := u.name.value);
    }
    if u.description.Some? {
      p := p.(description := u.description);
    }
    if u.active.Some? {
      p := p.(active := u.active.value);
    }
    db.catalog := Catalog((db.catalog.rows - {key.value})[p.sku := p], db.catalog.nextId);
    TriggerWebhooks(db, "product.updated", ProductUpdated(p), reachable);
    return Ok(p);
  }

  // ---------------------------------------------------------------- deleting

  /** `DELETE /api/products/{id}`: 404, or the table without that product. */
  function DeleteOutcome(c: Catalog, id: int): (Option<HttpError>, Catalog)
    requires CatalogValid(c)
  {
    match KeyOf(c, id)
    case None => (Some(PRODUCT_NOT_FOUND), c)
    case Some(k) => (None, Catalog(c.rows - {k}, c.nextId))
  }

  /** What the delete announces: the id, sku and name the product had. */
  function DeletedPayload(p: Product): (d: Payload)
    ensures d.Event() == "product.deleted"
  {
    ProductDeleted(p.id, p.sku, p.name)
  }

  /** A delete removes exactly the product with that id, or answers 404 and removes nothing. */
  lemma DeleteRemovesExactlyThatProduct(c: Catalog, id: int)
    requires CatalogValid(c)
    ensures var (e, c') := DeleteOutcome(c, id);
      && CatalogValid(c')
      && (e.Some? <==> id !in Ids(c))
      && (e.Some? ==> e.value == PRODUCT_NOT_FOUND && c' == c)
      && (e.None? ==> Ids(c') == Ids(c) - {id} && |c'.rows| == |c.rows| - 1)
      && (forall k :: k in c.rows && c.rows[k].id != id ==> k in c'.rows && c'.rows[k] == c.rows[k])
  {
    if id in Ids(c) {
      RemoveKey(c, KeyOf(c, id).value);
    }
  }

  /** Removing one row keeps the table valid and removes exactly that row's id. */
  lemma RemoveKey(c: Catalog, k: string)
    requires CatalogValid(c) && k in c.rows
    ensures var c' := Catalog(c.rows - {k}, c.nextId);
      CatalogValid(c') && Ids(c') == Ids(c) - {c.rows[k].id} && |c'.rows| == |c.rows| - 1
  {
    var c' := Catalog(c.rows - {k}, c.nextId);
    var id := c.rows[k].id;
    forall x | x in Ids(c')
      ensures x in Ids(c) - {id}
    {
      var k2 :| k2 in c'.rows && c'.rows[k2].id == x;
      assert k2 != k;
    }
    forall x | x in Ids(c) - {id}
      ensures x in Ids(c')
    {
      var k2 :| k2 in c.rows && c.rows[k2].id == x;
      assert k2 != k && c'.rows[k2].id == x;
    }
  }

  /** Reading a deleted product answers 404. */
  lemma DeleteThenGet(c: Catalog, id: int)
    requires CatalogValid(c)
    ensures CatalogValid(DeleteOutcome(c, id).1)
    ensures GetProduct(DeleteOutcome(c, id).1, id) == Err(PRODUCT_NOT_FOUND)
  {
    DeleteRemovesExactlyThatProduct(c, id);
  }

  /** `DELETE /api/products/{id}`: remove the row, commit, then announce what it was. */
  method DeleteProduct(db: Store, id: int, reachable: string -> bool) returns (err: Option<HttpError>)
    requires CatalogValid(db.catalog)
    modifies db`catalog, db`outbox
    ensures CatalogValid(db.catalog)
    ensures (err, db.catalog) == DeleteOutcome(old(db.catalog), id)
    ensures err.Some? ==> db.outbox == old(db.outbox)
    ensures err.None? ==> id in Ids(old(db.catalog))
    ensures err.None? ==>
      db.outbox == old(db.outbox) + Dispatch(db.webhooks, "product.deleted", DeletedPayload(ProductRow(old(db.catalog), id)), reachable)
  {
    DeleteRemovesExactlyThatProduct(db.catalog, id);
    var key := KeyOf(db.catalog, id);
    if key.None? {
      return Some(PRODUCT_NOT_FOUND);
    }
    var p := db.catalog.rows[key.value];
    var payload := DeletedPayload(p);
    db.catalog := Catalog(db.catalog.rows - {key.value}, db.catalog.nextId);
    TriggerWebhooks(db, "product.deleted", payload, reachable);
    return None;
  }

  /** `DELETE /api/products/bulk/all`: empty the table and report how many rows it had. No webhook is sent. */
  method BulkDeleteProducts(db: Store) returns (deleted: nat)
    requires CatalogValid(db.catalog)
    modifies db`catalog
    ensures CatalogValid(db.catalog)
    ensures deleted == |old(db.catalog.rows)|
    ensures db.catalog == Catalog(map[], old(db.catalog.nextId))
  {
    deleted := |db.catalog.rows|;
    db.catalog := Catalog(map[], db.catalog.nextId);
  }

  /** After a bulk delete every listing is empty, on a single page. */
  lemma BulkDeleteEmptiesListing(nextId: nat, page: int, pageSize: int, f: Filters)
    requires 1 <= page && 1 <= pageSize <= PAGE_SIZE_MAX
    ensures CatalogValid(Catalog(map[], nextId))
    ensures var r := ListProducts(Catalog(map[], nextId), page, pageSize, f).value;
      r.total == 0 && r.items == [] && r.pages == 1
  {
    var c := Catalog(map[], nextId);
    assert MatchIds(c, f) == {};
  }
}
