/**
 * The product handlers: creation with its validation, the field-by-field
 * update, deletion, the cached product reads, and the filter, sort and
 * pagination of the product search.
 */
module ProductController {
  import opened Wrappers
  import opened Js
  import opened KeyValueCache
  import opened Documents
  import opened Errors
  import opened Features

  /** The request body of `createProduct` and `updateProduct`; every field may be missing. */
  datatype ProductBody = ProductBody(
    name: JsString,
    price: JsNumber,
    description: JsString,
    stock: JsNumber,
    category: JsString)

  const PhotoRequired := "Please provide a photo for this product."
  const FieldsRequired := "Please provide all required fields."
  const ProductCreated := "Product created successfully"
  const ProductUpdated := "Product updated successfully"
  const ProductDeleted := "Product deleted successfully"

  /** The invalidation after a product change: the product lists and the reports, with the given ids. */
  function ProductChange(productId: ProductIds): (r: ChangeSet)
    ensures DeletedKeys(r) == KeySet(ProductGroupKeys(productId)) + KeySet(AdminGroupKeys)
  {
    ChangeSet(true, false, false, true, None, None, productId)
  }

  // ===========================================================================
  // Creating

  /** The guard of `createProduct`: every field truthy, so a price or stock of 0 is refused. */
  predicate AllFieldsGiven(body: ProductBody)
  {
    StringTruthy(body.name) && NumberTruthy(body.price) && StringTruthy(body.description)
    && NumberTruthy(body.stock) && StringTruthy(body.category)
  }

  /** The product `Product.create` stores: the fields as given, the category lower-cased, the uploaded photo's path. */
  function CreatedProduct(body: ProductBody, photo: string): (p: Product)
    requires AllFieldsGiven(body)
    ensures p.category == ToLowerCase(body.category.value) && p.photo == photo
    ensures p.name == body.name.value && p.price == body.price.value && p.stock == body.stock.value
    ensures p.description == body.description.value
  {
    Product(body.name.value, body.price.value, body.description.value, body.stock.value,
      ToLowerCase(body.category.value), photo)
  }

  /**
   * `createProduct`. Without a photo it is a 400 before anything happens;
   * with a falsy field it is a 400 after removing the uploaded photo; otherwise
   * the product is created and the product and admin groups are invalidated
   * without a product id. `removed` is the file path deleted, if any;
   * `newId` is the fresh id the store assigns to the created product.
   */
  method CreateProduct(store: Store, cache: Cache, body: ProductBody, photo: Option<string>, newId: string)
    returns (outcome: Outcome, removed: Option<string>)
    requires newId !in store.products
    modifies store, cache
    ensures store.orders == old(store.orders)
    ensures photo.None? ==>
      && outcome == Fail(ErrorHandler(PhotoRequired, 400)) && removed.None?
      && store.products == old(store.products) && cache.entries == old(cache.entries)
    ensures photo.Some? && !AllFieldsGiven(body) ==>
      && outcome == Fail(ErrorHandler(FieldsRequired, 400)) && removed == photo
      && store.products == old(store.products) && cache.entries == old(cache.entries)
    ensures photo.Some? && AllFieldsGiven(body) ==>
      && store.products == old(store.products)[newId := CreatedProduct(body, photo.value)]
      && cache.entries == Invalidated(old(cache.entries), ProductChange(NoProductId))
      && outcome == Done(201, ProductCreated) && removed.None?
  {
    removed := None;
    if photo.None? {
      return Fail(ErrorHandler(PhotoRequired, 400)), removed;
    }
    if !AllFieldsGiven(body) {
      removed := photo;
      return Fail(ErrorHandler(FieldsRequired, 400)), removed;
    }
    store.products := store.products[newId := CreatedProduct(body, photo.value)];
    InvalidateCache(cache, ProductChange(NoProductId));
    outcome := Done(201, ProductCreated);
  }

  /** A created product's category has no upper-case letter left, and lower-casing it again changes nothing. */
  lemma CreatedCategoryIsLowerCase(body: ProductBody, photo: string)
    requires AllFieldsGiven(body)
    ensures forall i :: 0 <= i < |CreatedProduct(body, photo).category| ==> !('A' <= CreatedProduct(body, photo).category[i] <= 'Z')
    ensures ToLowerCase(CreatedProduct(body, photo).category) == CreatedProduct(body, photo).category
  {
    LowerCaseNormal(body.category.value);
  }

  /** A price or stock of 0 counts as missing, so such a product can never be created. */
  lemma ZeroPriceOrStockRefused(body: ProductBody)
    requires body.price == Some(0) || body.stock == Some(0)
    ensures !AllFieldsGiven(body)
  {
  }

  // ===========================================================================
  // Updating

  /**
   * The product after `updateProduct`: a new photo replaces the old one, and
   * each field is overwritten only when its new value is truthy. The category
   * is taken as given, not lower-cased.
   */
  function Merged(p: Product, body: ProductBody, photo: Option<string>): Product
  {
    Product(
      if StringTruthy(body.name) then body.name.value else p.name,
      if NumberTruthy(body.price) then body.price.value else p.price,
      if StringTruthy(body.description) then body.description.value else p.description,
      if NumberTruthy(body.stock) then body.stock.value else p.stock,
      if StringTruthy(body.category) then body.category.value else p.category,
      if photo.Some? then photo.value else p.photo)
  }

  /**
   * `updateProduct`. A missing product is a 404 with nothing changed;
   * otherwise the old photo is removed when a new one is uploaded, the truthy
   * fields are assigned one by one, the product is saved, and the product
   * group (with this id) and the admin group are invalidated.
   */
  method UpdateProduct(store: Store, cache: Cache, id: string, body: ProductBody, photo: Option<string>)
    returns (outcome: Outcome, removed: Option<string>)
    modifies store, cache
    ensures store.orders == old(store.orders)
    ensures id !in old(store.products) ==>
      && outcome == Fail(ErrorHandler(ProductNotFound, 404)) && removed.None?
      && store.products == old(store.products) && cache.entries == old(cache.entries)
    ensures id in old(store.products) ==>
      var p := old(store.products[id]);
      && store.products == old(store.products)[id := Merged(p, body, photo)]
      && removed == (if photo.Some? then Some(p.photo) else None)
      && cache.entries == Invalidated(old(cache.entries), ProductChange(OneProductId(id)))
      && outcome == Done(200, ProductUpdated)
  {
    removed := None;
    if id !in store.products {
      return Fail(ErrorHandler(ProductNotFound, 404)), removed;
    }
    var product := store.products[id];
    if photo.Some? {
      removed := Some(product.photo);
      product := product.(photo := photo.value);
    }
    if StringTruthy(body.name) {
      product := product.(name := body.name.value);
    }
    if NumberTruthy(body.price) {
      product := product.(price := body.price.value);
    }
    if NumberTruthy(body.stock) {
      product := product.(stock := body.stock.value);
    }
    if StringTruthy(body.category) {
      product := product.(category := body.category.value);
    }
    if StringTruthy(body.description) {
      product := product.(description := body.description.value);
    }
    store.products := store.products[id := product];
    InvalidateCache(cache, ProductChange(OneProductId(id)));
    outcome := Done(200, ProductUpdated);
  }

  /** An update with an empty body and no photo leaves the product as it was. */
  lemma EmptyUpdateIsIdentity(p: Product)
    ensures Merged(p, ProductBody(None, None, None, None, None), None) == p
  {
  }

  /** Applying the same update twice gives the same product as applying it once. */
  lemma UpdateIdempotent(p: Product, body: ProductBody, photo: Option<string>)
    ensures Merged(Merged(p, body, photo), body, photo) == Merged(p, body, photo)
  {
  }

  /** Stock cannot be set to 0 by an update: a 0 counts as missing and the old stock stays. */
  lemma UpdateCannotZeroStock(p: Product, body: ProductBody, photo: Option<string>)
    requires body.stock == Some(0)
    ensures Merged(p, body, photo).stock == p.stock
  {
  }

  /**
   * An update giving every field and a photo yields exactly the product a
   * create with the same request would, except that the category keeps its
   * case.
   */
  lemma FullUpdateIsCreateWithoutLowerCase(p: Product, body: ProductBody, photo: string)
    requires AllFieldsGiven(body)
    ensures Merged(p, body, Some(photo)) == CreatedProduct(body, photo).(category := body.category.value)
  {
  }

  /** The same category text is stored lower-cased by a create but as given by an update. */
  lemma CategoryCaseDependsOnHandler(p: Product)
    ensures CreatedProduct(ProductBody(Some("Pen"), Some(5), Some("Blue"), Some(3), Some("Books")), "a.png").category == "books"
    ensures Merged(p, ProductBody(None, None, None, None, Some("Books")), None).category == "Books"
  {
    var lowered := ToLowerCase("Books");
    assert lowered[0] == 'b';
    assert lowered == "books";
  }

  // ===========================================================================
  // Deleting

  /**
   * `deleteProduct`. A missing product is a 404 with nothing changed;
   * otherwise its photo is removed, it is deleted, and the product group
   * (with this id) and the admin group are invalidated.
   */
  method DeleteProduct(store: Store, cache: Cache, id: string) returns (outcome: Outcome, removed: Option<string>)
    modifies store, cache
    ensures store.orders == old(store.orders)
    ensures id !in old(store.products) ==>
      && outcome == Fail(ErrorHandler(ProductNotFound, 404)) && removed.None?
      && store.products == old(store.products) && cache.entries == old(cache.entries)
    ensures id in old(store.products) ==>
      && store.products == old(store.products) - {id}
      && removed == Some(old(store.products[id]).photo)
      && cache.entries == Invalidated(old(cache.entries), ProductChange(OneProductId(id)))
      && outcome == Done(200, ProductDeleted)
  {
    if id !in store.products {
      return Fail(ErrorHandler(ProductNotFound, 404)), None;
    }
    removed := Some(store.products[id].photo);
    store.products := store.products - {id};
    InvalidateCache(cache, ProductChange(OneProductId(id)));
    outcome := Done(200, ProductDeleted);
  }

  /**
   * A change to product `id` removes exactly the three product lists, its
   * own `product-<id>` entry and the four reports; the cached copy of every
   * other product stays.
   */
  lemma ProductChangeMatchesReads(entries: map<string, string>, id: string, key: string)
    ensures key in entries && key !in Invalidated(entries, ProductChange(OneProductId(id))) ==>
      key in FixedProductKeys || key == ProductKey(id) || key in AdminGroupKeys
    ensures key in FixedProductKeys || key == ProductKey(id) || key in AdminGroupKeys ==>
      key !in Invalidated(entries, ProductChange(OneProductId(id)))
    ensures forall other :: other != id && ProductKey(other) in entries ==>
      ProductKey(other) in Invalidated(entries, ProductChange(OneProductId(id)))
  {
    InvalidatedExactly(entries, ProductChange(OneProductId(id)), key);
    forall other | other != id && ProductKey(other) in entries
      ensures ProductKey(other) in Invalidated(entries, ProductChange(OneProductId(id)))
    {
      if ProductKey(other) == ProductKey(id) {
        ProductKeyInjective(other, id);
      }
      assert ProductKey(other)[0] == 'p';
      InvalidatedExactly(entries, ProductChange(OneProductId(id)), ProductKey(other));
    }
  }

  // ===========================================================================
  // Cached reads

  /** The read-through shape of the product lists: a stored value is returned, otherwise the computed one is stored, even when empty. */
  method ReadThrough(cache: Cache, key: string, computed: string) returns (outcome: Outcome)
    modifies cache
    ensures key in old(cache.entries) ==>
      outcome == Done(200, old(cache.entries[key])) && cache.entries == old(cache.entries)
    ensures key !in old(cache.entries) ==>
      outcome == Done(200, computed) && cache.entries == old(cache.entries)[key := computed]
  {
    if cache.Has(key) {
      return Done(200, cache.Get(key).value);
    }
    cache.Set(key, computed);
    return Done(200, computed);
  }

  /** `getLatestProducts`: the five newest products, under `latestProducts`. */
  method GetLatestProducts(cache: Cache, found: seq<Product>, encode: seq<Product> -> string) returns (outcome: Outcome)
    modifies cache
    ensures LatestProductsKey in old(cache.entries) ==>
      outcome == Done(200, old(cache.entries[LatestProductsKey])) && cache.entries == old(cache.entries)
    ensures LatestProductsKey !in old(cache.entries) ==>
      outcome == Done(200, encode(found)) && cache.entries == old(cache.entries)[LatestProductsKey := encode(found)]
  {
    outcome := ReadThrough(cache, LatestProductsKey, encode(found));
  }

  /** `getAllCatergories`: the distinct categories, under `categories`. */
  method GetAllCategories(cache: Cache, found: seq<string>, encode: seq<string> -> string) returns (outcome: Outcome)
    modifies cache
    ensures CategoriesKey in old(cache.entries) ==>
      outcome == Done(200, old(cache.entries[CategoriesKey])) && cache.entries == old(cache.entries)
    ensures CategoriesKey !in old(cache.entries) ==>
      outcome == Done(200, encode(found)) && cache.entries == old(cache.entries)[CategoriesKey := encode(found)]
  {
    outcome := ReadThrough(cache, CategoriesKey, encode(found));
  }

  /** `getAdminProducts`: every product, under `adminProducts`. */
  method GetAdminProducts(cache: Cache, found: seq<Product>, encode: seq<Product> -> string) returns (outcome: Outcome)
    modifies cache
    ensures AdminProductsKey in old(cache.entries) ==>
      outcome == Done(200, old(cache.entries[AdminProductsKey])) && cache.entries == old(cache.entries)
    ensures AdminProductsKey !in old(cache.entries) ==>
      outcome == Done(200, encode(found)) && cache.entries == old(cache.entries)[AdminProductsKey := encode(found)]
  {
    outcome := ReadThrough(cache, AdminProductsKey, encode(found));
  }

  /** `getSingleProduct`: under `product-<id>`; a missing product is a 404 and nothing is stored. */
  method GetSingleProduct(cache: Cache, id: string, found: Option<Product>, encode: Product -> string) returns (outcome: Outcome)
    modifies cache
    ensures ProductKey(id) in old(cache.entries) ==>
      outcome == Done(200, old(cache.entries[ProductKey(id)])) && cache.entries == old(cache.entries)
    ensures ProductKey(id) !in old(cache.entries) && found.None? ==>
      outcome == Fail(ErrorHandler(ProductNotFound, 404)) && cache.entries == old(cache.entries)
    ensures ProductKey(id) !in old(cache.entries) && found.Some? ==>
      outcome == Done(200, encode(found.value)) && cache.entries == old(cache.entries)[ProductKey(id) := encode(found.value)]
  {
    if ProductKey(id) !in cache.entries && found.None? {
      return Fail(ErrorHandler(ProductNotFound, 404));
    }
    outcome := ReadThrough(cache, ProductKey(id), if found.Some? then encode(found.value) else "");
  }

  // ===========================================================================
  // Search

  /** The query string of `getAllProducts`. */
  datatype SearchQuery = SearchQuery(search: JsString, sort: JsString, category: JsString, price: JsString, page: JsString)

  /** A case-insensitive name pattern. */
  datatype NamePattern = NamePattern(regex: string, options: string)

  /** The filter handed to the store: each constraint is present or absent. */
  datatype BaseQuery = BaseQuery(name: Option<NamePattern>, price: Option<JsNumber>, category: Option<string>)

  /**
   * The filter for a query: a case-insensitive name pattern only for a truthy
   * search, a category only for a truthy category, a price cap
   * (`$lte: Number(price)`) only for a truthy price.
   */
  function BaseQueryOf(query: SearchQuery): (q: BaseQuery)
    ensures q.name.Some? <==> StringTruthy(query.search)
    ensures q.name.Some? ==> q.name.value == NamePattern(query.search.value, "i")
    ensures q.category.Some? <==> StringTruthy(query.category)
    ensures q.category.Some? ==> q.category.value == query.category.value
    ensures q.price.Some? <==> StringTruthy(query.price)
    ensures q.price.Some? ==> q.price.value == ToNumber(query.price)
  {
    BaseQuery(
      if StringTruthy(query.search) then Some(NamePattern(query.search.value, "i")) else None,
      if StringTruthy(query.price) then Some(ToNumber(query.price)) else None,
      if StringTruthy(query.category) then Some(query.category.value) else None)
  }

  /** The filter builder: assigns each constraint into an empty filter in turn. */
  method BuildBaseQuery(query: SearchQuery) returns (q: BaseQuery)
    ensures q == BaseQueryOf(query)
  {
    q := BaseQuery(None, None, None);
    if StringTruthy(query.search) {
      q := q.(name := Some(NamePattern(query.search.value, "i")));
    }
    if StringTruthy(query.category) {
      q := q.(category := Some(query.category.value));
    }
    if StringTruthy(query.price) {
      q := q.(price := Some(ToNumber(query.price)));
    }
  }

  /** `sort && { price: sort === "asc" ? 1 : -1 }`: no sort for a falsy value. */
  function SortOrder(sort: JsString): (r: Option<int>)
    ensures r.None? <==> !StringTruthy(sort)
    ensures r == Some(1) <==> sort == Some("asc")
    ensures r.Some? ==> r.value == 1 || r.value == -1
  {
    if !StringTruthy(sort) then None else if sort.value == "asc" then Some(1) else Some(-1)
  }

  /** Only the exact lower-case "asc" sorts ascending: "ASC" and "desc" both sort descending. */
  lemma SortIsCaseSensitive()
    ensures SortOrder(Some("ASC")) == Some(-1) && SortOrder(Some("desc")) == Some(-1)
  {
  }

  /** `Number(x) || fallback`: the number when it is neither 0 nor NaN, else the fallback. */
  function NumberOr(x: JsString, fallback: int): (r: int)
    requires fallback != 0
    ensures r != 0
    ensures NumberTruthy(ToNumber(x)) ==> r == ToNumber(x).value
    ensures !NumberTruthy(ToNumber(x)) ==> r == fallback
  {
    var n := ToNumber(x);
    if NumberTruthy(n) then n.value else fallback
  }

  const DefaultPageSize := 8

  /** The page asked for, 1 when missing or not a non-zero number. */
  function PageNumber(page: JsString): (r: int)
    ensures r != 0
    ensures !NumberTruthy(ToNumber(page)) ==> r == 1
  {
    NumberOr(page, 1)
  }

  /** The page size configured in the environment, 8 when missing or not a non-zero number. */
  function PageSize(configured: JsString): (r: int)
    ensures r != 0
    ensures !NumberTruthy(ToNumber(configured)) ==> r == DefaultPageSize
  {
    NumberOr(configured, DefaultPageSize)
  }

  /** A page written as a non-zero integer is taken as is; a missing, empty or zero page is page 1. */
  lemma PageNumberCases(n: int)
    ensures n != 0 ==> PageNumber(Some(IntString(n))) == n
    ensures PageNumber(None) == 1 && PageNumber(Some("")) == 1 && PageNumber(Some(IntString(0))) == 1
  {
    NumberOfIntString(n);
    NumberOfIntString(0);
  }

  /** `Math.ceil(count / limit)` on exact rationals. */
  function CeilDiv(count: nat, limit: int): (r: int)
    requires limit != 0
    ensures limit > 0 ==> (r - 1) * limit < count <= r * limit
    ensures limit < 0 ==> r * limit <= count < (r - 1) * limit
  {
    if limit > 0 then
      var q := (count + limit - 1) / limit;
      assert q * limit <= count + limit - 1 < q * limit + limit;
      q
    else
      var q := count / -limit;
      assert q * -limit <= count < q * -limit - limit;
      -q
  }

  /** The store query `getAllProducts` issues: filter, sort, and the page window. */
  datatype FindPlan = FindPlan(filter: BaseQuery, sort: Option<int>, skip: int, limit: int)

  /** The reply of `getAllProducts`. */
  datatype Listing = Listing(products: seq<Product>, totalPage: int, currentPage: int, totalProducts: nat)

  /**
   * `getAllProducts`: the plan for the page query, and the listing built from
   * its result `page` and the number of products matching the filter.
   */
  method GetAllProducts(query: SearchQuery, configuredLimit: JsString, page: seq<Product>, filteredCount: nat)
    returns (plan: FindPlan, listing: Listing)
    ensures plan.limit == PageSize(configuredLimit) && plan.limit != 0
    ensures plan.skip == (PageNumber(query.page) - 1) * plan.limit
    ensures plan.sort == SortOrder(query.sort)
    ensures plan.filter == BaseQueryOf(query)
    ensures listing == Listing(page, CeilDiv(filteredCount, plan.limit), PageNumber(query.page), filteredCount)
  {
    var current := PageNumber(query.page);
    var limit := PageSize(configuredLimit);
    var skip := (current - 1) * limit;
    var filter := BuildBaseQuery(query);
    plan := FindPlan(filter, SortOrder(query.sort), skip, limit);
    listing := Listing(page, CeilDiv(filteredCount, limit), current, filteredCount);
  }

  /**
   * With a positive page size, the pages 1..totalPage cover every matching
   * product exactly once: the i-th lies in page i / limit + 1, inside that
   * page's window.
   */
  lemma PagesCoverResults(count: nat, limit: int, i: nat)
    requires limit > 0 && i < count
    ensures 1 <= i / limit + 1 <= CeilDiv(count, limit)
    ensures (i / limit) * limit <= i < (i / limit) * limit + limit
  {
    var p := i / limit + 1;
    var total := CeilDiv(count, limit);
    assert (p - 1) * limit <= i;
    if p > total {
      MulMonotone(total, p - 1, limit);
    }
  }
}
