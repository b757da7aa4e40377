/**
 * The shared helpers behind the handlers: cache invalidation by change
 * descriptor, stock reduction for a placed order, and the month-over-month
 * percentage used by the dashboard.
 */
module Features {
  import opened Wrappers
  import opened Js
  import opened KeyValueCache
  import opened Documents
  import opened Errors

  // ===========================================================================
  // Cache keys

  const LatestProductsKey := "latestProducts"
  const CategoriesKey := "categories"
  const AdminProductsKey := "adminProducts"
  const AllOrdersKey := "all-orders"
  const AdminLineChartsKey := "admin-line-charts"
  const AdminBarChartsKey := "admin-bar-charts"
  const AdminPieChartsKey := "admin-pie-charts"
  const AdminStatsKey := "admin-stats"

  function ProductKey(id: string): string
  {
    "product-" + id
  }

  function MyOrdersKey(user: string): string
  {
    "my-orders-" + user
  }

  function OrderKey(id: string): string
  {
    "order-" + id
  }

  // ===========================================================================
  // Invalidation

  /** The `productId` of a change descriptor: absent, one id, or a list of ids. */
  datatype ProductIds = NoProductId | OneProductId(id: string) | ProductIdList(ids: seq<string>)

  /**
   * A change descriptor: which kinds of entity changed, and which ids.
   * The `user` flag is declared but never consulted.
   */
  datatype ChangeSet = ChangeSet(
    product: bool,
    user: bool,
    order: bool,
    admin: bool,
    userId: JsString,
    orderId: JsString,
    productId: ProductIds)

  /** `product-<id>` for each listed id, in list order. */
  function ProductIdKeys(ids: seq<string>): (keys: seq<string>)
    ensures |keys| == |ids|
    ensures forall i :: 0 <= i < |ids| ==> keys[i] == ProductKey(ids[i])
  {
    if ids == [] then [] else ProductIdKeys(ids[..|ids| - 1]) + [ProductKey(ids[|ids| - 1])]
  }

  const FixedProductKeys: seq<string> := [LatestProductsKey, CategoriesKey, AdminProductsKey]

  /** The keys the product group deletes. */
  function ProductGroupKeys(productId: ProductIds): seq<string>
  {
    match productId
    case NoProductId => FixedProductKeys
    case OneProductId(id) => FixedProductKeys + [ProductKey(id)]
    case ProductIdList(ids) => FixedProductKeys + ProductIdKeys(ids)
  }

  /** The keys the order group deletes; a missing id renders as "undefined". */
  function OrderGroupKeys(userId: JsString, orderId: JsString): seq<string>
  {
    [AllOrdersKey, MyOrdersKey(Segment(userId)), OrderKey(Segment(orderId))]
  }

  /** The keys the admin group deletes: the four dashboard reports. */
  const AdminGroupKeys: seq<string> := [AdminLineChartsKey, AdminBarChartsKey, AdminPieChartsKey, AdminStatsKey]

  function KeySet(keys: seq<string>): set<string>
  {
    set k | k in keys
  }

  /** Every key an invalidation with this descriptor deletes. */
  function DeletedKeys(change: ChangeSet): set<string>
  {
    (if change.product then KeySet(ProductGroupKeys(change.productId)) else {})
    + (if change.order then KeySet(OrderGroupKeys(change.userId, change.orderId)) else {})
    + (if change.admin then KeySet(AdminGroupKeys) else {})
  }

  /** The cache contents after an invalidation. */
  function Invalidated(entries: map<string, string>, change: ChangeSet): map<string, string>
  {
    entries - DeletedKeys(change)
  }

  /** `invalidateCache`: deletes the keys of each selected group and nothing else. */
  method InvalidateCache(cache: Cache, change: ChangeSet)
    modifies cache
    ensures cache.entries == Invalidated(old(cache.entries), change)
  {
    ghost var before := cache.entries;
    ghost var deleted: set<string> := {};
    if change.product {
      var productKeys := FixedProductKeys;
      match change.productId {
        case OneProductId(id) =>
          productKeys := productKeys + [ProductKey(id)];
        case ProductIdList(ids) =>
          var i := 0;
          while i < |ids|
            invariant 0 <= i <= |ids|
            invariant productKeys == FixedProductKeys + ProductIdKeys(ids[..i])
          {
            assert ids[..i + 1][..i] == ids[..i];
            productKeys := productKeys + [ProductKey(ids[i])];
            i := i + 1;
          }
          assert ids[..i] == ids;
        case NoProductId =>
      }
      cache.Del(productKeys);
      deleted := deleted + KeySet(productKeys);
    }
    if change.order {
      var orderKeys := [AllOrdersKey, MyOrdersKey(Segment(change.userId)), OrderKey(Segment(change.orderId))];
      cache.Del(orderKeys);
      deleted := deleted + KeySet(orderKeys);
    }
    if change.admin {
      cache.Del(AdminGroupKeys);
      deleted := deleted + KeySet(AdminGroupKeys);
    }
    assert deleted == DeletedKeys(change);
    assert cache.entries == before - deleted;
  }

  /** `product-a` and `product-b` are the same key only for the same id. */
  lemma ProductKeyInjective(a: string, b: string)
    requires ProductKey(a) == ProductKey(b)
    ensures a == b
  {
    assert a == ProductKey(a)[|"product-"|..];
    assert b == ProductKey(b)[|"product-"|..];
  }

  /** A key is among the product keys of a list exactly when it names a listed id. */
  lemma ProductIdKeysMembership(ids: seq<string>, key: string)
    ensures key in ProductIdKeys(ids) <==> exists id :: id in ids && key == ProductKey(id)
  {
    var keys := ProductIdKeys(ids);
    if key in keys {
      var i :| 0 <= i < |keys| && keys[i] == key;
      assert ids[i] in ids;
    }
    if exists id :: id in ids && key == ProductKey(id) {
      var id :| id in ids && key == ProductKey(id);
      var i :| 0 <= i < |ids| && ids[i] == id;
      assert keys[i] == key;
    }
  }

  /** Whether the descriptor's product ids name this key. */
  predicate NamesProduct(productId: ProductIds, key: string)
  {
    match productId
    case NoProductId => false
    case OneProductId(id) => key == ProductKey(id)
    case ProductIdList(ids) => exists id :: id in ids && key == ProductKey(id)
  }

  /**
   * Exactly which keys disappear: the three product lists and `product-<id>`
   * for each given id when `product` is set; `all-orders`, `my-orders-<user>`
   * and `order-<id>` when `order` is set; the four dashboard keys when
   * `admin` is set. Every other key keeps its value.
   */
  lemma InvalidatedExactly(entries: map<string, string>, change: ChangeSet, key: string)
    ensures key in DeletedKeys(change) <==>
      || (change.product && (key in {LatestProductsKey, CategoriesKey, AdminProductsKey} || NamesProduct(change.productId, key)))
      || (change.order && key in {AllOrdersKey, MyOrdersKey(Segment(change.userId)), OrderKey(Segment(change.orderId))})
      || (change.admin && key in {AdminLineChartsKey, AdminBarChartsKey, AdminPieChartsKey, AdminStatsKey})
    ensures key !in DeletedKeys(change) && key in entries ==>
      key in Invalidated(entries, change) && Invalidated(entries, change)[key] == entries[key]
    ensures key in DeletedKeys(change) ==> key !in Invalidated(entries, change)
  {
    if change.productId.ProductIdList? {
      ProductIdKeysMembership(change.productId.ids, key);
    }
  }

  /** With no group selected the cache is unchanged, and the `user` flag never matters. */
  lemma UnselectedGroupsChangeNothing(entries: map<string, string>, change: ChangeSet, user: bool)
    ensures !change.product && !change.order && !change.admin ==> Invalidated(entries, change) == entries
    ensures Invalidated(entries, change.(user := user)) == Invalidated(entries, change)
  {
  }

  /** Invalidating twice leaves the same cache as invalidating once. */
  lemma InvalidateIdempotent(entries: map<string, string>, change: ChangeSet)
    ensures Invalidated(Invalidated(entries, change), change) == Invalidated(entries, change)
  {
  }

  /** Missing ids delete the literal keys `my-orders-undefined` and `order-undefined`. */
  lemma MissingIdsDeleteUndefinedKeys(change: ChangeSet)
    requires change.order && change.userId.None? && change.orderId.None?
    ensures "my-orders-undefined" in DeletedKeys(change)
    ensures "order-undefined" in DeletedKeys(change)
  {
    var keys := OrderGroupKeys(change.userId, change.orderId);
    assert keys[1] == "my-orders-undefined" && keys[2] == "order-undefined";
  }

  // ===========================================================================
  // Stock reduction

  /** The summed quantity of the items that reference product `id`. */
  function QuantityFor(items: seq<OrderItem>, id: string): int
  {
    if items == [] then 0
    else QuantityFor(items[..|items| - 1], id) + (if items[|items| - 1].productId == id then items[|items| - 1].quantity else 0)
  }

  /** The products after decrementing, in turn, the stock of each item's product. */
  function Decremented(products: map<string, Product>, items: seq<OrderItem>): map<string, Product>
  {
    if items == [] then products
    else
      var before := Decremented(products, items[..|items| - 1]);
      var item := items[|items| - 1];
      if item.productId in before then
        before[item.productId := before[item.productId].(stock := before[item.productId].stock - item.quantity)]
      else before
  }

  /** The index of the first item whose product is not among `ids`, or the number of items. */
  function FirstMissing(ids: set<string>, items: seq<OrderItem>): (k: nat)
    ensures k <= |items|
    ensures forall i :: 0 <= i < k ==> items[i].productId in ids
    ensures k < |items| ==> items[k].productId !in ids
  {
    if items == [] then 0
    else if items[0].productId !in ids then 0
    else 1 + FirstMissing(ids, items[1..])
  }

  /**
   * After the decrements each product's stock is its old stock minus the
   * summed quantities of the items that reference it, with no floor at zero;
   * every other field and every other product is unchanged.
   */
  lemma {:induction false} DecrementedStock(products: map<string, Product>, items: seq<OrderItem>, id: string)
    ensures Decremented(products, items).Keys == products.Keys
    ensures id in products ==>
      Decremented(products, items)[id] == products[id].(stock := products[id].stock - QuantityFor(items, id))
  {
    if items != [] {
      DecrementedStock(products, items[..|items| - 1], id);
      var item := items[|items| - 1];
      if item.productId != id {
        DecrementedStock(products, items[..|items| - 1], item.productId);
      }
    }
  }

  /** A product no item references keeps its whole record. */
  lemma UnorderedProductUnchanged(products: map<string, Product>, items: seq<OrderItem>, id: string)
    requires id in products
    requires forall i :: 0 <= i < |items| ==> items[i].productId != id
    ensures id in Decremented(products, items) && Decremented(products, items)[id] == products[id]
  {
    DecrementedStock(products, items, id);
    QuantityForUnreferenced(items, id);
  }

  lemma {:induction false} QuantityForUnreferenced(items: seq<OrderItem>, id: string)
    requires forall i :: 0 <= i < |items| ==> items[i].productId != id
    ensures QuantityFor(items, id) == 0
  {
    if items != [] {
      QuantityForUnreferenced(items[..|items| - 1], id);
    }
  }

  /** The message of the error raised for an id that names no product. */
  const ProductNotFound := "Product not found"

  /**
   * `reduceStock`: for each item in order, look the product up and decrement
   * its stock. The first item whose product is missing raises "Product not
   * found"; the decrements already applied for the items before it remain.
   */
  method ReduceStock(store: Store, items: seq<OrderItem>) returns (failure: Option<JsError>)
    modifies store
    ensures var k := FirstMissing(old(store.products).Keys, items);
      && (failure.None? <==> k == |items|)
      && (failure.Some? ==> failure.value == PlainError(ProductNotFound))
      && store.products == Decremented(old(store.products), items[..k])
    ensures store.orders == old(store.orders)
  {
    ghost var initial := store.products;
    var i := 0;
    while i < |items|
      invariant 0 <= i <= |items|
      invariant forall j :: 0 <= j < i ==> items[j].productId in initial
      invariant store.products == Decremented(initial, items[..i])
      invariant store.products.Keys == initial.Keys
      invariant store.orders == old(store.orders)
    {
      var item := items[i];
      if item.productId !in store.products {
        assert FirstMissing(initial.Keys, items) == i by {
          FirstMissingAt(initial.Keys, items, i);
        }
        return Some(PlainError(ProductNotFound));
      }
      var product := store.products[item.productId];
      product := product.(stock := product.stock - item.quantity);
      store.products := store.products[item.productId := product];
      assert items[..i + 1][..i] == items[..i];
      i := i + 1;
    }
    assert items[..i] == items;
    FirstMissingAt(initial.Keys, items, |items|);
    return None;
  }

  /** FirstMissing is the first index whose product is missing. */
  lemma {:induction false} FirstMissingAt(ids: set<string>, items: seq<OrderItem>, k: nat)
    requires k <= |items|
    requires forall j :: 0 <= j < k ==> items[j].productId in ids
    requires k < |items| ==> items[k].productId !in ids
    ensures FirstMissing(ids, items) == k
  {
    if items != [] && k > 0 {
      FirstMissingAt(ids, items[1..], k - 1);
    }
  }

  /** Ordering more than is in stock still succeeds and drives stock negative. */
  lemma OversellGoesNegative(p: Product)
    requires p.stock == 10
    ensures var items := [OrderItem("x", 12, 1, "P1", "x.png")];
      "P1" in Decremented(map["P1" := p], items) && Decremented(map["P1" := p], items)["P1"].stock == -2
  {
    var items := [OrderItem("x", 12, 1, "P1", "x.png")];
    assert items[..0] == [];
  }

  // ===========================================================================
  // Percentages

  /**
   * `Math.round(part / whole * 100)` on exact rationals: the integer nearest
   * to 100·part/whole, halves rounded up.
   */
  function RoundedPercent(part: int, whole: int): (r: int)
    requires whole != 0
    ensures whole > 0 ==> (2 * r - 1) * whole <= 200 * part < (2 * r + 1) * whole
    ensures whole < 0 ==> (2 * r - 1) * whole >= 200 * part > (2 * r + 1) * whole
  {
    var num := if whole > 0 then 200 * part + whole else -200 * part - whole;
    var den := if whole > 0 then 2 * whole else -2 * whole;
    var q := num / den;
    assert q * den <= num < q * den + den;
    q
  }

  /** The rounding brackets determine the result: RoundedPercent is the only such integer. */
  lemma RoundedPercentUnique(part: int, whole: int, r: int)
    requires whole != 0
    requires whole > 0 ==> (2 * r - 1) * whole <= 200 * part < (2 * r + 1) * whole
    requires whole < 0 ==> (2 * r - 1) * whole >= 200 * part > (2 * r + 1) * whole
    ensures r == RoundedPercent(part, whole)
  {
    var q := RoundedPercent(part, whole);
    var w := if whole > 0 then whole else -whole;
    if r < q {
      MulMonotone(2 * r + 1, 2 * q - 1, w);
    } else if r > q {
      MulMonotone(2 * q + 1, 2 * r - 1, w);
    }
  }

  lemma MulMonotone(a: int, b: int, c: int)
    requires a <= b && c > 0
    ensures a * c <= b * c
  {
  }

  /**
   * `calculatePercentage`: when last month's value is 0 the "change" is this
   * month's value times 100; otherwise it is the rounded percentage of
   * this month over last month.
   */
  function CalculatePercentage(thisMonth: int, lastMonth: int): (r: int)
    ensures lastMonth == 0 ==> r == thisMonth * 100
    ensures lastMonth != 0 ==> r == RoundedPercent(thisMonth, lastMonth)
  {
    if lastMonth == 0 then thisMonth * 100 else RoundedPercent(thisMonth, lastMonth)
  }

  lemma CalculatePercentageExamples()
    ensures CalculatePercentage(0, 0) == 0
    ensures CalculatePercentage(50, 0) == 5000
    ensures CalculatePercentage(150, 100) == 150
    ensures CalculatePercentage(1, 8) == 13
    ensures CalculatePercentage(1, 3) == 33
  {
  }

  /** With a positive last month, equal months give exactly 100 and growth gives more. */
  lemma PercentageOrdering(thisMonth: int, lastMonth: int)
    requires lastMonth > 0
    ensures thisMonth == lastMonth ==> CalculatePercentage(thisMonth, lastMonth) == 100
    ensures thisMonth > lastMonth ==> CalculatePercentage(thisMonth, lastMonth) >= 100
    ensures 0 <= thisMonth < lastMonth ==> 0 <= CalculatePercentage(thisMonth, lastMonth) <= 100
  {
    var r := CalculatePercentage(thisMonth, lastMonth);
    if thisMonth == lastMonth {
      RoundedPercentUnique(thisMonth, lastMonth, 100);
    } else if thisMonth > lastMonth {
      if r < 100 {
        MulMonotone(2 * r + 1, 199, lastMonth);
      }
    } else if 0 <= thisMonth {
      if r > 100 {
        MulMonotone(201, 2 * r - 1, lastMonth);
      }
      if r < 0 {
        MulMonotone(2 * r + 1, -1, lastMonth);
      }
    }
  }
}
