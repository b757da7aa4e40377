/**
 * The order handlers: placing an order (validation, creation, stock
 * reduction, invalidation), the cached order reads, advancing an order's
 * status and deleting an order.
 */
module OrderController {
  import opened Wrappers
  import opened Js
  import opened KeyValueCache
  import opened Documents
  import opened Errors
  import opened Features

  // ===========================================================================
  // Status

  /** `processOrder`'s step: Processing to Shipped, Shipped to Delivered, anything else stays. */
  function Advance(s: Status): (r: Status)
    ensures r == Cancelled <==> s == Cancelled
  {
    match s
    case Processing => Shipped
    case Shipped => Delivered
    case _ => s
  }

  /** How far along delivery an order is; Cancelled lies outside the sequence. */
  function Stage(s: Status): nat
    requires s != Cancelled
  {
    match s
    case Processing => 0
    case Shipped => 1
    case Delivered => 2
  }

  /**
   * Advancing moves an order one stage forward and stops at Delivered; it
   * never produces Cancelled, and only Delivered and Cancelled are fixed.
   */
  lemma AdvanceProgress(s: Status)
    ensures Advance(s) == Cancelled <==> s == Cancelled
    ensures s != Cancelled ==> Stage(Advance(s)) == if Stage(s) < 2 then Stage(s) + 1 else 2
    ensures Advance(s) == s <==> s == Delivered || s == Cancelled
  {
  }

  /** Two advances take any live order to Delivered, where it stays. */
  lemma AdvanceTwiceDelivers(s: Status)
    requires s != Cancelled
    ensures Advance(Advance(s)) == Delivered
    ensures Advance(Delivered) == Delivered
  {
  }

  // ===========================================================================
  // Placing an order

  /** The request body of `newOrder`; every field may be missing. */
  datatype NewOrderBody = NewOrderBody(
    shippingInfo: Option<ShippingInfo>,
    orderItems: Option<seq<OrderItem>>,
    user: JsString,
    subtotal: JsNumber,
    tax: JsNumber,
    shippingCharge: JsNumber,
    discount: JsNumber,
    total: JsNumber)

  /**
   * The guard of `newOrder`: shipping info, items, user, subtotal, tax and
   * total must be truthy. An empty item list is an array and so truthy;
   * shipping charge and discount are not checked.
   */
  predicate Complete(body: NewOrderBody)
  {
    body.shippingInfo.Some? && body.orderItems.Some? && StringTruthy(body.user)
    && NumberTruthy(body.subtotal) && NumberTruthy(body.tax) && NumberTruthy(body.total)
  }

  const FillAllFields := "Please fill all the fields"
  const OrderPlaced := "Order placed successfully"
  const OrderNotFound := "Order not found"
  const OrderProcessed := "Order processed successfully"
  const OrderDeleted := "Order deleted successfully"
  const NoOrdersOfUser := "You have no orders"
  const NoOrders := "No orders found"

  /** The order `Order.create` stores for a complete body: status Processing. */
  function OrderOf(body: NewOrderBody): (o: Order)
    requires Complete(body)
    ensures o.status == Processing && o.user == body.user.value && o.orderItems == body.orderItems.value
    ensures o.total == body.total.value && o.shippingCharge == body.shippingCharge && o.discount == body.discount
  {
    Order(body.shippingInfo.value, body.user.value, body.subtotal.value, body.tax.value,
      body.shippingCharge, body.discount, body.total.value, Processing, body.orderItems.value)
  }

  /** `order.orderItems.map(item => String(item.productId))`. */
  function ItemProductIds(items: seq<OrderItem>): (ids: seq<string>)
    ensures |ids| == |items|
    ensures forall i :: 0 <= i < |items| ==> ids[i] == items[i].productId
  {
    seq(|items|, i requires 0 <= i < |items| => items[i].productId)
  }

  /** The invalidation after a placed order: products, orders and reports, with no order id. */
  function NewOrderChange(user: string, items: seq<OrderItem>): (r: ChangeSet)
    ensures DeletedKeys(r) == KeySet(FixedProductKeys + ProductIdKeys(ItemProductIds(items)))
      + {AllOrdersKey, MyOrdersKey(user), OrderKey("undefined")} + KeySet(AdminGroupKeys)
  {
    ChangeSet(true, false, true, true, Some(user), None, ProductIdList(ItemProductIds(items)))
  }

  /**
   * `newOrder`. An incomplete body is refused before anything is written.
   * Otherwise the order is created, then stock is reduced item by item; if
   * an item's product is missing the error escapes with the order created,
   * the earlier decrements applied and the cache untouched. On success the
   * product, order and admin groups are invalidated. `newId` is the fresh
   * id the store assigns to the created order.
   */
  method NewOrder(store: Store, cache: Cache, body: NewOrderBody, newId: string) returns (outcome: Outcome)
    requires newId !in store.orders
    modifies store, cache
    ensures !Complete(body) ==>
      && outcome == Fail(ErrorHandler(FillAllFields, 400))
      && store.products == old(store.products) && store.orders == old(store.orders)
      && cache.entries == old(cache.entries)
    ensures Complete(body) ==>
      var items := body.orderItems.value;
      var k := FirstMissing(old(store.products).Keys, items);
      && store.orders == old(store.orders)[newId := OrderOf(body)]
      && store.products == Decremented(old(store.products), items[..k])
      && (k < |items| ==> outcome == Fail(PlainError(ProductNotFound)) && cache.entries == old(cache.entries))
      && (k == |items| ==>
            outcome == Done(201, OrderPlaced)
            && cache.entries == Invalidated(old(cache.entries), NewOrderChange(body.user.value, items)))
  {
    if !Complete(body) {
      return Fail(ErrorHandler(FillAllFields, 400));
    }
    var order := OrderOf(body);
    store.orders := store.orders[newId := order];
    var failure := ReduceStock(store, order.orderItems);
    if failure.Some? {
      return Fail(failure.value);
    }
    InvalidateCache(cache, NewOrderChange(order.user, order.orderItems));
    return Done(201, OrderPlaced);
  }

  /**
   * After a placed order no stale copy of an ordered product, of the
   * customer's order list or of the order list survives, and the order key
   * deleted is the literal `order-undefined`.
   */
  lemma NewOrderRefreshesReads(entries: map<string, string>, user: string, items: seq<OrderItem>, key: string)
    requires key == AllOrdersKey || key == MyOrdersKey(user) || key == OrderKey("undefined")
      || exists i :: 0 <= i < |items| && key == ProductKey(items[i].productId)
    ensures key !in Invalidated(entries, NewOrderChange(user, items))
  {
    var change := NewOrderChange(user, items);
    InvalidatedExactly(entries, change, key);
    if key != AllOrdersKey && key != MyOrdersKey(user) && key != OrderKey("undefined") {
      var i :| 0 <= i < |items| && key == ProductKey(items[i].productId);
      ProductIdKeysMembership(ItemProductIds(items), key);
      assert ItemProductIds(items)[i] == items[i].productId;
    }
  }

  /** A placed order leaves the cached copy of any other order in place. */
  lemma NewOrderKeepsOtherOrders(entries: map<string, string>, user: string, items: seq<OrderItem>, id: string)
    requires id != "undefined" && OrderKey(id) in entries
    ensures OrderKey(id) in Invalidated(entries, NewOrderChange(user, items))
    ensures Invalidated(entries, NewOrderChange(user, items))[OrderKey(id)] == entries[OrderKey(id)]
  {
    var key := OrderKey(id);
    assert key[0] == 'o';
    forall x: string
      ensures ProductKey(x) != key
    {
      assert ProductKey(x)[0] == 'p';
    }
    assert MyOrdersKey(user)[0] == 'm';
    assert key != OrderKey("undefined") by {
      assert id == key[|"order-"|..];
      assert "undefined" == OrderKey("undefined")[|"order-"|..];
    }
    InvalidatedExactly(entries, NewOrderChange(user, items), key);
  }

  // ===========================================================================
  // Cached reads

  /** The read-through shape shared by the order reads. */
  method ReadThrough(cache: Cache, key: string, found: Option<string>, notFound: string) returns (outcome: Outcome)
    modifies cache
    ensures key in old(cache.entries) ==>
      outcome == Done(200, old(cache.entries[key])) && cache.entries == old(cache.entries)
    ensures key !in old(cache.entries) && found.None? ==>
      outcome == Fail(ErrorHandler(notFound, 404)) && cache.entries == old(cache.entries)
    ensures key !in old(cache.entries) && found.Some? ==>
      outcome == Done(200, found.value) && cache.entries == old(cache.entries)[key := found.value]
  {
    if cache.Has(key) {
      return Done(200, cache.Get(key).value);
    }
    if found.None? {
      return Fail(ErrorHandler(notFound, 404));
    }
    cache.Set(key, found.value);
    return Done(200, found.value);
  }

  /** `myOrders`: keyed by the `id` query parameter, which renders as "undefined" when missing; an empty result is a 404 and is not cached. */
  method MyOrders(cache: Cache, user: JsString, found: seq<Order>, encode: seq<Order> -> string) returns (outcome: Outcome)
    modifies cache
    ensures var key := MyOrdersKey(Segment(user));
      && (key in old(cache.entries) ==>
            outcome == Done(200, old(cache.entries[key])) && cache.entries == old(cache.entries))
      && (key !in old(cache.entries) && found == [] ==>
            outcome == Fail(ErrorHandler(NoOrdersOfUser, 404)) && cache.entries == old(cache.entries))
      && (key !in old(cache.entries) && found != [] ==>
            outcome == Done(200, encode(found)) && cache.entries == old(cache.entries)[key := encode(found)])
  {
    outcome := ReadThrough(cache, MyOrdersKey(Segment(user)), if found == [] then None else Some(encode(found)), NoOrdersOfUser);
  }

  /** `allOrders`: the same shape under `all-orders`. */
  method AllOrders(cache: Cache, found: seq<Order>, encode: seq<Order> -> string) returns (outcome: Outcome)
    modifies cache
    ensures AllOrdersKey in old(cache.entries) ==>
      outcome == Done(200, old(cache.entries[AllOrdersKey])) && cache.entries == old(cache.entries)
    ensures AllOrdersKey !in old(cache.entries) && found == [] ==>
      outcome == Fail(ErrorHandler(NoOrders, 404)) && cache.entries == old(cache.entries)
    ensures AllOrdersKey !in old(cache.entries) && found != [] ==>
      outcome == Done(200, encode(found)) && cache.entries == old(cache.entries)[AllOrdersKey := encode(found)]
  {
    outcome := ReadThrough(cache, AllOrdersKey, if found == [] then None else Some(encode(found)), NoOrders);
  }

  /** `getSingleOrder`: the same shape under `order-<id>`; a missing order is a 404. */
  method GetSingleOrder(cache: Cache, id: string, found: Option<Order>, encode: Order -> string) returns (outcome: Outcome)
    modifies cache
    ensures OrderKey(id) in old(cache.entries) ==>
      outcome == Done(200, old(cache.entries[OrderKey(id)])) && cache.entries == old(cache.entries)
    ensures OrderKey(id) !in old(cache.entries) && found.None? ==>
      outcome == Fail(ErrorHandler(OrderNotFound, 404)) && cache.entries == old(cache.entries)
    ensures OrderKey(id) !in old(cache.entries) && found.Some? ==>
      outcome == Done(200, encode(found.value)) && cache.entries == old(cache.entries)[OrderKey(id) := encode(found.value)]
  {
    outcome := ReadThrough(cache, OrderKey(id), if found.None? then None else Some(encode(found.value)), OrderNotFound);
  }

  // ===========================================================================
  // Processing and deleting

  /** The invalidation after an order changes: orders and reports, for its user and id. */
  function OrderChange(user: string, id: string): (r: ChangeSet)
    ensures DeletedKeys(r) == {AllOrdersKey, MyOrdersKey(user), OrderKey(id)} + KeySet(AdminGroupKeys)
  {
    ChangeSet(false, false, true, true, Some(user), Some(id), NoProductId)
  }

  /**
   * `processOrder`: a missing order is a 404 with nothing saved or
   * invalidated; otherwise its status advances one step, it is saved, and
   * the order and admin groups are invalidated for its user and id.
   */
  method ProcessOrder(store: Store, cache: Cache, id: string) returns (outcome: Outcome)
    modifies store, cache
    ensures store.products == old(store.products)
    ensures id !in old(store.orders) ==>
      && outcome == Fail(ErrorHandler(OrderNotFound, 404))
      && store.orders == old(store.orders) && cache.entries == old(cache.entries)
    ensures id in old(store.orders) ==>
      var o := old(store.orders[id]);
      && store.orders == old(store.orders)[id := o.(status := Advance(o.status))]
      && cache.entries == Invalidated(old(cache.entries), OrderChange(o.user, id))
      && outcome == Done(200, OrderProcessed)
  {
    if id !in store.orders {
      return Fail(ErrorHandler(OrderNotFound, 404));
    }
    var order := store.orders[id];
    if order.status == Processing {
      order := order.(status := Shipped);
    } else if order.status == Shipped {
      order := order.(status := Delivered);
    }
    store.orders := store.orders[id := order];
    InvalidateCache(cache, OrderChange(order.user, id));
    return Done(200, OrderProcessed);
  }

  /**
   * `deleteOrder`: a missing order is a 404 with nothing deleted or
   * invalidated; otherwise the order is removed and the order and admin
   * groups are invalidated. Stock is not given back.
   */
  method DeleteOrder(store: Store, cache: Cache, id: string) returns (outcome: Outcome)
    modifies store, cache
    ensures store.products == old(store.products)
    ensures id !in old(store.orders) ==>
      && outcome == Fail(ErrorHandler(OrderNotFound, 404))
      && store.orders == old(store.orders) && cache.entries == old(cache.entries)
    ensures id in old(store.orders) ==>
      && store.orders == old(store.orders) - {id}
      && cache.entries == Invalidated(old(cache.entries), OrderChange(old(store.orders[id]).user, id))
      && outcome == Done(200, OrderDeleted)
  {
    if id !in store.orders {
      return Fail(ErrorHandler(OrderNotFound, 404));
    }
    var order := store.orders[id];
    store.orders := store.orders - {id};
    InvalidateCache(cache, OrderChange(order.user, id));
    return Done(200, OrderDeleted);
  }

  /**
   * The keys the order reads use for a user and an order are exactly the
   * keys an order change for them deletes, so a changed order is never
   * served stale; product and other orders' keys stay.
   */
  lemma OrderChangeMatchesReads(entries: map<string, string>, user: string, id: string, key: string)
    ensures key in entries && key !in Invalidated(entries, OrderChange(user, id)) ==>
      key == AllOrdersKey || key == MyOrdersKey(user) || key == OrderKey(id) || key in AdminGroupKeys
    ensures key == AllOrdersKey || key == MyOrdersKey(user) || key == OrderKey(id) || key in AdminGroupKeys ==>
      key !in Invalidated(entries, OrderChange(user, id))
    ensures key in entries && key !in OrderGroupKeys(Some(user), Some(id)) && key !in AdminGroupKeys ==>
      key in Invalidated(entries, OrderChange(user, id)) && Invalidated(entries, OrderChange(user, id))[key] == entries[key]
  {
    InvalidatedExactly(entries, OrderChange(user, id), key);
  }

  /** Processing an order and then reading it returns the advanced order, not the copy cached before. */
  method ProcessThenRead(store: Store, cache: Cache, id: string, encode: Order -> string) returns (read: Outcome)
    requires id in store.orders
    modifies store, cache
    ensures read == Done(200, encode(old(store.orders[id]).(status := Advance(old(store.orders[id]).status))))
  {
    var processed := ProcessOrder(store, cache, id);
    OrderChangeMatchesReads(old(cache.entries), old(store.orders[id]).user, id, OrderKey(id));
    read := GetSingleOrder(cache, id, Some(store.orders[id]), encode);
  }
}
