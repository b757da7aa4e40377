/**
 * The stored documents the handlers create, update and delete, and the
 * store that holds them by id. Queries that only read are not modelled
 * here: their results are inputs of the handlers that issue them.
 */
module Documents {
  import opened Wrappers

  /** The status of an order; a new order is Processing. */
  datatype Status = Processing | Shipped | Delivered | Cancelled

  /** One line of an order. */
  datatype OrderItem = OrderItem(name: string, quantity: int, price: int, productId: string, photo: string)

  datatype ShippingInfo = ShippingInfo(address: string, city: string, state: string, phone: string, postalCode: int, country: string)

  /**
   * An order. The money fields are integers (minor units); the order
   * handler does not check shipping charge and discount, so they may be
   * missing.
   */
  datatype Order = Order(
    shippingInfo: ShippingInfo,
    user: string,
    subtotal: int,
    tax: int,
    shippingCharge: Option<int>,
    discount: Option<int>,
    total: int,
    status: Status,
    orderItems: seq<OrderItem>)

  /** A product; `photo` is the path of its uploaded image. */
  datatype Product = Product(name: string, price: int, description: string, stock: int, category: string, photo: string)

  /** The product and order collections, keyed by document id. */
  class Store {
    var products: map<string, Product>
    var orders: map<string, Order>

    constructor ()
      ensures products == map[] && orders == map[]
    {
      products := map[];
      orders := map[];
    }
  }
}
