/** The order service's records. */
module OrderModel {

  import opened Base

  /** The status every new order is given. */
  const Pending: string := "PENDING"

  /** One requested line of an order. `price` is None until the order service
      has resolved it (a nil `*float64` in the service). Quantities are not
      checked anywhere, so any integer is allowed. */
  datatype OrderItem = OrderItem(productId: string, quantity: int, price: Option<real>)

  /** An order. `items` holds the priced item list; `id` and the timestamps are
      empty / zero until the repository assigns them. */
  datatype Order = Order(
    id: string,
    userId: string,
    items: seq<OrderItem>,
    totalPrice: real,
    status: string,
    createdAt: Timestamp,
    updatedAt: Timestamp)
}
