/**
 * The persisted entities of the order service: the `Order` document stored in
 * the `tb_order` collection and the `OrderItem` lines embedded in it.
 * Both are Lombok beans without behaviour; here they are plain values.
 */
module Entities {

  /** A Java `long` / `Long` (identifiers are only ever compared, never computed with). */
  type Long = x: int | -0x8000_0000_0000_0000 <= x < 0x8000_0000_0000_0000

  /** A Java `int` / `Integer`. */
  type Int32 = x: int | -0x8000_0000 <= x < 0x8000_0000

  /** One product line of a stored order; `price` is an exact decimal. */
  datatype OrderItem = OrderItem(item: string, quantity: Int32, price: real)

  /** A stored order, keyed in the store by `orderId`. */
  datatype Order = Order(orderId: Long, customerId: Long, orderItems: seq<OrderItem>, total: real)

  /**
   * The amount a stored line contributes to its order: price times quantity
   * (the same product `Services.LineTotal` takes of an event line).
   */
  function ItemAmount(i: OrderItem): real {
    i.price * (i.quantity as real)
  }

  /** The sum of the line amounts of a sequence of stored items (0 when there are none). */
  function ItemsTotal(items: seq<OrderItem>): real {
    if items == [] then 0.0 else ItemAmount(items[0]) + ItemsTotal(items[1..])
  }

  /** An order whose recorded total is the sum of its own line amounts. */
  predicate Consistent(o: Order) {
    o.total == ItemsTotal(o.orderItems)
  }
}
