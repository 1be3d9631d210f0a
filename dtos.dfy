/**
 * Data carried in and out of the order service: the "order created" event
 * with its item lines, and the `OrderResponse` projection served to readers.
 */
module Dtos {
  import opened Entities

  /** One item line of an incoming event: product name, quantity, unit price. */
  datatype OrderItemDto = OrderItemDto(produto: string, quantidade: Int32, preco: real)

  /** The "order created" event: order code, customer code and item lines. */
  datatype OrderCreatedResponse = OrderCreatedResponse(codigoPedido: Long, codigoCliente: Long, itens: seq<OrderItemDto>)

  /** What readers see of an order: its identity, its customer and its stored total, but no lines. */
  datatype OrderResponse = OrderResponse(orderId: Long, customerId: Long, total: real)

  /** The projection of a stored order onto the response record. */
  function FromEntity(order: Order): (r: OrderResponse)
    ensures r.orderId == order.orderId
    ensures r.customerId == order.customerId
    ensures r.total == order.total
  {
    OrderResponse(order.orderId, order.customerId, order.total)
  }

  /**
   * Two orders project to the same response exactly when they agree on id,
   * customer and total: the line items play no part, and the total is copied,
   * not recomputed from them.
   */
  lemma FromEntitySameExactlyOnKeyFields(a: Order, b: Order)
    ensures FromEntity(a) == FromEntity(b)
        <==> a.orderId == b.orderId && a.customerId == b.customerId && a.total == b.total
  {
  }

  /** Replacing the line items of an order never changes its projection, even when the total no longer matches them. */
  lemma FromEntityIgnoresItems(o: Order, items: seq<OrderItem>)
    ensures FromEntity(o.(orderItems := items)) == FromEntity(o)
    ensures FromEntity(o.(orderItems := items)).total == o.total
  {
  }
}
