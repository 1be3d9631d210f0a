/**
 * `OrderService`: turns an "order created" event into a stored order with a
 * computed total, and answers the two per-customer read queries (a page of
 * the customer's orders, and the sum of the customer's order totals).
 */
module Services {
  import opened Wrappers
  import opened Entities
  import opened Dtos
  import opened OrderStore

  /** What a Java call can throw in this model. */
  datatype Exception = NullPointerException

  // ----- Order total: `getTotal` -----

  /**
   * The amount of one event line: `preco.multiply(BigDecimal.valueOf(quantidade))`.
   * It is `Entities.ItemAmount` of the stored line the event line becomes
   * (see `ItemsTotalOfConverted`).
   */
  function LineTotal(i: OrderItemDto): real {
    i.preco * (i.quantidade as real)
  }

  /** The `map` stage of `getTotal`: one amount per event line, in order. */
  function LineTotals(xs: seq<OrderItemDto>): (r: seq<real>)
    ensures |r| == |xs|
    ensures forall k :: 0 <= k < |xs| ==> r[k] == LineTotal(xs[k])
  {
    if xs == [] then [] else [LineTotal(xs[0])] + LineTotals(xs[1..])
  }

  /** Left fold with addition, starting from `acc`. */
  function FoldAdd(acc: real, xs: seq<real>): real
    decreases xs
  {
    if xs == [] then acc else FoldAdd(acc + xs[0], xs[1..])
  }

  /** `Stream.reduce(BigDecimal::add)`: no value for an empty stream, else the left fold from the first element. */
  function Reduce(xs: seq<real>): (r: Option<real>)
    ensures r.None? <==> xs == []
    ensures |xs| == 1 ==> r == Some(xs[0])
  {
    if xs == [] then None else Some(FoldAdd(xs[0], xs[1..]))
  }

  /** Reference sum of a sequence of amounts (`OrderStore.SumTotals` is the same sum over order totals). */
  function Sum(xs: seq<real>): real {
    if xs == [] then 0.0 else xs[0] + Sum(xs[1..])
  }

  /** The left fold from `acc` adds `acc` to the sum of the rest. */
  lemma {:induction false} FoldAddIsSum(acc: real, xs: seq<real>)
    ensures FoldAdd(acc, xs) == acc + Sum(xs)
    decreases xs
  {
    if xs != [] {
      FoldAddIsSum(acc + xs[0], xs[1..]);
    }
  }

  /**
   * Reference definition of an event's amount: the sum of price times quantity
   * over its lines; `Entities.ItemsTotal` is the same sum over stored lines.
   */
  function OrderAmount(xs: seq<OrderItemDto>): real {
    if xs == [] then 0.0 else LineTotal(xs[0]) + OrderAmount(xs[1..])
  }

  lemma {:induction false} SumOfLineTotals(xs: seq<OrderItemDto>)
    ensures Sum(LineTotals(xs)) == OrderAmount(xs)
  {
    if xs != [] {
      SumOfLineTotals(xs[1..]);
      assert LineTotals(xs)[1..] == LineTotals(xs[1..]);
    }
  }

  /** Adding one line at the end adds exactly that line's amount. */
  lemma {:induction false} OrderAmountAppend(xs: seq<OrderItemDto>, x: OrderItemDto)
    ensures OrderAmount(xs + [x]) == OrderAmount(xs) + LineTotal(x)
  {
    if xs == [] {
      assert [] + [x] == [x];
    } else {
      OrderAmountAppend(xs[1..], x);
      assert (xs + [x])[1..] == xs[1..] + [x];
    }
  }

  /**
   * `getTotal(event)`: the reduction of the line amounts, or zero when the
   * event has no lines.
   */
  function GetTotal(event: OrderCreatedResponse): (r: real)
    ensures event.itens == [] ==> r == 0.0
    ensures |event.itens| == 1 ==> r == LineTotal(event.itens[0])
  {
    Reduce(LineTotals(event.itens)).GetOr(0.0)
  }

  /** `getTotal` is the exact sum of price times quantity over the event's lines. */
  lemma GetTotalIsOrderAmount(event: OrderCreatedResponse)
    ensures GetTotal(event) == OrderAmount(event.itens)
  {
    var lines := LineTotals(event.itens);
    SumOfLineTotals(event.itens);
    if lines != [] {
      FoldAddIsSum(lines[0], lines[1..]);
    }
  }

  /** An event with one more line at the end totals exactly that line's amount more. */
  lemma GetTotalAppend(event: OrderCreatedResponse, x: OrderItemDto)
    ensures GetTotal(event.(itens := event.itens + [x])) == GetTotal(event) + LineTotal(x)
  {
    GetTotalIsOrderAmount(event);
    GetTotalIsOrderAmount(event.(itens := event.itens + [x]));
    OrderAmountAppend(event.itens, x);
  }

  // ----- Stored lines: `getList` -----

  /** The stored lines for a sequence of event lines, one for one and in order. */
  function ToOrderItems(xs: seq<OrderItemDto>): (r: seq<OrderItem>)
    ensures |r| == |xs|
    ensures forall k :: 0 <= k < |xs| ==>
              r[k].item == xs[k].produto && r[k].quantity == xs[k].quantidade && r[k].price == xs[k].preco
  {
    if xs == [] then [] else [OrderItem(xs[0].produto, xs[0].quantidade, xs[0].preco)] + ToOrderItems(xs[1..])
  }

  /** `getList(event)`: the event's lines as stored lines, same length and order. */
  function GetList(event: OrderCreatedResponse): (r: seq<OrderItem>)
    ensures |r| == |event.itens|
    ensures forall k :: 0 <= k < |r| ==>
              r[k].item == event.itens[k].produto
              && r[k].quantity == event.itens[k].quantidade
              && r[k].price == event.itens[k].preco
  {
    ToOrderItems(event.itens)
  }

  lemma {:induction false} ItemsTotalOfConverted(xs: seq<OrderItemDto>)
    ensures ItemsTotal(ToOrderItems(xs)) == OrderAmount(xs)
  {
    if xs != [] {
      ItemsTotalOfConverted(xs[1..]);
      assert ToOrderItems(xs)[1..] == ToOrderItems(xs[1..]);
    }
  }

  /** The stored lines add up to the computed total: `getList` and `getTotal` agree. */
  lemma GetListAgreesWithGetTotal(event: OrderCreatedResponse)
    ensures ItemsTotal(GetList(event)) == GetTotal(event)
  {
    ItemsTotalOfConverted(event.itens);
    GetTotalIsOrderAmount(event);
  }

  /** The order `save` builds through its setters before handing it to the repository. */
  function BuildOrder(event: OrderCreatedResponse): (o: Order)
    ensures o.orderId == event.codigoPedido && o.customerId == event.codigoCliente
    ensures o.total == GetTotal(event) && o.orderItems == GetList(event)
    ensures Consistent(o)
  {
    GetListAgreesWithGetTotal(event);
    Order(event.codigoPedido, event.codigoCliente, GetList(event), GetTotal(event))
  }

  /** `orders.map(OrderResponse::fromEntity)`: one response per order, in order. */
  function Responses(os: seq<Order>): (r: seq<OrderResponse>)
    ensures |r| == |os|
    ensures forall k :: 0 <= k < |os| ==> r[k] == FromEntity(os[k])
  {
    if os == [] then [] else [FromEntity(os[0])] + Responses(os[1..])
  }

  /**
   * The service together with the state of the store it writes to: the
   * documents by `orderId`, and the order in which the store returns them.
   */
  class OrderService {
    var orders: map<Long, Order>
    var retrieval: seq<Long>

    /** The current contents of the store. */
    function Store(): Snapshot
      reads this
    {
      Snapshot(orders, retrieval)
    }

    /** The store is well formed and every stored total is the sum of its own lines. */
    ghost predicate Valid()
      reads this
    {
      OrderStore.Valid(Store()) && forall k :: k in orders ==> Consistent(orders[k])
    }

    /**
     * A service wired to a store that already holds `initial`: a well-formed
     * collection whose every total is the sum of its own lines.
     */
    constructor (initial: Snapshot)
      requires OrderStore.Valid(initial)
      requires forall k :: k in initial.orders ==> Consistent(initial.orders[k])
      ensures Valid() && Store() == initial
    {
      orders := initial.orders;
      retrieval := initial.retrieval;
    }

    /**
     * `save(event)`: build the order from the event and upsert it under
     * `codigoPedido`; every other key keeps its document.
     */
    method Save(event: OrderCreatedResponse)
      requires Valid()
      modifies this
      ensures Valid()
      ensures Store() == Upserted(old(Store()), BuildOrder(event))
      ensures event.codigoPedido in orders
      ensures orders[event.codigoPedido].customerId == event.codigoCliente
      ensures orders[event.codigoPedido].total == GetTotal(event)
      ensures orders[event.codigoPedido].orderItems == GetList(event)
      ensures forall k :: k != event.codigoPedido ==> (k in orders <==> k in old(orders))
      ensures forall k :: k != event.codigoPedido && k in old(orders) ==> orders[k] == old(orders)[k]
      ensures event.codigoPedido !in old(orders) ==>
                CustomerTotal(orders, event.codigoCliente)
                == CustomerTotal(old(orders), event.codigoCliente) + GetTotal(event)
    {
      var order := BuildOrder(event);
      if order.orderId !in orders {
        CustomerTotalAfterInsert(orders, order);
      }
      UpsertedValid(Store(), order);
      if order.orderId !in orders {
        retrieval := retrieval + [order.orderId];
      }
      orders := orders[order.orderId := order];
    }

    /**
     * `findAllOrdersByClientId(id, pageRequest)`: the repository's page of the
     * customer's orders, each projected through `fromEntity`, with the page's
     * metadata unchanged.
     */
    function FindAllOrdersByClientId(id: Long, request: PageRequest): (r: Page<OrderResponse>)
      reads this
      requires request.size > 0
      ensures var repo := FindAllByCustomerId(Store(), id, request);
              && |r.content| == |repo.content|
              && (forall k :: 0 <= k < |r.content| ==> r.content[k] == FromEntity(repo.content[k]))
              && r.number == repo.number && r.size == repo.size && r.totalElements == repo.totalElements
      ensures |r.content| <= request.size
      ensures forall k :: 0 <= k < |r.content| ==> r.content[k].customerId == id
    {
      var repo := FindAllByCustomerId(Store(), id, request);
      Page(Responses(repo.content), repo.number, repo.size, repo.totalElements)
    }

    /**
     * `findTotalOnOrdersByCustomerId(customerId)` as written: it reads the
     * `total` of the aggregation's unique result, which is null when the
     * customer has no order, so the call throws.
     */
    function FindTotalOnOrdersByCustomerId(customerId: Long): (r: Result<real, Exception>)
      reads this
      ensures r.Failure? <==> CustomerOrders(Store(), customerId) == []
      ensures r.Failure? ==> r.error == NullPointerException
    {
      match AggregateTotal(Store(), customerId)
      case None => Failure(NullPointerException)
      case Some(total) => Success(total)
    }

    /**
     * The customer's total as the comment beside the aggregation intends it:
     * zero when the aggregation yields no document, the aggregated sum otherwise.
     */
    function FindTotalOnOrdersByCustomerIdOrZero(customerId: Long): (r: real)
      reads this
      ensures CustomerOrders(Store(), customerId) == [] ==> r == 0.0
      ensures FindTotalOnOrdersByCustomerId(customerId).Success? ==> r == FindTotalOnOrdersByCustomerId(customerId).value
    {
      AggregateTotal(Store(), customerId).GetOr(0.0)
    }
  }

  // ----- Properties of the service -----

  /** Every listed response is the projection of the stored order under its id, which belongs to the customer. */
  lemma ListedOrdersAreStored(svc: OrderService, id: Long, request: PageRequest)
    requires svc.Valid() && request.size > 0
    ensures var r := svc.FindAllOrdersByClientId(id, request);
            forall k :: 0 <= k < |r.content| ==>
              && r.content[k].orderId in svc.orders
              && svc.orders[r.content[k].orderId].customerId == id
              && r.content[k] == FromEntity(svc.orders[r.content[k].orderId])
              && r.content[k].total == ItemsTotal(svc.orders[r.content[k].orderId].orderItems)
  {
    PageListsStoredOrders(svc.Store(), id, request);
  }

  /** The page reports as `totalElements` the number of the customer's orders in the store. */
  lemma ListingCountsCustomerOrders(svc: OrderService, id: Long, request: PageRequest)
    requires svc.Valid() && request.size > 0
    ensures svc.FindAllOrdersByClientId(id, request).totalElements == |Matching(svc.orders, id)|
  {
    TotalElementsCountsCustomerOrders(svc.Store(), id, request);
  }

  /** As written, the total query throws for a customer with no stored order. */
  lemma TotalAsWrittenThrowsWithoutOrders(svc: OrderService, customerId: Long)
    requires svc.Valid() && Matching(svc.orders, customerId) == {}
    ensures svc.FindTotalOnOrdersByCustomerId(customerId) == Failure(NullPointerException)
  {
    AggregateTotalIsBruteForce(svc.Store(), customerId);
  }

  /** As written, the total query returns the brute-force sum when the customer has some order. */
  lemma TotalAsWrittenWithOrders(svc: OrderService, customerId: Long)
    requires svc.Valid() && Matching(svc.orders, customerId) != {}
    ensures svc.FindTotalOnOrdersByCustomerId(customerId) == Success(CustomerTotal(svc.orders, customerId))
  {
    AggregateTotalIsBruteForce(svc.Store(), customerId);
  }

  /** The corrected total equals the brute-force sum over the store, zero included. */
  lemma TotalOrZeroIsBruteForce(svc: OrderService, customerId: Long)
    requires svc.Valid()
    ensures svc.FindTotalOnOrdersByCustomerIdOrZero(customerId) == CustomerTotal(svc.orders, customerId)
  {
    AggregateTotalIsBruteForce(svc.Store(), customerId);
  }

  /** Saving the same event twice leaves the store as saving it once. */
  lemma SaveIdempotent(s: Snapshot, event: OrderCreatedResponse)
    ensures Upserted(Upserted(s, BuildOrder(event)), BuildOrder(event)) == Upserted(s, BuildOrder(event))
  {
    UpsertedIdempotent(s, BuildOrder(event));
  }

  /** Two events with the same order code: the later one's order replaces the earlier one's. */
  lemma SaveLastWriteWins(s: Snapshot, first: OrderCreatedResponse, second: OrderCreatedResponse)
    requires first.codigoPedido == second.codigoPedido
    ensures Upserted(Upserted(s, BuildOrder(first)), BuildOrder(second)) == Upserted(s, BuildOrder(second))
  {
    UpsertedLastWriteWins(s, BuildOrder(first), BuildOrder(second));
  }

  /** Customer 42's first order: 2 x 10.00 and 1 x 5.00. */
  function ExampleOrderA(): OrderCreatedResponse {
    OrderCreatedResponse(1, 42, [OrderItemDto("widget", 2, 10.0), OrderItemDto("gear", 1, 5.0)])
  }

  /** Customer 42's second order: 1 x 10.00. */
  function ExampleOrderB(): OrderCreatedResponse {
    OrderCreatedResponse(2, 42, [OrderItemDto("widget", 1, 10.0)])
  }

  /** The store after saving both example orders into an empty collection. */
  function ExampleStore(): Snapshot {
    Upserted(Upserted(Snapshot(map[], []), BuildOrder(ExampleOrderA())), BuildOrder(ExampleOrderB()))
  }

  /** Customer 42 owns both example orders, in saving order; customer 7 owns none. */
  lemma ExampleCustomerOrders()
    ensures var s := ExampleStore();
            && s.retrieval == [1, 2]
            && CustomerOrders(s, 42) == [s.orders[1], s.orders[2]]
            && CustomerOrders(s, 7) == []
  {
    var s := ExampleStore();
    assert s.retrieval == [1, 2];
    assert s.retrieval[1..] == [2] && [2][1..] == [];
    assert Documents(s.orders, [2]) == [s.orders[2]];
    var ds := Documents(s.orders, s.retrieval);
    assert ds == [s.orders[1]] + Documents(s.orders, [2]);
    assert ds[1..] == [s.orders[2]];
  }

  /**
   * Worked example, the aggregation: customer 42 totals 25.00 + 10.00 = 35.00,
   * and customer 7, who has no order, makes the aggregation yield nothing
   * (where the service as written throws).
   */
  lemma ExampleTwoOrders()
    ensures AggregateTotal(ExampleStore(), 42) == Some(35.0)
    ensures AggregateTotal(ExampleStore(), 7) == None
  {
    ExampleTotals();
    ExampleCustomerOrders();
    var s := ExampleStore();
    assert s.orders[1].total == 25.0 && s.orders[2].total == 10.0;
    var ds := CustomerOrders(s, 42);
    assert ds[1..] == [s.orders[2]] && ds[1..][1..] == [];
    assert SumTotals(ds) == s.orders[1].total + SumTotals(ds[1..]);
    assert SumTotals(ds[1..]) == s.orders[2].total + SumTotals([]);
  }

  /** The example orders total 2 x 10.00 + 1 x 5.00 = 25.00 and 1 x 10.00 = 10.00. */
  lemma ExampleTotals()
    ensures GetTotal(ExampleOrderA()) == 25.0 && GetTotal(ExampleOrderB()) == 10.0
  {
    var a := ExampleOrderA();
    GetTotalAppend(a.(itens := [a.itens[0]]), a.itens[1]);
    assert [a.itens[0]] + [a.itens[1]] == a.itens;
  }

  /**
   * Worked example, the listing: page 0 of size 10 holds both of customer 42's
   * orders with `totalElements == 2`, and is empty for customer 7 with
   * `totalElements == 0`.
   */
  lemma ExampleTwoOrdersListing()
    ensures var s := ExampleStore();
            && FindAllByCustomerId(s, 42, PageRequest(0, 10)).content == [s.orders[1], s.orders[2]]
            && FindAllByCustomerId(s, 42, PageRequest(0, 10)).totalElements == 2
            && FindAllByCustomerId(s, 7, PageRequest(0, 10)).content == []
            && FindAllByCustomerId(s, 7, PageRequest(0, 10)).totalElements == 0
  {
    ExampleCustomerOrders();
    var ds := CustomerOrders(ExampleStore(), 42);
    assert Offset(PageRequest(0, 10)) == 0;
    assert Window(ds, 0, 10) == ds[0..] == ds;
  }
}
