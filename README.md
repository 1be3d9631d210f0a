# Order service model (desafio-btg)

This project models the order service of the desafio-btg application in Dafny.
An "order created" event (`OrderCreatedResponse`: order code, customer code,
item lines) becomes a stored `Order`. The order's total is computed exactly as
the sum of `preco * quantidade` over its lines. The order is upserted into the
`tb_order` collection under its `orderId`. Two read queries work per
customer: a page of the customer's orders projected to `OrderResponse`, and
the sum of the customer's order totals aggregated by the store.

Modules:

- `Entities` (entities.dfy): `OrderItem`, `Order`, and the reference sum
  `ItemsTotal` with the invariant `Consistent` (a stored total equals the
  sum of its own lines).
- `Dtos` (dtos.dfy): the event records and the `OrderResponse` projection
  `FromEntity`.
- `OrderStore` (order_store.dfy): the store as a snapshot. It holds the
  documents by key and the store's retrieval order. It also holds the
  upsert, the repository's paged query `findAllByCustomerId`, the
  `$match`/`$group` aggregation, and a brute-force reference. The reference
  is the sum over the set of the customer's keys, which does not depend on
  order.
- `Services` (order_service.dfy): `getTotal`, `getList` and the class
  `OrderService`. The class holds the store state (`orders`, `retrieval`),
  the `Save` method that updates it, and the two queries that read it.

Money is Dafny `real`: `BigDecimal` addition and multiplication are exact,
and only numeric value is modelled. Identifiers are Java `long` values and
quantities are Java `int` values. Both are written as subset types of `int`
with the Java ranges. Identifiers are only compared, so no wrap-around
arises.

The repository's derived query and the aggregation are implemented by the
data store, not by this repository. They are modelled as assumed contracts:

- The query filters the stored documents by `customerId` in the store's
  retrieval order, then takes the window `[page*size, page*size+size)`.
  `totalElements` is the number of matches.
- The `$group` stage yields one document with the sum when some document
  matched, and no document when none did.

The class invariant `Valid()` says three things. Each document sits under
its own `orderId`. The retrieval order lists each key once. Every stored
total is the sum of its own lines. `Save` keeps this invariant.

## Model

| member | source | states |
|---|---|---|
| `Dtos.FromEntity` | src/main/java/com/moreira/desafiobtg/dtos/OrderResponse.java:11-17 | the response carries the order's id, customer id and total unchanged |
| `Dtos.FromEntitySameExactlyOnKeyFields` | src/main/java/com/moreira/desafiobtg/dtos/OrderResponse.java:7-17 | two orders project to the same response if and only if they agree on id, customer and total; the projection has no other fields |
| `Dtos.FromEntityIgnoresItems` | src/main/java/com/moreira/desafiobtg/dtos/OrderResponse.java:11-16 | replacing an order's line items never changes its projection; the total is copied, not recomputed from the lines |
| `Services.LineTotals` | src/main/java/com/moreira/desafiobtg/services/OrderService.java:53-55 | one amount per event line, same length and order, each `preco * quantidade` |
| `Services.Reduce` | src/main/java/com/moreira/desafiobtg/services/OrderService.java:56 | `reduce(BigDecimal::add)` gives no value exactly for an empty stream, and the single element for a one-element stream |
| `Services.FoldAddIsSum` | src/main/java/com/moreira/desafiobtg/services/OrderService.java:56 | the left fold of the reduction equals the sum of the amounts |
| `Services.GetTotal` | src/main/java/com/moreira/desafiobtg/services/OrderService.java:52-59 | an event without lines totals exactly zero; a one-line event totals exactly that line's `preco * quantidade` |
| `Services.GetTotalIsOrderAmount` | src/main/java/com/moreira/desafiobtg/services/OrderService.java:52-58 | the total equals the independently defined sum of `preco * quantidade` over all lines |
| `Services.GetTotalAppend` | src/main/java/com/moreira/desafiobtg/services/OrderService.java:53-56 | appending one line adds exactly that line's `preco * quantidade` to the total |
| `Services.GetList` | src/main/java/com/moreira/desafiobtg/services/OrderService.java:46-50 | the stored lines have the event's length and order; line k has `item = produto`, `quantity = quantidade`, `price = preco` of event line k |
| `Services.GetListAgreesWithGetTotal` | src/main/java/com/moreira/desafiobtg/services/OrderService.java:38-41 | the lines stored with the order add up to the total stored with it |
| `Services.BuildOrder` | src/main/java/com/moreira/desafiobtg/services/OrderService.java:34-41 | the built order carries the event's order and customer codes, `getTotal` and `getList`, and is consistent: its total is the sum of its stored lines |
| `Services.Responses` | src/main/java/com/moreira/desafiobtg/services/OrderService.java:66 | mapping `fromEntity` over a page keeps its length and order; element k is the projection of order k |
| `Services.OrderService.constructor` | src/main/java/com/moreira/desafiobtg/services/OrderService.java:28-31 | the service is wired to a store that already holds the given well-formed snapshot, unchanged |
| `Services.OrderService.Save` | src/main/java/com/moreira/desafiobtg/services/OrderService.java:33-44 | afterwards `codigoPedido` maps to the built order (customer, total, lines). Every other key keeps its document. The store stays well formed with consistent totals. A new order adds its total to its customer's sum |
| `Services.OrderService.FindAllOrdersByClientId` | src/main/java/com/moreira/desafiobtg/services/OrderService.java:62-67 | the result has the repository page's length, order and metadata, and element k is `fromEntity` of page element k. At most `size` elements, each with `customerId == id` |
| `Services.OrderService.FindTotalOnOrdersByCustomerId` | src/main/java/com/moreira/desafiobtg/services/OrderService.java:69-87 | as written: fails with a null dereference exactly when the customer has no stored order |
| `Services.OrderService.FindTotalOnOrdersByCustomerIdOrZero` | src/main/java/com/moreira/desafiobtg/services/OrderService.java:83-85 | corrected: zero when the customer has no order; otherwise the same value the code as written returns |
| `Services.ListedOrdersAreStored` | src/main/java/com/moreira/desafiobtg/services/OrderService.java:62-66 | every listed response is the projection of the stored order under its id. That order belongs to the customer, and its total is the sum of its lines |
| `Services.ListingCountsCustomerOrders` | src/main/java/com/moreira/desafiobtg/services/OrderService.java:64 | the page's `totalElements` is the number of the customer's stored orders |
| `Services.TotalAsWrittenThrowsWithoutOrders` | src/main/java/com/moreira/desafiobtg/services/OrderService.java:79-85 | for a customer without orders, the query as written throws a `NullPointerException` instead of returning zero |
| `Services.TotalAsWrittenWithOrders` | src/main/java/com/moreira/desafiobtg/services/OrderService.java:69-85 | for a customer with orders, the query as written returns the brute-force sum of their totals |
| `Services.TotalOrZeroIsBruteForce` | src/main/java/com/moreira/desafiobtg/services/OrderService.java:69-85 | the corrected query equals the brute-force sum of totals over the customer's stored orders, zero included |
| `Services.SaveIdempotent` | src/main/java/com/moreira/desafiobtg/services/OrderService.java:33-43 | saving the same event twice leaves the same store as saving it once |
| `Services.SaveLastWriteWins` | src/main/java/com/moreira/desafiobtg/services/OrderService.java:33-43 | saving a second event under an existing order code replaces the first one's order entirely |
| `Services.ExampleTwoOrders` | src/main/java/com/moreira/desafiobtg/services/OrderService.java:69-85 | orders (2 x 10.00 + 1 x 5.00) and (1 x 10.00) for customer 42 aggregate to 35.00. Customer 7, who has no order, gets no aggregation result |
| `Services.ExampleTwoOrdersListing` | src/main/java/com/moreira/desafiobtg/services/OrderService.java:62-66 | for the same two orders, page 0 of size 10 lists both of customer 42's orders with `totalElements == 2`; for customer 7 it is empty with `totalElements == 0` |
| `Services.ExampleTotals` | src/main/java/com/moreira/desafiobtg/services/OrderService.java:52-58 | the example orders total exactly 25.00 and 10.00 |
| `OrderStore.Upserted` | src/main/java/com/moreira/desafiobtg/services/OrderService.java:43 | `repository.save` puts the order under its `orderId` and leaves every other key and document as it was. Overwriting keeps the retrieval order |
| `OrderStore.UpsertedValid` | src/main/java/com/moreira/desafiobtg/entities/Order.java:25-26 | an upsert keeps every document under its own `@MongoId` key and each key once in retrieval order |
| `OrderStore.UpsertedIdempotent` | src/main/java/com/moreira/desafiobtg/services/OrderService.java:43 | upserting the same document twice equals upserting it once |
| `OrderStore.UpsertedLastWriteWins` | src/main/java/com/moreira/desafiobtg/services/OrderService.java:43 | of two upserts under one key, the later wins as if the first had not happened |
| `OrderStore.ByCustomer` | src/main/java/com/moreira/desafiobtg/repositories/OrderRepository.java:17 | the filter keeps exactly the documents of the customer: all of them, and nothing else |
| `OrderStore.Window` | src/main/java/com/moreira/desafiobtg/repositories/OrderRepository.java:17 | the window `[start, start+size)` holds exactly `min(size, |matches| - start)` elements while matches remain past `start`, and is empty at or past the end. Element k is element `start + k` of the matches |
| `OrderStore.FindAllByCustomerId` | src/main/java/com/moreira/desafiobtg/repositories/OrderRepository.java:17 | at most `size` orders, all of the customer. The page echoes the request. A page at or beyond `totalElements` is empty |
| `OrderStore.PageListsStoredOrders` | src/main/java/com/moreira/desafiobtg/repositories/OrderRepository.java:17 | every order on a page is the document stored under its own `orderId` |
| `OrderStore.TotalElementsCountsCustomerOrders` | src/main/java/com/moreira/desafiobtg/repositories/OrderRepository.java:17 | `totalElements` equals the number of the customer's keys in the store |
| `OrderStore.EveryMatchIsOnItsPage` | src/main/java/com/moreira/desafiobtg/repositories/OrderRepository.java:17 | the customer's j-th order is element `j % size` of page `j / size`, so paging loses no order |
| `OrderStore.AggregateTotal` | src/main/java/com/moreira/desafiobtg/services/OrderService.java:70-79 | the `match`/`group().sum("total")` aggregation yields no document exactly when no stored order matches |
| `OrderStore.AggregateTotalIsBruteForce` | src/main/java/com/moreira/desafiobtg/services/OrderService.java:70-79 | the aggregation is empty if and only if the customer has no key. Otherwise it is the brute-force sum of totals over the customer's keys |
| `OrderStore.CustomerOrdersAgreeWithKeys` | src/main/java/com/moreira/desafiobtg/services/OrderService.java:72-74 | filtering in retrieval order finds as many orders, with the same total sum, as the customer's key set |
| `OrderStore.FilterCountAgreesWithKeys` | src/main/java/com/moreira/desafiobtg/repositories/OrderRepository.java:17 | over any duplicate-free key sequence, the filter finds as many documents as there are matching keys |
| `OrderStore.FilterSumAgreesWithKeys` | src/main/java/com/moreira/desafiobtg/services/OrderService.java:72-74 | over any duplicate-free key sequence, the totals of the filtered documents sum to the sum over the matching keys |
| `OrderStore.SetSumRemove` | src/main/java/com/moreira/desafiobtg/services/OrderService.java:74 | the grouped sum may add the documents in any order |
| `OrderStore.CustomerTotalAfterInsert` | src/main/java/com/moreira/desafiobtg/services/OrderService.java:43 | inserting a new order raises its customer's total by exactly the order's total |

## Left out

- `OrderController`: HTTP routing, parameter defaults and the response envelope are framework glue.
- `PaginationDTO` and `totalPages`: Spring's page arithmetic is not part of this repository. The model keeps the page number, size, content and `totalElements`.
- The MongoDB pipeline syntax and BSON `Document` are left out. The aggregate result is a decimal or nothing. The `toString`/`new BigDecimal` round trip and DECIMAL128 precision (34 digits) are not modelled.
- `BigDecimal` scale and `equals`-by-scale are not modelled. Only numeric value is.
- Null references are not modelled: a null `quantidade`, price or identifier cannot occur in the model.
- Store failures (unreachable store, rejected write) are not modelled. Every save and query succeeds.
- Concurrent saves and duplicate deliveries racing each other are out of scope. Saves are sequential.
- The repository query and the aggregation run inside the data store. The model states them as contracts (filter by customer in retrieval order, window, sum) rather than verifying an implementation.
- Retrieval order: the data store leaves its natural order unspecified. The model assumes a first insert appends the key to the retrieval order and an overwrite keeps the key's position, so the page contents depend on that assumption.
- Services.OrderService.constructor: the Java constructor wires up a collection with any contents. The model starts from a given snapshot and requires every stored total to equal the sum of its lines, that is, it assumes `save` wrote every stored document. Documents written by other means are not modelled.
- Negative quantities and prices are accepted and summed as the code does. The code performs no validation.

## Findings

| source | as written | input that shows it | evidently intended | confidence | as-written member | corrected member |
|---|---|---|---|---|---|---|
| src/main/java/com/moreira/desafiobtg/services/OrderService.java:84-85 | `getUniqueMappedResult()` is dereferenced without a null check; the `$group` stage yields no document when no order matches, so the call throws | a store with no order of customer 7, then `findTotalOnOrdersByCustomerId(7)` (see `Services.ExampleTwoOrders`) | return zero for a customer without orders, as the comment on line 84 says | high; not executed | `Services.TotalAsWrittenThrowsWithoutOrders` | `Services.TotalOrZeroIsBruteForce` |

The code and the comment beside it disagree here. The model follows the code in
`Services.OrderService.FindTotalOnOrdersByCustomerId`. It states the intended
behaviour in `Services.OrderService.FindTotalOnOrdersByCustomerIdOrZero`.
