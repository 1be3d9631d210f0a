/**
 * The order store behind the service: the `tb_order` collection keyed by
 * `orderId`, the repository's paginated derived query `findAllByCustomerId`,
 * and the store-side `$match` + `$group`/`$sum` aggregation.
 *
 * The store is a snapshot: the documents by key, and the store's natural
 * retrieval order of their keys. The repository query and the aggregation
 * are assumed contracts of the data store (their implementation lies outside
 * the repository): filter by customer in retrieval order, then window.
 */
module OrderStore {
  import opened Wrappers
  import opened Entities

  /** The stored documents by key, and the order in which the store returns them. */
  datatype Snapshot = Snapshot(orders: map<Long, Order>, retrieval: seq<Long>)

  /** A page request: zero-based page number and page size (`PageRequest.of` rejects a size below 1). */
  datatype PageRequest = PageRequest(page: nat, size: nat)

  /** A page of results with the request that produced it and the number of matches overall. */
  datatype Page<T> = Page(content: seq<T>, number: nat, size: nat, totalElements: nat)

  /**
   * Well-formed store: every document sits under its own `orderId`, and the
   * retrieval order lists every key exactly once.
   */
  ghost predicate Valid(s: Snapshot) {
    && (forall k :: k in s.orders ==> s.orders[k].orderId == k)
    && Distinct(s.retrieval)
    && (forall k :: k in s.orders <==> k in s.retrieval)
  }

  /** No key occurs twice in `ids`. */
  ghost predicate Distinct(ids: seq<Long>) {
    forall i, j :: 0 <= i < j < |ids| ==> ids[i] != ids[j]
  }

  /** The tail of a duplicate-free sequence is duplicate-free and does not hold the head. */
  lemma DistinctTail(ids: seq<Long>)
    requires Distinct(ids) && ids != []
    ensures Distinct(ids[1..]) && ids[0] !in ids[1..]
  {
    forall i | 0 <= i < |ids| - 1 ensures ids[1..][i] != ids[0] {
      assert ids[1..][i] == ids[i + 1];
    }
  }

  /** `repository.save(order)`: insert or replace the document keyed by `order.orderId`. */
  function Upserted(s: Snapshot, order: Order): (r: Snapshot)
    ensures order.orderId in r.orders && r.orders[order.orderId] == order
    ensures forall k :: k != order.orderId ==> (k in r.orders <==> k in s.orders)
    ensures forall k :: k != order.orderId && k in s.orders ==> r.orders[k] == s.orders[k]
    ensures order.orderId in s.orders ==> r.retrieval == s.retrieval
  {
    Snapshot(s.orders[order.orderId := order],
             if order.orderId in s.orders then s.retrieval else s.retrieval + [order.orderId])
  }

  /** An upsert keeps the store well formed. */
  lemma UpsertedValid(s: Snapshot, order: Order)
    requires Valid(s)
    ensures Valid(Upserted(s, order))
  {
  }

  /** Saving the same document twice leaves the store as saving it once. */
  lemma UpsertedIdempotent(s: Snapshot, order: Order)
    ensures Upserted(Upserted(s, order), order) == Upserted(s, order)
  {
  }

  /** Of two saves under the same key, the later one wins, as if the first never happened. */
  lemma UpsertedLastWriteWins(s: Snapshot, first: Order, second: Order)
    requires first.orderId == second.orderId
    ensures Upserted(Upserted(s, first), second) == Upserted(s, second)
  {
  }

  /** The documents of the store, in retrieval order (keys without a document are skipped). */
  function Documents(orders: map<Long, Order>, ids: seq<Long>): (r: seq<Order>)
    ensures |r| <= |ids|
  {
    if ids == [] then []
    else (if ids[0] in orders then [orders[ids[0]]] else []) + Documents(orders, ids[1..])
  }

  /** The documents of a sequence whose `customerId` is `customerId`, in their original order. */
  function ByCustomer(os: seq<Order>, customerId: Long): (r: seq<Order>)
    ensures |r| <= |os|
    ensures forall o :: o in r ==> o in os && o.customerId == customerId
    ensures forall o :: o in os && o.customerId == customerId ==> o in r
  {
    if os == [] then []
    else (if os[0].customerId == customerId then [os[0]] else []) + ByCustomer(os[1..], customerId)
  }

  /** The offset of a page: `page * size` elements precede it. */
  function Offset(request: PageRequest): nat {
    request.page * request.size
  }

  /**
   * The window `[start, start + size)` of `xs`, cut short at its end: full
   * while enough elements remain, empty at or past the end.
   */
  function Window<T>(xs: seq<T>, start: nat, size: nat): (r: seq<T>)
    ensures start >= |xs| ==> r == []
    ensures start < |xs| ==> |r| == (if |xs| - start < size then |xs| - start else size)
    ensures forall k :: 0 <= k < |r| ==> start + k < |xs| && r[k] == xs[start + k]
  {
    if start >= |xs| then []
    else if start + size <= |xs| then xs[start..start + size]
    else xs[start..]
  }

  /** The orders of one customer, in the store's retrieval order. */
  function CustomerOrders(s: Snapshot, customerId: Long): seq<Order> {
    ByCustomer(Documents(s.orders, s.retrieval), customerId)
  }

  /**
   * `orderRepository.findAllByCustomerId(id, pageRequest)`: the requested window
   * of the customer's orders, with the total number of the customer's orders.
   */
  function FindAllByCustomerId(s: Snapshot, customerId: Long, request: PageRequest): (r: Page<Order>)
    requires request.size > 0
    ensures r.number == request.page && r.size == request.size
    ensures |r.content| <= request.size
    ensures forall k :: 0 <= k < |r.content| ==> r.content[k].customerId == customerId
    ensures Offset(request) >= r.totalElements ==> r.content == []
  {
    var matches := CustomerOrders(s, customerId);
    Page(Window(matches, Offset(request), request.size), request.page, request.size, |matches|)
  }

  /** When every document sits under its own id, each document listed is the one stored under its `orderId`. */
  lemma {:induction false} DocumentsAreStored(orders: map<Long, Order>, ids: seq<Long>)
    requires forall k :: k in orders ==> orders[k].orderId == k
    ensures forall o :: o in Documents(orders, ids) ==> o.orderId in orders && orders[o.orderId] == o
  {
    if ids != [] {
      DocumentsAreStored(orders, ids[1..]);
    }
  }

  /** Every order on a page of a well-formed store is the document stored under its own `orderId`. */
  lemma PageListsStoredOrders(s: Snapshot, customerId: Long, request: PageRequest)
    requires Valid(s) && request.size > 0
    ensures var p := FindAllByCustomerId(s, customerId, request);
            forall k :: 0 <= k < |p.content| ==>
              p.content[k].orderId in s.orders && s.orders[p.content[k].orderId] == p.content[k]
  {
    var ds := Documents(s.orders, s.retrieval);
    DocumentsAreStored(s.orders, s.retrieval);
    var xs := ByCustomer(ds, customerId);
    var p := FindAllByCustomerId(s, customerId, request);
    assert p.content == Window(xs, Offset(request), request.size);
    forall k | 0 <= k < |p.content|
      ensures p.content[k].orderId in s.orders && s.orders[p.content[k].orderId] == p.content[k]
    {
      assert p.content[k] in xs;
    }
  }

  /** The sum of the `total` fields of a sequence of orders. */
  function SumTotals(os: seq<Order>): real {
    if os == [] then 0.0 else os[0].total + SumTotals(os[1..])
  }

  /**
   * The aggregation `match(customerId = c)` then `group().sum("total")`: the
   * group stage emits one document holding the sum when some document matched,
   * and no document at all when none did.
   */
  function AggregateTotal(s: Snapshot, customerId: Long): (r: Option<real>)
    ensures r.None? <==> CustomerOrders(s, customerId) == []
  {
    var matches := CustomerOrders(s, customerId);
    if matches == [] then None else Some(SumTotals(matches))
  }

  // ----- Brute-force reference: the customer's orders as a set of keys -----

  /** The keys of the documents that belong to `customerId`. */
  ghost function Matching(orders: map<Long, Order>, customerId: Long): set<Long> {
    set k | k in orders && orders[k].customerId == customerId
  }

  /** The sum of the totals of the documents under the keys `ks`, in no particular order. */
  ghost function SetSum(orders: map<Long, Order>, ks: set<Long>): real
    requires ks <= orders.Keys
    decreases ks
  {
    if ks == {} then 0.0
    else
      var k :| k in ks;
      orders[k].total + SetSum(orders, ks - {k})
  }

  /** The customer's total computed by brute force over the whole store. */
  ghost function CustomerTotal(orders: map<Long, Order>, customerId: Long): real {
    SetSum(orders, Matching(orders, customerId))
  }

  /** `SetSum` may take out any key first: the sum does not depend on the order of summation. */
  lemma {:induction false} SetSumRemove(orders: map<Long, Order>, ks: set<Long>, k: Long)
    requires ks <= orders.Keys && k in ks
    ensures SetSum(orders, ks) == orders[k].total + SetSum(orders, ks - {k})
    decreases ks
  {
    var j :| j in ks && SetSum(orders, ks) == orders[j].total + SetSum(orders, ks - {j});
    if j != k {
      SetSumRemove(orders, ks - {j}, k);
      SetSumRemove(orders, ks - {k}, j);
      assert ks - {j} - {k} == ks - {k} - {j};
    }
  }

  /** The keys among `ids` whose documents belong to `customerId`. */
  ghost function MatchingIn(orders: map<Long, Order>, ids: seq<Long>, customerId: Long): set<Long> {
    set k | k in ids && k in orders && orders[k].customerId == customerId
  }

  /** Filtering the documents of `ids` takes the head's document when it matches, then filters the rest. */
  lemma FilterStep(orders: map<Long, Order>, ids: seq<Long>, customerId: Long)
    requires ids != []
    ensures ByCustomer(Documents(orders, ids), customerId)
         == (if ids[0] in orders && orders[ids[0]].customerId == customerId then [orders[ids[0]]] else [])
            + ByCustomer(Documents(orders, ids[1..]), customerId)
  {
    var d := Documents(orders, ids);
    if ids[0] in orders {
      assert d[0] == orders[ids[0]] && d[1..] == Documents(orders, ids[1..]);
    } else {
      assert d == Documents(orders, ids[1..]);
    }
  }

  /** The matching keys of `ids` are those of its tail, plus its head when that matches. */
  lemma MatchingInStep(orders: map<Long, Order>, ids: seq<Long>, customerId: Long)
    requires ids != []
    ensures MatchingIn(orders, ids, customerId)
         == MatchingIn(orders, ids[1..], customerId)
            + (if ids[0] in orders && orders[ids[0]].customerId == customerId then {ids[0]} else {})
  {
    assert forall k :: k in ids <==> k == ids[0] || k in ids[1..];
  }

  /** Filtering the retrieval sequence finds as many documents as there are matching keys. */
  lemma {:induction false} FilterCountAgreesWithKeys(orders: map<Long, Order>, ids: seq<Long>, customerId: Long)
    requires Distinct(ids)
    ensures |ByCustomer(Documents(orders, ids), customerId)| == |MatchingIn(orders, ids, customerId)|
  {
    if ids != [] {
      DistinctTail(ids);
      FilterCountAgreesWithKeys(orders, ids[1..], customerId);
      FilterStep(orders, ids, customerId);
      MatchingInStep(orders, ids, customerId);
    }
  }

  /** The sum over a matching key set that takes in a new key `h` on top of `rest`. */
  lemma SetSumAddKey(orders: map<Long, Order>, rest: set<Long>, h: Long)
    requires rest <= orders.Keys && h in orders && h !in rest
    ensures SetSum(orders, rest + {h}) == orders[h].total + SetSum(orders, rest)
  {
    assert (rest + {h}) - {h} == rest;
    SetSumRemove(orders, rest + {h}, h);
  }

  /** Filtering the retrieval sequence and summing gives the sum over the matching keys. */
  lemma {:induction false} FilterSumAgreesWithKeys(orders: map<Long, Order>, ids: seq<Long>, customerId: Long)
    requires Distinct(ids)
    ensures SumTotals(ByCustomer(Documents(orders, ids), customerId))
         == SetSum(orders, MatchingIn(orders, ids, customerId))
  {
    if ids != [] {
      var h, t := ids[0], ids[1..];
      DistinctTail(ids);
      FilterSumAgreesWithKeys(orders, t, customerId);
      FilterStep(orders, ids, customerId);
      MatchingInStep(orders, ids, customerId);
      var f := ByCustomer(Documents(orders, t), customerId);
      var rest := MatchingIn(orders, t, customerId);
      if h in orders && orders[h].customerId == customerId {
        assert ([orders[h]] + f)[1..] == f;
        assert SumTotals([orders[h]] + f) == orders[h].total + SumTotals(f);
        SetSumAddKey(orders, rest, h);
        assert MatchingIn(orders, ids, customerId) == rest + {h};
      } else {
        assert [] + f == f;
        assert MatchingIn(orders, ids, customerId) == rest;
      }
    }
  }

  /** In a well-formed store the customer's orders in retrieval order are exactly its matching keys. */
  lemma CustomerOrdersAgreeWithKeys(s: Snapshot, customerId: Long)
    requires Valid(s)
    ensures |CustomerOrders(s, customerId)| == |Matching(s.orders, customerId)|
    ensures SumTotals(CustomerOrders(s, customerId)) == CustomerTotal(s.orders, customerId)
  {
    FilterCountAgreesWithKeys(s.orders, s.retrieval, customerId);
    FilterSumAgreesWithKeys(s.orders, s.retrieval, customerId);
    assert MatchingIn(s.orders, s.retrieval, customerId) == Matching(s.orders, customerId);
  }

  /**
   * The aggregation agrees with the brute-force sum over the store: it emits
   * no document exactly when the customer has no order, and otherwise the sum
   * of the totals of all the customer's orders.
   */
  lemma AggregateTotalIsBruteForce(s: Snapshot, customerId: Long)
    requires Valid(s)
    ensures AggregateTotal(s, customerId).None? <==> Matching(s.orders, customerId) == {}
    ensures AggregateTotal(s, customerId).Some? ==> AggregateTotal(s, customerId).value == CustomerTotal(s.orders, customerId)
  {
    CustomerOrdersAgreeWithKeys(s, customerId);
  }

  /** `totalElements` of the repository page is the number of the customer's documents in the store. */
  lemma TotalElementsCountsCustomerOrders(s: Snapshot, customerId: Long, request: PageRequest)
    requires Valid(s) && request.size > 0
    ensures FindAllByCustomerId(s, customerId, request).totalElements == |Matching(s.orders, customerId)|
  {
    CustomerOrdersAgreeWithKeys(s, customerId);
  }

  /**
   * Paging covers every match: the customer's j-th order in retrieval order
   * is element `j % size` of page `j / size`.
   */
  lemma EveryMatchIsOnItsPage(s: Snapshot, customerId: Long, size: nat, j: nat)
    requires size > 0 && j < |CustomerOrders(s, customerId)|
    ensures var p := FindAllByCustomerId(s, customerId, PageRequest(j / size, size));
            j % size < |p.content| && p.content[j % size] == CustomerOrders(s, customerId)[j]
  {
    var xs := CustomerOrders(s, customerId);
    var request := PageRequest(j / size, size);
    DivModSplit(j, size);
    assert Offset(request) + j % size == j;
    var w := Window(xs, Offset(request), size);
    assert j % size < |w|;
  }

  /** The quotient and remainder of a division by a positive divisor recompose the dividend. */
  lemma DivModSplit(j: nat, size: nat)
    requires size > 0
    ensures j / size * size + j % size == j && j % size < size
  {
  }

  /** Inserting a new document adds its total to its customer's brute-force total. */
  lemma CustomerTotalAfterInsert(orders: map<Long, Order>, order: Order)
    requires order.orderId !in orders
    ensures CustomerTotal(orders[order.orderId := order], order.customerId)
         == CustomerTotal(orders, order.customerId) + order.total
  {
    var after := orders[order.orderId := order];
    var ks := Matching(after, order.customerId);
    assert ks - {order.orderId} == Matching(orders, order.customerId);
    SetSumRemove(after, ks, order.orderId);
    SetSumSameDocuments(after, orders, Matching(orders, order.customerId));
  }

  /** `SetSum` only looks at the documents under the keys it sums. */
  lemma {:induction false} SetSumSameDocuments(a: map<Long, Order>, b: map<Long, Order>, ks: set<Long>)
    requires ks <= a.Keys && ks <= b.Keys
    requires forall k :: k in ks ==> a[k] == b[k]
    ensures SetSum(a, ks) == SetSum(b, ks)
    decreases ks
  {
    if ks != {} {
      var k :| k in ks && SetSum(a, ks) == a[k].total + SetSum(a, ks - {k});
      SetSumRemove(b, ks, k);
      SetSumSameDocuments(a, b, ks - {k});
    }
  }
}
