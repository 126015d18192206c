/**
 * The orders slice: the order total (a left fold over the order's product ids), the enrichment that
 * attaches it on load, the records the add/update thunks persist, and the slice's reducers.
 */
module Orders {
  import opened Wrappers
  import opened Lists
  import opened Entities

  // ---------------------------------------------------------------------------------------------
  // Order total

  /**
   * What one occurrence of `id` adds to a total: the price of the first product carrying that id,
   * or 0 when no product does.
   */
  function PriceOf(products: seq<Product>, id: Id): (r: int)
    ensures (forall j :: 0 <= j < |products| ==> products[j].id != id) ==> r == 0
    ensures forall k ::
              (0 <= k < |products| && products[k].id == id && forall j :: 0 <= j < k ==> products[j].id != id)
              ==> r == products[k].price
  {
    var k := FindIndex(products, ProductHasId(id));
    if k == -1 then 0 else products[k].price
  }

  /** Reference definition: the sum, over every occurrence of an id in `ids`, of what it contributes. */
  ghost function Sum(products: seq<Product>, ids: seq<Id>): int
  {
    if ids == [] then 0 else PriceOf(products, ids[0]) + Sum(products, ids[1..])
  }

  /**
   * `ids.reduce((total, id) => ..., total)`: the left fold the source runs. Started at `total`, it adds
   * exactly the reference sum.
   */
  function FoldTotal(products: seq<Product>, total: int, ids: seq<Id>): (r: int)
    ensures r == total + Sum(products, ids)
    decreases |ids|
  {
    if ids == [] then total
    else FoldTotal(products, total + PriceOf(products, ids[0]), ids[1..])
  }

  /**
   * The total of an order with product ids `ids` against the product list `products`
   * (calculateTotalPrice, and the same fold inlined in fetchOrders).
   */
  function TotalPrice(products: seq<Product>, ids: seq<Id>): (r: int)
    ensures r == Sum(products, ids)
  {
    FoldTotal(products, 0, ids)
  }

  /** The sum over a concatenation is the sum of the two parts. */
  lemma {:induction false} SumConcat(products: seq<Product>, a: seq<Id>, b: seq<Id>)
    ensures Sum(products, a + b) == Sum(products, a) + Sum(products, b)
    decreases |a|
  {
    if a == [] {
      assert a + b == b;
    } else {
      assert (a + b)[0] == a[0];
      assert (a + b)[1..] == a[1..] + b;
      SumConcat(products, a[1..], b);
    }
  }

  /** Appending one id adds exactly what that id contributes. */
  lemma SumAppend(products: seq<Product>, ids: seq<Id>, id: Id)
    ensures Sum(products, ids + [id]) == Sum(products, ids) + PriceOf(products, id)
  {
    SumConcat(products, ids, [id]);
    assert [id][1..] == [];
  }

  /** An id no product carries is no error: appending it leaves the total unchanged. */
  lemma UnknownIdAddsNothing(products: seq<Product>, ids: seq<Id>, id: Id)
    requires forall j :: 0 <= j < |products| ==> products[j].id != id
    ensures TotalPrice(products, ids + [id]) == TotalPrice(products, ids)
  {
    SumAppend(products, ids, id);
  }

  /** Appending the id of the first product `k` carrying it adds exactly that product's price. */
  lemma KnownIdAddsPrice(products: seq<Product>, ids: seq<Id>, k: nat)
    requires k < |products|
    requires forall j :: 0 <= j < k ==> products[j].id != products[k].id
    ensures TotalPrice(products, ids + [products[k].id]) == TotalPrice(products, ids) + products[k].price
  {
    SumAppend(products, ids, products[k].id);
  }

  /** With no negative price in the catalogue, no total is negative. */
  lemma {:induction false} TotalNonNegative(products: seq<Product>, ids: seq<Id>)
    requires forall j :: 0 <= j < |products| ==> products[j].price >= 0
    ensures TotalPrice(products, ids) >= 0
    decreases |ids|
  {
    if ids != [] {
      TotalNonNegative(products, ids[1..]);
    }
  }

  /**
   * Each occurrence is priced on its own: the total depends only on how many times each id occurs,
   * not on where.
   */
  lemma {:induction false} TotalDependsOnOccurrences(products: seq<Product>, a: seq<Id>, b: seq<Id>)
    requires multiset(a) == multiset(b)
    ensures TotalPrice(products, a) == TotalPrice(products, b)
    decreases |a|
  {
    if a == [] {
      assert |b| == |multiset(b)| == 0;
    } else {
      var x := a[0];
      assert x in multiset(b) by { assert x in multiset(a); }
      var i :| 0 <= i < |b| && b[i] == x;
      var rest := b[..i] + b[i + 1..];
      assert b == b[..i] + ([x] + b[i + 1..]);
      assert a == [x] + a[1..];
      assert multiset(a[1..]) == multiset(rest) by {
        assert multiset(b) == multiset(b[..i]) + multiset([x] + b[i + 1..]);
        assert multiset([x] + b[i + 1..]) == multiset{x} + multiset(b[i + 1..]);
        assert multiset(rest) == multiset(b[..i]) + multiset(b[i + 1..]);
        assert multiset(a) == multiset{x} + multiset(a[1..]);
        assert multiset(rest) == multiset(b) - multiset{x};
        assert multiset(a[1..]) == multiset(a) - multiset{x};
      }
      TotalDependsOnOccurrences(products, a[1..], rest);
      SumConcat(products, b[..i], [x] + b[i + 1..]);
      SumConcat(products, b[..i], b[i + 1..]);
      assert ([x] + b[i + 1..])[1..] == b[i + 1..];
    }
  }

  /** An order listing product 1 twice and product 2 once, priced 10 and 20, totals 40. */
  lemma TwoOfOneAndOneOfTwo()
    ensures TotalPrice([Product(1, "A", 10), Product(2, "B", 20)], [1, 2, 1]) == 40
  {
    var ps := [Product(1, "A", 10), Product(2, "B", 20)];
    assert PriceOf(ps, 1) == 10;
    assert PriceOf(ps, 2) == 20;
    assert [1, 2, 1][1..] == [2, 1] && [2, 1][1..] == [1] && [1][1..] == [];
  }

  // ---------------------------------------------------------------------------------------------
  // Records the thunks build

  /** `{ ...order, totalPrice }`: the order with its total set and every other field untouched. */
  function WithTotal(order: Order, products: seq<Product>): (r: Order)
    ensures r == order.(totalPrice := Some(Sum(products, order.productIds)))
  {
    order.(totalPrice := Some(TotalPrice(products, order.productIds)))
  }

  /**
   * fetchOrders: every fetched order with its total attached, same length and order;
   * product ids are kept as fetched, so ids no product carries survive the load.
   */
  function EnrichOrders(orders: seq<Order>, products: seq<Product>): (r: seq<Order>)
    ensures |r| == |orders|
    ensures forall i :: 0 <= i < |orders| ==>
              r[i] == orders[i].(totalPrice := Some(Sum(products, orders[i].productIds)))
    ensures forall i :: 0 <= i < |orders| ==> r[i].productIds == orders[i].productIds
  {
    seq(|orders|, i requires 0 <= i < |orders| => WithTotal(orders[i], products))
  }

  /** Loading twice against the same products gives what loading once gives. */
  lemma EnrichIdempotent(orders: seq<Order>, products: seq<Product>)
    ensures EnrichOrders(EnrichOrders(orders, products), products) == EnrichOrders(orders, products)
  {
  }

  /** addOrder: the order with its total and a creation stamp attached; every other field untouched. */
  function NewOrderRecord(order: Order, products: seq<Product>, now: string): (r: Order)
    ensures r == order.(totalPrice := Some(Sum(products, order.productIds)), createdAt := Some(now))
  {
    WithTotal(order, products).(createdAt := Some(now))
  }

  // ---------------------------------------------------------------------------------------------
  // The slice's state and reducers

  class OrdersState {
    var list: seq<Order>
    var loading: bool
    var selectedOrder: Option<Order>

    constructor ()
      ensures list == [] && !loading && selectedOrder == None
    {
      list, loading, selectedOrder := [], false, None;
    }

    /** selectOrder */
    method SelectOrder(payload: Option<Order>)
      modifies this
      ensures selectedOrder == payload
      ensures list == old(list) && loading == old(loading)
    {
      selectedOrder := payload;
    }

    /** fetchOrders.pending */
    method FetchOrdersPending()
      modifies this
      ensures loading
      ensures list == old(list) && selectedOrder == old(selectedOrder)
    {
      loading := true;
    }

    /** fetchOrders.fulfilled */
    method FetchOrdersFulfilled(payload: seq<Order>)
      modifies this
      ensures !loading && list == payload
      ensures selectedOrder == old(selectedOrder)
    {
      loading := false;
      list := payload;
    }

    /** addOrder.fulfilled: the stored order goes at the end. */
    method AddOrderFulfilled(payload: Order)
      modifies this
      ensures list == old(list) + [payload]
      ensures |list| == |old(list)| + 1 && list[..|old(list)|] == old(list)
      ensures loading == old(loading) && selectedOrder == old(selectedOrder)
    {
      list := list + [payload];
    }

    /**
     * updateOrderStatus.fulfilled: the first order with the payload's id is replaced by the payload,
     * and so is the selected order when it has that id; nothing changes when no order has it.
     */
    method UpdateOrderStatusFulfilled(payload: Order)
      modifies this
      ensures var k := FindIndex(old(list), OrderHasId(payload.id));
              if k == -1 then
                list == old(list) && selectedOrder == old(selectedOrder)
              else
                && list == old(list)[k := payload]
                && selectedOrder == (if old(selectedOrder).Some? && old(selectedOrder).value.id == payload.id
                                     then Some(payload) else old(selectedOrder))
      ensures |list| == |old(list)|
      ensures forall j :: 0 <= j < |list| && list[j] != old(list)[j] ==>
                list[j] == payload && old(list)[j].id == payload.id
      ensures loading == old(loading)
    {
      var index := FindIndex(list, OrderHasId(payload.id));
      if index != -1 {
        list := list[index := payload];
        if selectedOrder.Some? && selectedOrder.value.id == payload.id {
          selectedOrder := Some(payload);
        }
      }
    }

    /**
     * updateOrder.fulfilled: the same replacement as updateOrderStatus.fulfilled, for a full update.
     */
    method UpdateOrderFulfilled(payload: Order)
      modifies this
      ensures var k := FindIndex(old(list), OrderHasId(payload.id));
              if k == -1 then
                list == old(list) && selectedOrder == old(selectedOrder)
              else
                && list == old(list)[k := payload]
                && selectedOrder == (if old(selectedOrder).Some? && old(selectedOrder).value.id == payload.id
                                     then Some(payload) else old(selectedOrder))
      ensures |list| == |old(list)|
      ensures forall j :: 0 <= j < |list| && list[j] != old(list)[j] ==>
                list[j] == payload && old(list)[j].id == payload.id
      ensures loading == old(loading)
    {
      var index := FindIndex(list, OrderHasId(payload.id));
      if index != -1 {
        list := list[index := payload];
        if selectedOrder.Some? && selectedOrder.value.id == payload.id {
          selectedOrder := Some(payload);
        }
      }
    }
  }
}
