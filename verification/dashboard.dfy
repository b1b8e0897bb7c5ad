/** `GET /admin/dashboard`: four aggregates over the store. The revenue
    aggregate is the database's `_sum`, which is `null` over no rows; the
    route turns that into 0. */
module Dashboard {
  import opened Common
  import opened Db

  datatype Stats = Stats(totalOrders: nat, totalRevenue: int, pendingOrders: nat, lowStockProducts: nat)

  predicate Counted(o: Order) { o.status != CANCELLED }

  /** `aggregate({_sum: {totalAmount}, where: {status: {not: 'CANCELLED'}}})`:
      no value when no order qualifies, otherwise the sum over those that
      do. */
  function RevenueAggregate(orders: seq<Order>): (r: Option<int>)
    ensures r.None? <==> forall i :: 0 <= i < |orders| ==> !Counted(orders[i])
  {
    if |orders| == 0 then None
    else
      var rest := RevenueAggregate(orders[1..]);
      assert forall i :: 1 <= i < |orders| ==> orders[i] == orders[1..][i - 1];
      if !Counted(orders[0]) then rest
      else Some(orders[0].totalAmount + rest.GetOr(0))
  }

  /** The plain sum of `totalAmount` over non-cancelled orders. */
  function Revenue(orders: seq<Order>): int {
    if |orders| == 0 then 0
    else (if Counted(orders[0]) then orders[0].totalAmount else 0) + Revenue(orders[1..])
  }

  /** `_sum.totalAmount || 0` is the plain sum: the `null` of an empty
      aggregate and a zero sum both read as 0. */
  lemma {:induction false} AggregateIsRevenue(orders: seq<Order>)
    ensures RevenueAggregate(orders).GetOr(0) == Revenue(orders)
  {
    if |orders| > 0 {
      AggregateIsRevenue(orders[1..]);
    }
  }

  /** `count({where: {status: 'PENDING'}})` counts the orders this holds for. */
  predicate IsPending(o: Order) { o.status == PENDING }

  /** `count({where: {stock: {lte: 5}}})` counts the products this holds
      for, negative stock included. */
  predicate IsLowStock(p: Product) { p.stock <= 5 }

  /** The dashboard answer: every order, the pending ones, the products with
      stock at most 5, and the revenue summed over non-cancelled orders. */
  function Compute(db: Store): (r: Response<Stats>)
    ensures r.Success? && r.code == 200
    ensures r.body.totalOrders == |db.orders|
    ensures r.body.pendingOrders == CountWhere(db.orders, IsPending) <= r.body.totalOrders
    ensures r.body.lowStockProducts == CountWhere(db.products, IsLowStock) <= |db.products|
    ensures r.body.totalRevenue == Revenue(db.orders)
  {
    AggregateIsRevenue(db.orders);
    Success(200, Stats(|db.orders|, RevenueAggregate(db.orders).GetOr(0),
                       CountWhere(db.orders, IsPending), CountWhere(db.products, IsLowStock)))
  }

  /** Adding one order moves the counts by exactly that order. */
  lemma {:induction false} AppendOrder(orders: seq<Order>, o: Order)
    ensures Revenue(orders + [o]) == Revenue(orders) + (if Counted(o) then o.totalAmount else 0)
    ensures CountWhere(orders + [o], IsPending) == CountWhere(orders, IsPending) + (if IsPending(o) then 1 else 0)
  {
    if |orders| > 0 {
      assert (orders + [o])[1..] == orders[1..] + [o];
      AppendOrder(orders[1..], o);
    } else {
      assert [o][1..] == [];
    }
  }

  /** Over cancelled orders alone the aggregate is `null` and the revenue
      reads 0. */
  lemma {:induction false} RevenueIgnoresCancelled(orders: seq<Order>)
    requires forall i :: 0 <= i < |orders| ==> orders[i].status == CANCELLED
    ensures Revenue(orders) == 0 && RevenueAggregate(orders).None?
  {
    if |orders| > 0 {
      RevenueIgnoresCancelled(orders[1..]);
    }
  }
}
