/** The deployed `/orders` routes: order placement as one transaction that
    stores the order and decrements stock line by line, the newest-first
    listings, and the status update. The transaction is all or nothing: any
    failing step leaves the store as it was and answers 500. The order's id
    and creation time come from outside. */
module OrderRoutes {
  import opened Common
  import opened Sorting
  import opened Db

  datatype ItemInput = ItemInput(productId: string, qty: int, price: int)

  /** The fields of a `POST /` body. `items` is `None` when absent. */
  datatype OrderBody = OrderBody(
    contact: Contact, items: Option<seq<ItemInput>>, totalAmount: int,
    paymentMode: Option<string>, userId: Option<string>)

  /** `items.map(...)`: one stored line per request item, in order. */
  function Lines(items: seq<ItemInput>): (r: seq<OrderItem>)
    ensures |r| == |items|
    ensures forall k :: 0 <= k < |items| ==> r[k] == OrderItem(items[k].productId, items[k].qty, items[k].price)
  {
    if |items| == 0 then [] else [OrderItem(items[0].productId, items[0].qty, items[0].price)] + Lines(items[1..])
  }

  // ---- Stock ledger ----------------------------------------------------------------

  /** `product.update({where: {id}, data: {stock: {decrement: qty}}})` on the
      table. */
  function Decrement(products: seq<Product>, id: string, qty: int): (r: seq<Product>)
    ensures |r| == |products|
    ensures forall i :: 0 <= i < |products| ==>
              r[i] == if products[i].id == id then products[i].(stock := products[i].stock - qty) else products[i]
  {
    seq(|products|, i requires 0 <= i < |products| =>
      if products[i].id == id then products[i].(stock := products[i].stock - qty) else products[i])
  }

  /** The stock loop: one decrement per item, in order; it fails when an
      item names a product that does not exist. */
  function DecrementAll(products: seq<Product>, items: seq<ItemInput>): Option<seq<Product>>
    decreases |items|
  {
    if |items| == 0 then Some(products)
    else if items[0].productId !in Keys(products, ProductId) then None
    else DecrementAll(Decrement(products, items[0].productId, items[0].qty), items[1..])
  }

  /** Total quantity the items order of product `id`. */
  function QtyFor(items: seq<ItemInput>, id: string): int {
    if |items| == 0 then 0
    else (if items[0].productId == id then items[0].qty else 0) + QtyFor(items[1..], id)
  }

  /** Every item names an existing product. */
  predicate AllKnown(products: seq<Product>, items: seq<ItemInput>) {
    forall k :: 0 <= k < |items| ==> items[k].productId in Keys(products, ProductId)
  }

  /** The ledger view of the loop: every product's stock drops by the total
      quantity ordered of it, all other fields stay. */
  predicate LedgerApplied(before: seq<Product>, after: seq<Product>, items: seq<ItemInput>) {
    && |after| == |before|
    && forall i :: 0 <= i < |before| ==>
         after[i] == before[i].(stock := before[i].stock - QtyFor(items, before[i].id))
  }

  /** The loop succeeds exactly when every item names an existing product,
      and then its effect is the ledger's. */
  lemma {:induction false} DecrementAllIsLedger(products: seq<Product>, items: seq<ItemInput>)
    ensures DecrementAll(products, items).Some? <==> AllKnown(products, items)
    ensures DecrementAll(products, items).Some? ==>
              LedgerApplied(products, DecrementAll(products, items).value, items)
    decreases |items|
  {
    if |items| > 0 {
      var it := items[0];
      var next := Decrement(products, it.productId, it.qty);
      SameKeys(products, next, ProductId);
      DecrementAllIsLedger(next, items[1..]);
      assert AllKnown(products, items) <==>
               it.productId in Keys(products, ProductId) && AllKnown(next, items[1..]) by {
        if it.productId in Keys(products, ProductId) && AllKnown(next, items[1..]) {
          forall k | 0 <= k < |items| ensures items[k].productId in Keys(products, ProductId) {
            if k > 0 {
              assert items[k] == items[1..][k - 1];
            }
          }
        }
      }
    }
  }

  /** A product no item names keeps its stock. */
  lemma {:induction false} QtyForUnnamed(items: seq<ItemInput>, id: string)
    requires forall k :: 0 <= k < |items| ==> items[k].productId != id
    ensures QtyFor(items, id) == 0
  {
    if |items| > 0 {
      QtyForUnnamed(items[1..], id);
    }
  }

  // ---- Placement -------------------------------------------------------------------

  /** The transaction of `POST /`: store the order (status `PENDING`, the
      given id and time, the lines as sent, `totalAmount` as sent) and
      decrement stock per item. It fails (500, nothing changes) when `items`
      is missing, the id is taken, the user does not exist, or an item names
      a missing product. Stock has no lower bound. */
  function Create(db: Store, body: OrderBody, id: string, now: int): (r: (Store, Response<Order>))
    ensures r.1.Failure? ==> r.0 == db && r.1 == Failure(500, "Failed to create order")
    ensures r.1.Success? <==>
              && body.items.Some?
              && id !in Keys(db.orders, OrderId)
              && (body.userId.Some? ==> body.userId.value in db.userIds)
              && AllKnown(db.products, body.items.value)
    ensures r.1.Success? ==>
              && r.1.code == 201
              && r.1.body == Order(id, body.contact, body.totalAmount, body.paymentMode, body.userId,
                                   PENDING, now, Lines(body.items.value))
              && r.0.orders == db.orders + [r.1.body]
              && LedgerApplied(db.products, r.0.products, body.items.value)
              && r.0.categories == db.categories && r.0.userIds == db.userIds
  {
    if body.items.None? || id in Keys(db.orders, OrderId) then (db, Failure(500, "Failed to create order"))
    else if body.userId.Some? && body.userId.value !in db.userIds then (db, Failure(500, "Failed to create order"))
    else
      var items := body.items.value;
      DecrementAllIsLedger(db.products, items);
      match DecrementAll(db.products, items)
      case None => (db, Failure(500, "Failed to create order"))
      case Some(products) =>
        var o := Order(id, body.contact, body.totalAmount, body.paymentMode, body.userId, PENDING, now, Lines(items));
        (db.(orders := db.orders + [o], products := products), Success(201, o))
  }

  /** Nothing stops stock from going below zero: a product with no stock
      left still takes an order of one. */
  lemma StockCanGoNegative()
    ensures var p := Product("p", "Fern", "fern", None, 100, 0, "c", [], []);
            var db := Store([Category("c", "Ferns", "ferns", None, None)], [p], [], {});
            var body := OrderBody(Contact(None, None, None, None, None, None), Some([ItemInput("p", 1, 100)]), 100, None, None);
            var r := Create(db, body, "o", 0);
            r.1.Success? && r.0.products[0].stock == -1
  {
    var p := Product("p", "Fern", "fern", None, 100, 0, "c", [], []);
    assert "p" in Keys([p], ProductId) by {
      assert ProductId([p][0]) == "p";
    }
  }

  // ---- Listings --------------------------------------------------------------------

  /** `orderBy: {createdAt: 'desc'}`. */
  predicate NewerFirst(a: Order, b: Order) { a.createdAt >= b.createdAt }

  lemma NewerFirstIsTotalPreorder()
    ensures IsTotalPreorder(NewerFirst)
  {
  }

  /** `GET /`: every order, newest first. */
  function ListAll(db: Store): (r: Response<seq<Order>>)
    ensures r.Success? && r.code == 200
    ensures SortedBy(r.body, NewerFirst)
    ensures multiset(r.body) == multiset(db.orders)
  {
    NewerFirstIsTotalPreorder();
    Success(200, SortBy(db.orders, NewerFirst))
  }

  /** `GET /user/:userId`: that user's orders, newest first. */
  function ListByUser(db: Store, userId: string): (r: Response<seq<Order>>)
    ensures r.Success? && r.code == 200
    ensures SortedBy(r.body, NewerFirst)
    ensures forall i :: 0 <= i < |r.body| ==> r.body[i].userId == Some(userId)
    ensures multiset(r.body) == multiset(Filter(db.orders, (o: Order) => o.userId == Some(userId)))
  {
    NewerFirstIsTotalPreorder();
    var mine := Filter(db.orders, (o: Order) => o.userId == Some(userId));
    var sorted := SortBy(mine, NewerFirst);
    forall i | 0 <= i < |sorted| ensures sorted[i].userId == Some(userId) {
      assert sorted[i] in multiset(mine);
      var j :| 0 <= j < |mine| && mine[j] == sorted[i];
    }
    Success(200, sorted)
  }

  /** An order appears in the user listing exactly when it is stored with
      that user. */
  lemma ListByUserMembers(db: Store, userId: string, o: Order)
    ensures o in ListByUser(db, userId).body <==> o in db.orders && o.userId == Some(userId)
  {
    var mine := Filter(db.orders, (o: Order) => o.userId == Some(userId));
    var r := ListByUser(db, userId).body;
    assert o in r <==> o in multiset(mine);
    if o in mine {
      var j :| 0 <= j < |mine| && mine[j] == o;
      SubsequenceMembers(mine, db.orders, j);
    }
  }

  // ---- Status --------------------------------------------------------------------

  /** `PUT /:id/status`: the order with that id takes the status and is
      answered with 200; a text outside the enumeration or a missing order is
      a 500 that stores nothing. Only that order's status changes. A body
      without `status` asks the database to change nothing, so an existing
      order is answered unchanged with 200. */
  function UpdateStatus(db: Store, id: string, status: Option<string>): (r: (Store, Response<Order>))
    ensures r.1.Failure? ==> r.0 == db && r.1 == Failure(500, "Failed to update order status")
    ensures r.1.Success? <==> id in Keys(db.orders, OrderId) && (status.None? || ParseStatus(status.value).Some?)
    ensures r.1.Success? && status.None? ==>
              r.0 == db && r.1.code == 200 && r.1.body in db.orders && r.1.body.id == id
    ensures r.1.Success? && status.Some? ==>
              && r.1.code == 200 && r.1.body.id == id
              && StatusName(r.1.body.status) == status.value
              && |r.0.orders| == |db.orders|
              && (forall i :: 0 <= i < |db.orders| ==>
                    r.0.orders[i] == if db.orders[i].id == id then db.orders[i].(status := r.1.body.status) else db.orders[i])
              && r.0.products == db.products && r.0.categories == db.categories && r.0.userIds == db.userIds
  {
    match Find(db.orders, OrderId, id)
    case None => (db, Failure(500, "Failed to update order status"))
    case Some(k) =>
      if status.None? then (db, Success(200, db.orders[k]))
      else match ParseStatus(status.value)
        case None => (db, Failure(500, "Failed to update order status"))
        case Some(st) =>
          var orders := seq(|db.orders|, i requires 0 <= i < |db.orders| =>
                              if db.orders[i].id == id then db.orders[i].(status := st) else db.orders[i]);
          (db.(orders := orders), Success(200, db.orders[k].(status := st)))
  }

  /** Sending the same status twice stores what sending it once does, and
      the second answer carries that status. */
  lemma UpdateStatusTwice(db: Store, id: string, status: Option<string>)
    ensures var once := UpdateStatus(db, id, status);
            && UpdateStatus(once.0, id, status).0 == once.0
            && (once.1.Success? ==> UpdateStatus(once.0, id, status).1.Success?)
  {
    var once := UpdateStatus(db, id, status);
    if once.1.Success? && status.Some? {
      SameKeys(db.orders, once.0.orders, OrderId);
      var twice := UpdateStatus(once.0, id, status);
      assert |twice.0.orders| == |once.0.orders|;
      forall i | 0 <= i < |once.0.orders| ensures twice.0.orders[i] == once.0.orders[i] {
      }
    }
  }

  // ---- Store invariant ------------------------------------------------------------

  lemma CreateKeepsValid(db: Store, body: OrderBody, id: string, now: int)
    requires Valid(db)
    ensures Valid(Create(db, body, id, now).0)
  {
    var r := Create(db, body, id, now);
    if r.1.Success? {
      var o := r.1.body;
      AppendFresh(db.orders, OrderId, o);
      SameKeys(db.products, r.0.products, ProductId);
      SameKeys(db.products, r.0.products, ProductSlug);
      var orders := r.0.orders;
      forall i, k | 0 <= i < |orders| && 0 <= k < |orders[i].items|
        ensures orders[i].items[k].productId in Keys(r.0.products, ProductId)
      {
        if i == |db.orders| {
          assert orders[i].items[k].productId == body.items.value[k].productId;
        } else {
          assert orders[i] == db.orders[i];
        }
      }
      forall i | 0 <= i < |orders| && orders[i].userId.Some? ensures orders[i].userId.value in r.0.userIds {
        if i < |db.orders| {
          assert orders[i] == db.orders[i];
        }
      }
    }
  }

  lemma UpdateStatusKeepsValid(db: Store, id: string, status: Option<string>)
    requires Valid(db)
    ensures Valid(UpdateStatus(db, id, status).0)
  {
    var r := UpdateStatus(db, id, status);
    if r.1.Success? && status.Some? {
      SameKeys(db.orders, r.0.orders, OrderId);
    }
  }
}
