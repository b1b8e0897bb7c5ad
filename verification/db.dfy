/** The server's database as plain sequences of rows, with the constraints
    the routes rely on: unique ids, unique slugs for categories and
    products, and the foreign keys from products to categories, from order
    lines to products and from orders to users. A write that would break one
    of them fails, as the database would refuse it. */
module Db {
  import opened Common

  /** The `OrderStatus` enumeration. */
  datatype Status = PENDING | SHIPPED | DELIVERED | CANCELLED

  function StatusName(s: Status): string {
    match s
    case PENDING => "PENDING"
    case SHIPPED => "SHIPPED"
    case DELIVERED => "DELIVERED"
    case CANCELLED => "CANCELLED"
  }

  /** The database accepts exactly the four enumeration names as a status. */
  function ParseStatus(s: string): (r: Option<Status>)
    ensures r.Some? ==> StatusName(r.value) == s
    ensures r.None? ==> forall st: Status :: StatusName(st) != s
  {
    match s
    case "PENDING" => Some(PENDING)
    case "SHIPPED" => Some(SHIPPED)
    case "DELIVERED" => Some(DELIVERED)
    case "CANCELLED" => Some(CANCELLED)
    case _ => None
  }

  lemma ParseStatusName(st: Status)
    ensures ParseStatus(StatusName(st)) == Some(st)
  {
  }

  datatype Category = Category(
    id: string, name: string, slug: string, image: Option<string>, description: Option<string>)

  datatype Product = Product(
    id: string, name: string, slug: string, description: Option<string>,
    price: int, stock: int, categoryId: string, images: seq<string>, tags: seq<string>)

  datatype OrderItem = OrderItem(productId: string, qty: int, price: int)

  /** The delivery details of an order, stored as sent. */
  datatype Contact = Contact(
    customerName: Option<string>, phone: Option<string>, whatsapp: Option<string>,
    address: Option<string>, city: Option<string>, pincode: Option<string>)

  datatype Order = Order(
    id: string, contact: Contact, totalAmount: int, paymentMode: Option<string>,
    userId: Option<string>, status: Status, createdAt: int, items: seq<OrderItem>)

  datatype Store = Store(
    categories: seq<Category>, products: seq<Product>, orders: seq<Order>, userIds: set<string>)

  /** An HTTP answer: a status code with a body, or a status code with the
      route's error message. */
  datatype Response<T> = Success(code: nat, body: T) | Failure(code: nat, error: string)

  // ---- Keys ---------------------------------------------------------------------

  function CategoryId(c: Category): string { c.id }
  function CategorySlug(c: Category): string { c.slug }
  function ProductId(p: Product): string { p.id }
  function ProductSlug(p: Product): string { p.slug }
  function OrderId(o: Order): string { o.id }

  /** The values a key takes over a table. */
  function Keys<T>(s: seq<T>, key: T -> string): set<string> {
    set i | 0 <= i < |s| :: key(s[i])
  }

  /** No two rows share a key value. */
  predicate Unique<T>(s: seq<T>, key: T -> string) {
    forall i, j :: 0 <= i < |s| && 0 <= j < |s| && i != j ==> key(s[i]) != key(s[j])
  }

  /** The position of the row with key `k`, if any. */
  function Find<T>(s: seq<T>, key: T -> string, k: string): (r: Option<nat>)
    ensures r.Some? ==> r.value < |s| && key(s[r.value]) == k
    ensures r.None? <==> k !in Keys(s, key)
  {
    if |s| == 0 then None
    else if key(s[0]) == k then Some(0)
    else
      var r := Find(s[1..], key, k);
      assert Keys(s, key) == {key(s[0])} + Keys(s[1..], key) by {
        forall x | x in Keys(s, key) ensures x in {key(s[0])} + Keys(s[1..], key) {
          var i :| 0 <= i < |s| && key(s[i]) == x;
          if i > 0 {
            assert key(s[1..][i - 1]) == x;
          }
        }
      }
      if r.Some? then Some(r.value + 1) else None
  }

  /** With unique keys, the row found is the only row with that key. */
  lemma FindUnique<T>(s: seq<T>, key: T -> string, k: string, i: nat)
    requires Unique(s, key) && i < |s| && key(s[i]) == k
    ensures Find(s, key, k) == Some(i)
  {
  }

  /** Appending a row with a fresh key keeps keys unique and adds that key. */
  lemma AppendFresh<T>(s: seq<T>, key: T -> string, x: T)
    requires Unique(s, key) && key(x) !in Keys(s, key)
    ensures Unique(s + [x], key)
    ensures Keys(s + [x], key) == Keys(s, key) + {key(x)}
  {
    var t := s + [x];
    forall i, j | 0 <= i < |t| && 0 <= j < |t| && i != j ensures key(t[i]) != key(t[j]) {
      if i < |s| && j < |s| {
      } else if i < |s| {
        assert key(t[i]) in Keys(s, key);
      } else {
        assert key(t[j]) in Keys(s, key);
      }
    }
    assert Keys(t, key) == Keys(s, key) + {key(x)} by {
      forall y | y in Keys(t, key) ensures y in Keys(s, key) + {key(x)} {
        var i :| 0 <= i < |t| && key(t[i]) == y;
        if i < |s| {
          assert key(s[i]) == y;
        }
      }
      assert key(t[|s|]) == key(x);
      forall y | y in Keys(s, key) ensures y in Keys(t, key) {
        var i :| 0 <= i < |s| && key(s[i]) == y;
        assert key(t[i]) == y;
      }
    }
  }

  /** Rows changed in place without touching the key keep the same key set
      and keep keys unique. */
  lemma SameKeys<T>(s: seq<T>, t: seq<T>, key: T -> string)
    requires |s| == |t| && forall i :: 0 <= i < |s| ==> key(t[i]) == key(s[i])
    ensures Keys(t, key) == Keys(s, key)
    ensures Unique(s, key) ==> Unique(t, key)
  {
    forall y | y in Keys(t, key) ensures y in Keys(s, key) {
      var i :| 0 <= i < |t| && key(t[i]) == y;
      assert key(s[i]) == y;
    }
    forall y | y in Keys(s, key) ensures y in Keys(t, key) {
      var i :| 0 <= i < |s| && key(s[i]) == y;
      assert key(t[i]) == y;
    }
  }

  /** Removing row `k` from a table with unique keys keeps the rest unique and
      drops exactly that row's key. */
  lemma RemoveAt<T>(s: seq<T>, key: T -> string, k: nat)
    requires Unique(s, key) && k < |s|
    ensures Unique(s[..k] + s[k + 1..], key)
    ensures Keys(s[..k] + s[k + 1..], key) == Keys(s, key) - {key(s[k])}
  {
    var t := s[..k] + s[k + 1..];
    assert forall i :: 0 <= i < |t| ==> t[i] == s[if i < k then i else i + 1];
    forall y | y in Keys(t, key) ensures y in Keys(s, key) - {key(s[k])} {
      var i :| 0 <= i < |t| && key(t[i]) == y;
      assert key(s[if i < k then i else i + 1]) == y;
    }
    forall y | y in Keys(s, key) - {key(s[k])} ensures y in Keys(t, key) {
      var i :| 0 <= i < |s| && key(s[i]) == y;
      assert key(t[if i < k then i else i - 1]) == y;
    }
  }

  /** Dropping the first row keeps keys unique. */
  lemma UniqueTail<T>(s: seq<T>, key: T -> string)
    requires Unique(s, key) && |s| > 0
    ensures Unique(s[1..], key)
  {
    var rest := s[1..];
    forall i, j | 0 <= i < |rest| && 0 <= j < |rest| && i != j ensures key(rest[i]) != key(rest[j]) {
      assert rest[i] == s[i + 1] && rest[j] == s[j + 1];
    }
  }

  /** Filtering out key `k` from a table with unique keys cuts out exactly
      the row at position `idx` that has it. */
  lemma {:induction false} FilterOutKey<T>(s: seq<T>, key: T -> string, keep: T -> bool, idx: nat)
    requires Unique(s, key) && idx < |s|
    requires forall i :: 0 <= i < |s| ==> keep(s[i]) == (key(s[i]) != key(s[idx]))
    ensures Filter(s, keep) == s[..idx] + s[idx + 1..]
  {
    if idx == 0 {
      FilterDropsHead(s, keep);
      assert s[..0] + s[1..] == s[1..];
    } else {
      var rest := s[1..];
      UniqueTail(s, key);
      assert keep(s[0]);
      forall i | 0 <= i < |rest| ensures keep(rest[i]) == (key(rest[i]) != key(rest[idx - 1])) {
        assert rest[i] == s[i + 1];
      }
      FilterOutKey(rest, key, keep, idx - 1);
      FilterKeepsHead(s, keep);
      SpliceTail(s, idx);
    }
  }

  // ---- Store invariant ------------------------------------------------------------

  /** Every product points at an existing category. */
  predicate ProductsLinked(db: Store) {
    forall i :: 0 <= i < |db.products| ==> db.products[i].categoryId in Keys(db.categories, CategoryId)
  }

  /** Every order line points at an existing product. */
  predicate LinesLinked(db: Store) {
    forall i, k :: 0 <= i < |db.orders| && 0 <= k < |db.orders[i].items| ==>
      db.orders[i].items[k].productId in Keys(db.products, ProductId)
  }

  /** Every order with a user points at an existing user. */
  predicate UsersLinked(db: Store) {
    forall i :: 0 <= i < |db.orders| && db.orders[i].userId.Some? ==> db.orders[i].userId.value in db.userIds
  }

  /** The constraints the database enforces. */
  predicate Valid(db: Store) {
    && Unique(db.categories, CategoryId) && Unique(db.categories, CategorySlug)
    && Unique(db.products, ProductId) && Unique(db.products, ProductSlug)
    && Unique(db.orders, OrderId)
    && ProductsLinked(db) && LinesLinked(db) && UsersLinked(db)
  }

  /** Some product points at category `id`. */
  predicate CategoryInUse(db: Store, id: string) {
    exists i :: 0 <= i < |db.products| && db.products[i].categoryId == id
  }

  /** Some order line points at product `id`. */
  predicate ProductInUse(db: Store, id: string) {
    exists i, k :: 0 <= i < |db.orders| && 0 <= k < |db.orders[i].items| && db.orders[i].items[k].productId == id
  }
}
