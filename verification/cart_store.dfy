/** The client's cart store: an ordered list of cart lines keyed by product
    id, plus the drawer's open flag. Every action is a pure transition from
    one state to the next; persistence to local storage is not modelled. */
module CartStore {
  import opened Common

  /** One cart line. Prices are integers in the smallest currency unit. */
  datatype CartItem = CartItem(id: string, name: string, price: int, image: Option<string>, quantity: int)

  /** What `addItem` receives: a line without its quantity. */
  datatype NewItem = NewItem(id: string, name: string, price: int, image: Option<string>)

  datatype CartState = CartState(items: seq<CartItem>, isOpen: bool)

  const Initial: CartState := CartState([], false)

  predicate DistinctIds(items: seq<CartItem>) {
    forall i, j :: 0 <= i < j < |items| ==> items[i].id != items[j].id
  }

  /** The invariant every action keeps: ids are pairwise distinct and every
      quantity is at least 1. */
  predicate Valid(s: CartState) {
    && DistinctIds(s.items)
    && (forall i :: 0 <= i < |s.items| ==> s.items[i].quantity >= 1)
  }

  predicate HasId(items: seq<CartItem>, id: string) {
    exists k :: 0 <= k < |items| && items[k].id == id
  }

  /** Position of the first line with `id` (what `Array.find` returns). */
  function IndexOf(items: seq<CartItem>, id: string): (r: Option<nat>)
    ensures r.None? <==> !HasId(items, id)
    ensures r.Some? ==> r.value < |items| && items[r.value].id == id
    ensures r.Some? ==> forall j :: 0 <= j < r.value ==> items[j].id != id
  {
    if |items| == 0 then None
    else if items[0].id == id then Some(0)
    else match IndexOf(items[1..], id)
      case None =>
        assert forall k :: 1 <= k < |items| ==> items[k] == items[1..][k - 1];
        None
      case Some(k) => Some(k + 1)
  }

  /** The change one of the quantity-editing actions makes to a line. */
  datatype Adjust = Increment | Decrement | SetTo(q: int)

  function Adjusted(it: CartItem, adj: Adjust): CartItem {
    match adj
    case Increment => it.(quantity := it.quantity + 1)
    case Decrement => it.(quantity := it.quantity - 1)
    case SetTo(q) => it.(quantity := q)
  }

  /** `items.map(i => i.id === id ? {...i, quantity: …} : i)`. */
  function MapMatching(items: seq<CartItem>, id: string, adj: Adjust): (r: seq<CartItem>)
    ensures |r| == |items|
    ensures forall k :: 0 <= k < |items| ==>
              r[k] == if items[k].id == id then Adjusted(items[k], adj) else items[k]
  {
    if |items| == 0 then []
    else [if items[0].id == id then Adjusted(items[0], adj) else items[0]]
         + MapMatching(items[1..], id, adj)
  }

  /** `items.filter(i => i.id !== id)`. */
  function RemoveMatching(items: seq<CartItem>, id: string): seq<CartItem> {
    Filter(items, (i: CartItem) => i.id != id)
  }

  /** `addItem`: a known id gains one unit on its line (name, price and image
      of the argument are ignored); an unknown id is appended with quantity 1.
      Either way the cart opens. */
  function AddItem(s: CartState, item: NewItem): (r: CartState)
    ensures r.isOpen
    ensures HasId(s.items, item.id) ==>
              && |r.items| == |s.items|
              && forall k :: 0 <= k < |s.items| ==>
                   r.items[k] == if s.items[k].id == item.id
                                 then s.items[k].(quantity := s.items[k].quantity + 1)
                                 else s.items[k]
    ensures !HasId(s.items, item.id) ==>
              r.items == s.items + [CartItem(item.id, item.name, item.price, item.image, 1)]
  {
    if IndexOf(s.items, item.id).Some? then
      CartState(MapMatching(s.items, item.id, Increment), true)
    else
      CartState(s.items + [CartItem(item.id, item.name, item.price, item.image, 1)], true)
  }

  /** `removeItem(id, removeAll)`: an unknown id leaves the state as it is;
      otherwise the line goes when `removeAll` is set or the first matching
      line holds quantity 1, and loses one unit when not. `isOpen` is never
      touched. */
  function RemoveItem(s: CartState, id: string, removeAll: bool): (r: CartState)
    ensures !HasId(s.items, id) ==> r == s
    ensures r.isOpen == s.isOpen
    ensures HasId(s.items, id) && (removeAll || s.items[IndexOf(s.items, id).value].quantity == 1) ==>
              && IsSubsequence(r.items, s.items)
              && (forall k :: 0 <= k < |r.items| ==> r.items[k].id != id)
              && (forall k :: 0 <= k < |s.items| && s.items[k].id != id ==> s.items[k] in r.items)
    ensures HasId(s.items, id) && !(removeAll || s.items[IndexOf(s.items, id).value].quantity == 1) ==>
              && |r.items| == |s.items|
              && forall k :: 0 <= k < |s.items| ==>
                   r.items[k] == if s.items[k].id == id
                                 then s.items[k].(quantity := s.items[k].quantity - 1)
                                 else s.items[k]
  {
    match IndexOf(s.items, id)
    case None => s
    case Some(k) =>
      if removeAll || s.items[k].quantity == 1 then
        s.(items := RemoveMatching(s.items, id))
      else
        s.(items := MapMatching(s.items, id, Decrement))
  }

  /** `updateQuantity(id, q)`: a quantity below 1 is refused; otherwise every
      line with `id` takes quantity `q` and nothing else changes. */
  function UpdateQuantity(s: CartState, id: string, q: int): (r: CartState)
    ensures q < 1 ==> r == s
    ensures r.isOpen == s.isOpen
    ensures |r.items| == |s.items|
    ensures q >= 1 ==> forall k :: 0 <= k < |s.items| ==>
              r.items[k] == if s.items[k].id == id then s.items[k].(quantity := q) else s.items[k]
    ensures !HasId(s.items, id) ==> r == s
  {
    if q < 1 then s
    else
      var r := s.(items := MapMatching(s.items, id, SetTo(q)));
      assert !HasId(s.items, id) ==> r.items == s.items;
      r
  }

  function ClearCart(s: CartState): (r: CartState)
    ensures r.items == [] && r.isOpen == s.isOpen
  {
    s.(items := [])
  }

  function ToggleCart(s: CartState): (r: CartState)
    ensures r.isOpen != s.isOpen && r.items == s.items
  {
    s.(isOpen := !s.isOpen)
  }

  function OpenCart(s: CartState): (r: CartState)
    ensures r.isOpen && r.items == s.items
  {
    s.(isOpen := true)
  }

  function CloseCart(s: CartState): (r: CartState)
    ensures !r.isOpen && r.items == s.items
  {
    s.(isOpen := false)
  }

  function SumQuantity(items: seq<CartItem>): int {
    if |items| == 0 then 0 else items[0].quantity + SumQuantity(items[1..])
  }

  function SumValue(items: seq<CartItem>): int {
    if |items| == 0 then 0 else items[0].price * items[0].quantity + SumValue(items[1..])
  }

  /** `totalItems()`: the number of units in the cart. In a valid cart it is
      at least the number of lines. */
  function TotalItems(s: CartState): (n: int)
    ensures Valid(s) ==> n >= |s.items|
  {
    QuantityAtLeastLines(s.items);
    SumQuantity(s.items)
  }

  /** `totalPrice()`: the sum of price × quantity over the lines. */
  function TotalPrice(s: CartState): int {
    SumValue(s.items)
  }

  lemma {:induction false} QuantityAtLeastLines(items: seq<CartItem>)
    ensures (forall i :: 0 <= i < |items| ==> items[i].quantity >= 1) ==> SumQuantity(items) >= |items|
  {
    if |items| > 0 {
      QuantityAtLeastLines(items[1..]);
      assert (forall i :: 0 <= i < |items| ==> items[i].quantity >= 1) ==>
             (forall i :: 0 <= i < |items[1..]| ==> items[1..][i].quantity >= 1);
    }
  }

  // ---- Sums under the three shapes of change --------------------------------

  lemma {:induction false} SumsReplace(items: seq<CartItem>, k: nat, x: CartItem)
    requires k < |items|
    ensures SumQuantity(items[k := x]) == SumQuantity(items) - items[k].quantity + x.quantity
    ensures SumValue(items[k := x]) == SumValue(items) - items[k].price * items[k].quantity + x.price * x.quantity
  {
    if k > 0 {
      SumsReplace(items[1..], k - 1, x);
      assert items[k := x][1..] == items[1..][k - 1 := x];
    }
  }

  /** One more unit on line `k` adds one to the quantity and the line's
      price to the value. */
  lemma SumsIncrement(items: seq<CartItem>, k: nat)
    requires k < |items|
    ensures SumQuantity(items[k := Adjusted(items[k], Increment)]) == SumQuantity(items) + 1
    ensures SumValue(items[k := Adjusted(items[k], Increment)]) == SumValue(items) + items[k].price
  {
    SumsReplace(items, k, Adjusted(items[k], Increment));
    var p, q := items[k].price, items[k].quantity;
    assert p * (q + 1) == p * q + p;
  }

  /** One unit less on line `k` takes one off the quantity and the line's
      price off the value. */
  lemma SumsDecrement(items: seq<CartItem>, k: nat)
    requires k < |items|
    ensures SumQuantity(items[k := items[k].(quantity := items[k].quantity - 1)]) == SumQuantity(items) - 1
    ensures SumValue(items[k := items[k].(quantity := items[k].quantity - 1)]) == SumValue(items) - items[k].price
  {
    SumsReplace(items, k, items[k].(quantity := items[k].quantity - 1));
    var p, q := items[k].price, items[k].quantity;
    assert p * (q - 1) == p * q - p;
  }

  lemma {:induction false} SumsRemove(items: seq<CartItem>, k: nat)
    requires k < |items|
    ensures SumQuantity(items[..k] + items[k + 1..]) == SumQuantity(items) - items[k].quantity
    ensures SumValue(items[..k] + items[k + 1..]) == SumValue(items) - items[k].price * items[k].quantity
  {
    if k == 0 {
      assert items[..0] + items[1..] == items[1..];
    } else {
      SumsRemove(items[1..], k - 1);
      assert (items[..k] + items[k + 1..])[1..] == items[1..][..k - 1] + items[1..][k..];
    }
  }

  lemma {:induction false} SumsAppend(items: seq<CartItem>, x: CartItem)
    ensures SumQuantity(items + [x]) == SumQuantity(items) + x.quantity
    ensures SumValue(items + [x]) == SumValue(items) + x.price * x.quantity
  {
    if |items| > 0 {
      SumsAppend(items[1..], x);
      assert (items + [x])[1..] == items[1..] + [x];
    }
  }

  // ---- The map and the filter on a cart with distinct ids --------------------

  /** With distinct ids the `map` touches exactly one line. */
  lemma MapMatchingAt(items: seq<CartItem>, id: string, adj: Adjust, k: nat)
    requires DistinctIds(items) && k < |items| && items[k].id == id
    ensures MapMatching(items, id, adj) == items[k := Adjusted(items[k], adj)]
  {
  }

  /** With distinct ids the `filter` drops exactly one line. */
  lemma {:induction false} RemoveMatchingAt(items: seq<CartItem>, id: string, k: nat)
    requires DistinctIds(items) && k < |items| && items[k].id == id
    ensures RemoveMatching(items, id) == items[..k] + items[k + 1..]
  {
    var keep := (i: CartItem) => i.id != id;
    if k == 0 {
      FilterDropsHead(items, keep);
      assert items[..0] + items[1..] == items[1..];
    } else {
      var rest := items[1..];
      FilterKeepsHead(items, keep);
      DistinctTail(items);
      assert rest[k - 1] == items[k];
      RemoveMatchingAt(rest, id, k - 1);
      SpliceTail(items, k);
    }
  }

  lemma DistinctTail(items: seq<CartItem>)
    requires DistinctIds(items) && |items| > 0
    ensures DistinctIds(items[1..])
  {
  }

  /** With distinct ids the line found is the only line with that id. */
  lemma IndexOfDistinct(items: seq<CartItem>, id: string, k: nat)
    requires DistinctIds(items) && k < |items| && items[k].id == id
    ensures IndexOf(items, id) == Some(k)
  {
  }

  /** The filter leaves a list without `id` unchanged. */
  lemma RemoveMatchingAbsent(items: seq<CartItem>, id: string)
    requires !HasId(items, id)
    ensures RemoveMatching(items, id) == items
  {
    FilterAll(items, (i: CartItem) => i.id != id);
  }

  // ---- Precise effect of each action on a valid cart -------------------------

  /** `removeItem` on a valid cart: the matching line `k` disappears (the rest
      keep their order) or loses exactly one unit. */
  lemma RemoveItemAt(s: CartState, id: string, removeAll: bool, k: nat)
    requires Valid(s) && k < |s.items| && s.items[k].id == id
    ensures removeAll || s.items[k].quantity == 1 ==>
              RemoveItem(s, id, removeAll).items == s.items[..k] + s.items[k + 1..]
    ensures !(removeAll || s.items[k].quantity == 1) ==>
              RemoveItem(s, id, removeAll).items == s.items[k := s.items[k].(quantity := s.items[k].quantity - 1)]
  {
    IndexOfDistinct(s.items, id, k);
    if removeAll || s.items[k].quantity == 1 {
      RemoveMatchingAt(s.items, id, k);
    } else {
      MapMatchingAt(s.items, id, Decrement, k);
    }
  }

  /** Every action keeps ids distinct and quantities at least 1. */
  lemma AddItemValid(s: CartState, item: NewItem)
    requires Valid(s)
    ensures Valid(AddItem(s, item))
  {
  }

  lemma RemoveItemValid(s: CartState, id: string, removeAll: bool)
    requires Valid(s)
    ensures Valid(RemoveItem(s, id, removeAll))
  {
    if HasId(s.items, id) {
      var k := IndexOf(s.items, id).value;
      RemoveItemAt(s, id, removeAll, k);
      if removeAll || s.items[k].quantity == 1 {
        DeleteAtValid(s, k);
      }
    }
  }

  lemma DeleteAtValid(s: CartState, k: nat)
    requires Valid(s) && k < |s.items|
    ensures Valid(s.(items := s.items[..k] + s.items[k + 1..]))
  {
    var r := s.items[..k] + s.items[k + 1..];
    forall i | 0 <= i < |r| ensures r[i] == s.items[if i < k then i else i + 1] {
    }
  }

  lemma UpdateQuantityValid(s: CartState, id: string, q: int)
    requires Valid(s)
    ensures Valid(UpdateQuantity(s, id, q))
  {
  }

  /** Any `addItem` raises `totalItems` by exactly 1; `totalPrice` rises by
      the price already on the line, or by the new item's price. */
  lemma AddItemTotals(s: CartState, item: NewItem)
    requires Valid(s)
    ensures TotalItems(AddItem(s, item)) == TotalItems(s) + 1
    ensures HasId(s.items, item.id) ==>
              TotalPrice(AddItem(s, item)) == TotalPrice(s) + s.items[IndexOf(s.items, item.id).value].price
    ensures !HasId(s.items, item.id) ==> TotalPrice(AddItem(s, item)) == TotalPrice(s) + item.price
  {
    match IndexOf(s.items, item.id)
    case Some(k) =>
      MapMatchingAt(s.items, item.id, Increment, k);
      SumsIncrement(s.items, k);
    case None =>
      SumsAppend(s.items, CartItem(item.id, item.name, item.price, item.image, 1));
  }

  /** `removeItem` lowers `totalItems` by the whole line (when the line goes)
      or by exactly 1, and `totalPrice` accordingly. */
  lemma RemoveItemTotals(s: CartState, id: string, removeAll: bool, k: nat)
    requires Valid(s) && k < |s.items| && s.items[k].id == id
    ensures removeAll || s.items[k].quantity == 1 ==>
              && TotalItems(RemoveItem(s, id, removeAll)) == TotalItems(s) - s.items[k].quantity
              && TotalPrice(RemoveItem(s, id, removeAll)) == TotalPrice(s) - s.items[k].price * s.items[k].quantity
    ensures !(removeAll || s.items[k].quantity == 1) ==>
              && TotalItems(RemoveItem(s, id, removeAll)) == TotalItems(s) - 1
              && TotalPrice(RemoveItem(s, id, removeAll)) == TotalPrice(s) - s.items[k].price
  {
    RemoveItemAt(s, id, removeAll, k);
    if removeAll || s.items[k].quantity == 1 {
      SumsRemove(s.items, k);
    } else {
      SumsDecrement(s.items, k);
    }
  }

  /** `updateQuantity(id, q)` with q >= 1 moves `totalItems` by q minus the
      old quantity. */
  lemma UpdateQuantityTotals(s: CartState, id: string, q: int, k: nat)
    requires Valid(s) && k < |s.items| && s.items[k].id == id && q >= 1
    ensures UpdateQuantity(s, id, q).items == s.items[k := s.items[k].(quantity := q)]
    ensures TotalItems(UpdateQuantity(s, id, q)) == TotalItems(s) - s.items[k].quantity + q
    ensures TotalPrice(UpdateQuantity(s, id, q)) == TotalPrice(s) - s.items[k].price * s.items[k].quantity + s.items[k].price * q
  {
    MapMatchingAt(s.items, id, SetTo(q), k);
    SumsReplace(s.items, k, s.items[k].(quantity := q));
  }

  /** A cleared cart holds nothing and costs nothing. */
  lemma ClearCartTotals(s: CartState)
    ensures TotalItems(ClearCart(s)) == 0 && TotalPrice(ClearCart(s)) == 0
  {
  }

  /** Toggling twice is the identity. */
  lemma ToggleTwice(s: CartState)
    ensures ToggleCart(ToggleCart(s)) == s
  {
  }
}
