/** The cart drawer: the −/+/trash buttons on each line, the checkout form
    and its pre-fill from the signed-in user, the order payload it posts, and
    the cart → checkout → success view machine. The POST itself is an
    outcome supplied from outside (`postOk`). */
module CartDrawer {
  import opened Common
  import opened CartStore
  import opened AuthStore

  datatype CheckoutForm = CheckoutForm(
    customerName: string, phone: string, whatsapp: string,
    address: string, city: string, pincode: string)

  const EmptyForm: CheckoutForm := CheckoutForm("", "", "", "", "", "")

  datatype Field = CustomerName | Phone | Whatsapp | Address | City | Pincode

  function GetField(f: CheckoutForm, name: Field): string {
    match name
    case CustomerName => f.customerName
    case Phone => f.phone
    case Whatsapp => f.whatsapp
    case Address => f.address
    case City => f.city
    case Pincode => f.pincode
  }

  /** `handleInputChange`: `{...prev, [name]: value}`. */
  function SetField(f: CheckoutForm, name: Field, value: string): (r: CheckoutForm)
    ensures forall g :: GetField(r, g) == if g == name then value else GetField(f, g)
  {
    match name
    case CustomerName => f.(customerName := value)
    case Phone => f.(phone := value)
    case Whatsapp => f.(whatsapp := value)
    case Address => f.(address := value)
    case City => f.(city := value)
    case Pincode => f.(pincode := value)
  }

  /** JavaScript `a || b` on strings: `a` unless it is empty. */
  function OrElse(a: string, b: string): string {
    if a != "" then a else b
  }

  /** The pre-fill effect: with a user present, every empty field takes the
      user's value (or stays empty); non-empty fields are kept; `whatsapp`
      never comes from the user. Without a user nothing happens. */
  function PreFill(prev: CheckoutForm, user: Option<User>): (r: CheckoutForm)
    ensures user.None? ==> r == prev
    ensures r.whatsapp == prev.whatsapp
    ensures forall g :: GetField(prev, g) != "" ==> GetField(r, g) == GetField(prev, g)
    ensures user.Some? ==>
              && (prev.customerName == "" ==> r.customerName == user.value.name)
              && (prev.phone == "" ==> r.phone == user.value.phone.GetOr(""))
              && (prev.address == "" ==> r.address == user.value.address.GetOr(""))
              && (prev.city == "" ==> r.city == user.value.city.GetOr(""))
              && (prev.pincode == "" ==> r.pincode == user.value.pincode.GetOr(""))
  {
    match user
    case None => prev
    case Some(u) =>
      CheckoutForm(
        OrElse(prev.customerName, OrElse(u.name, "")),
        OrElse(prev.phone, u.phone.GetOr("")),
        OrElse(prev.whatsapp, ""),
        OrElse(prev.address, u.address.GetOr("")),
        OrElse(prev.city, u.city.GetOr("")),
        OrElse(prev.pincode, u.pincode.GetOr("")))
  }

  /** Re-running the effect for the same user changes nothing more. */
  lemma PreFillIdempotent(prev: CheckoutForm, user: Option<User>)
    ensures PreFill(PreFill(prev, user), user) == PreFill(prev, user)
  {
  }

  // ---- Line buttons -----------------------------------------------------------

  /** The minus button on line `k`: above 1 it asks for quantity − 1, at 1 it
      calls `removeItem` without `removeAll`. */
  function MinusButton(cart: CartState, k: nat): CartState
    requires k < |cart.items|
  {
    var line := cart.items[k];
    if line.quantity > 1 then UpdateQuantity(cart, line.id, line.quantity - 1)
    else RemoveItem(cart, line.id, false)
  }

  /** The plus button on line `k`: asks for quantity + 1. */
  function PlusButton(cart: CartState, k: nat): CartState
    requires k < |cart.items|
  {
    UpdateQuantity(cart, cart.items[k].id, cart.items[k].quantity + 1)
  }

  /** The trash button on line `k`: `removeItem(id, true)`. */
  function TrashButton(cart: CartState, k: nat): CartState
    requires k < |cart.items|
  {
    RemoveItem(cart, cart.items[k].id, true)
  }

  /** On a valid cart the minus button takes one unit off line `k` and, at
      quantity 1, removes the line; either way `totalItems` drops by 1. */
  lemma MinusButtonEffect(cart: CartState, k: nat)
    requires Valid(cart) && k < |cart.items|
    ensures cart.items[k].quantity > 1 ==>
              MinusButton(cart, k).items == cart.items[k := cart.items[k].(quantity := cart.items[k].quantity - 1)]
    ensures cart.items[k].quantity == 1 ==>
              MinusButton(cart, k).items == cart.items[..k] + cart.items[k + 1..]
    ensures TotalItems(MinusButton(cart, k)) == TotalItems(cart) - 1
    ensures Valid(MinusButton(cart, k))
  {
    var line := cart.items[k];
    if line.quantity > 1 {
      UpdateQuantityTotals(cart, line.id, line.quantity - 1, k);
      UpdateQuantityValid(cart, line.id, line.quantity - 1);
    } else {
      RemoveItemTotals(cart, line.id, false, k);
      RemoveItemAt(cart, line.id, false, k);
      RemoveItemValid(cart, line.id, false);
    }
  }

  /** The plus button adds one unit to line `k` only. */
  lemma PlusButtonEffect(cart: CartState, k: nat)
    requires Valid(cart) && k < |cart.items|
    ensures PlusButton(cart, k).items == cart.items[k := cart.items[k].(quantity := cart.items[k].quantity + 1)]
    ensures TotalItems(PlusButton(cart, k)) == TotalItems(cart) + 1
    ensures Valid(PlusButton(cart, k))
  {
    UpdateQuantityTotals(cart, cart.items[k].id, cart.items[k].quantity + 1, k);
    UpdateQuantityValid(cart, cart.items[k].id, cart.items[k].quantity + 1);
  }

  /** The trash button removes line `k` whatever its quantity. */
  lemma TrashButtonEffect(cart: CartState, k: nat)
    requires Valid(cart) && k < |cart.items|
    ensures TrashButton(cart, k).items == cart.items[..k] + cart.items[k + 1..]
    ensures TotalItems(TrashButton(cart, k)) == TotalItems(cart) - cart.items[k].quantity
    ensures Valid(TrashButton(cart, k))
  {
    RemoveItemAt(cart, cart.items[k].id, true, k);
    RemoveItemTotals(cart, cart.items[k].id, true, k);
    RemoveItemValid(cart, cart.items[k].id, true);
  }

  // ---- Checkout payload ------------------------------------------------------

  datatype PayloadLine = PayloadLine(productId: string, qty: int, price: int)

  /** The body of `POST /orders`: the form fields spread in, one line per
      cart line, the cart total, the payment mode and the user id. */
  datatype OrderPayload = OrderPayload(
    form: CheckoutForm, items: seq<PayloadLine>, totalAmount: int,
    paymentMode: string, userId: Option<string>)

  const CashOnDelivery: string := "COD"

  /** `items.map(item => ({productId: item.id, qty: item.quantity, price: item.price}))`. */
  function PayloadLines(items: seq<CartItem>): (r: seq<PayloadLine>)
    ensures |r| == |items|
    ensures forall k :: 0 <= k < |items| ==>
              r[k] == PayloadLine(items[k].id, items[k].quantity, items[k].price)
  {
    if |items| == 0 then [] else [PayloadLine(items[0].id, items[0].quantity, items[0].price)] + PayloadLines(items[1..])
  }

  /** Sum of qty × price over payload lines. */
  function LinesValue(lines: seq<PayloadLine>): int {
    if |lines| == 0 then 0 else lines[0].qty * lines[0].price + LinesValue(lines[1..])
  }

  /** The payload's lines are worth exactly what the cart is worth. */
  lemma {:induction false} PayloadLinesValue(items: seq<CartItem>)
    ensures LinesValue(PayloadLines(items)) == SumValue(items)
  {
    if |items| > 0 {
      PayloadLinesValue(items[1..]);
      assert PayloadLines(items)[1..] == PayloadLines(items[1..]);
      assert items[0].quantity * items[0].price == items[0].price * items[0].quantity;
    }
  }

  /** `user?.id || null`. */
  function PayloadUserId(user: Option<User>): (r: Option<string>)
    ensures r.Some? <==> user.Some? && user.value.id != ""
    ensures r.Some? ==> r.value == user.value.id
  {
    if user.Some? && user.value.id != "" then Some(user.value.id) else None
  }

  /** `handleCheckout`'s payload: one line per cart line in cart order, a
      `totalAmount` equal to the value of those very lines, cash on delivery,
      and the user's id when there is one. */
  function BuildPayload(cart: CartState, form: CheckoutForm, user: Option<User>): (p: OrderPayload)
    ensures p.form == form
    ensures |p.items| == |cart.items|
    ensures forall k :: 0 <= k < |cart.items| ==>
              p.items[k] == PayloadLine(cart.items[k].id, cart.items[k].quantity, cart.items[k].price)
    ensures p.totalAmount == LinesValue(p.items)
    ensures p.paymentMode == "COD"
    ensures p.userId == PayloadUserId(user)
  {
    PayloadLinesValue(cart.items);
    OrderPayload(form, PayloadLines(cart.items), TotalPrice(cart), CashOnDelivery, PayloadUserId(user))
  }

  // ---- View machine -----------------------------------------------------------

  datatype View = CartView | CheckoutView | SuccessView

  datatype Drawer = Drawer(view: View, cart: CartState, form: CheckoutForm)

  const InitialDrawer: Drawer := Drawer(CartView, CartStore.Initial, EmptyForm)

  /** What can happen to the drawer: a click on one of its controls, a
      keystroke in the form, the user becoming known, or an `addItem` from the
      product grid. `Submit` carries whether `POST /orders` succeeded. */
  datatype Event =
    | Proceed | Back | Minus(k: nat) | Plus(k: nat) | Trash(k: nat)
    | Submit(postOk: bool) | Reset | Close | Input(field: Field, value: string)
    | UserChanged(user: Option<User>) | StoreAdd(item: NewItem)

  /** The controls on screen in a drawer state. Closed, the drawer renders
      nothing; the line buttons exist in the cart view only; the footer with
      "Proceed" / "Confirm Order" only outside the success view and with a
      non-empty cart; the back arrow and the form in the checkout view; the
      "Continue Shopping" button in the success view. */
  predicate Enabled(d: Drawer, e: Event) {
    match e
    case UserChanged(_) => true
    case StoreAdd(_) => true
    case Close => d.cart.isOpen
    case Proceed => d.cart.isOpen && d.view == CartView && |d.cart.items| > 0
    case Back => d.cart.isOpen && d.view == CheckoutView
    case Minus(k) => d.cart.isOpen && d.view == CartView && k < |d.cart.items|
    case Plus(k) => d.cart.isOpen && d.view == CartView && k < |d.cart.items|
    case Trash(k) => d.cart.isOpen && d.view == CartView && k < |d.cart.items|
    case Submit(_) => d.cart.isOpen && d.view == CheckoutView && |d.cart.items| > 0
    case Reset => d.cart.isOpen && d.view == SuccessView
    case Input(_, _) => d.cart.isOpen && d.view == CheckoutView
  }

  /** `handleCheckout` after the POST: on success the cart is cleared and the
      view becomes `success`; on failure nothing changes (an alert only). */
  function Checkout(d: Drawer, postOk: bool): (r: Drawer)
    ensures postOk ==> r.view == SuccessView && r.cart.items == [] && r.cart.isOpen == d.cart.isOpen
    ensures !postOk ==> r == d
  {
    if postOk then d.(cart := ClearCart(d.cart), view := SuccessView) else d
  }

  /** `resetCart`: back to the cart view, drawer closed. */
  function ResetCart(d: Drawer): (r: Drawer)
    ensures r.view == CartView && !r.cart.isOpen && r.cart.items == d.cart.items
  {
    d.(view := CartView, cart := CloseCart(d.cart))
  }

  /** One step of the drawer. An event whose control is not on screen
      changes nothing. */
  function Step(d: Drawer, e: Event): Drawer {
    if !Enabled(d, e) then d
    else match e
      case Proceed => d.(view := CheckoutView)
      case Back => d.(view := CartView)
      case Minus(k) => d.(cart := MinusButton(d.cart, k))
      case Plus(k) => d.(cart := PlusButton(d.cart, k))
      case Trash(k) => d.(cart := TrashButton(d.cart, k))
      case Submit(ok) => Checkout(d, ok)
      case Reset => ResetCart(d)
      case Close => d.(cart := CloseCart(d.cart))
      case Input(f, v) => d.(form := SetField(d.form, f, v))
      case UserChanged(u) => d.(form := PreFill(d.form, u))
      case StoreAdd(item) => d.(cart := AddItem(d.cart, item))
  }

  /** The drawer invariant: the cart is valid and the checkout view is never
      shown for an empty cart. */
  predicate DrawerOk(d: Drawer) {
    Valid(d.cart) && (d.view == CheckoutView ==> |d.cart.items| > 0)
  }

  lemma InitialDrawerOk()
    ensures DrawerOk(InitialDrawer)
  {
  }

  /** Every step keeps the drawer invariant. */
  lemma StepKeepsDrawerOk(d: Drawer, e: Event)
    requires DrawerOk(d)
    ensures DrawerOk(Step(d, e))
  {
    if Enabled(d, e) {
      match e
      case Minus(k) => MinusButtonEffect(d.cart, k);
      case Plus(k) => PlusButtonEffect(d.cart, k);
      case Trash(k) => TrashButtonEffect(d.cart, k);
      case StoreAdd(item) => AddItemValid(d.cart, item);
      case _ =>
    }
  }

  /** The checkout view is entered only from the cart view, by "Proceed",
      with a non-empty cart. */
  lemma CheckoutEntry(d: Drawer, e: Event)
    requires d.view != CheckoutView && Step(d, e).view == CheckoutView
    ensures d.view == CartView && e == Proceed && |d.cart.items| > 0
  {
  }

  /** The success view is entered only by a submit whose POST succeeded, and
      it starts with an empty cart. */
  lemma SuccessEntry(d: Drawer, e: Event)
    requires d.view != SuccessView && Step(d, e).view == SuccessView
    ensures d.view == CheckoutView && e == Submit(true)
    ensures Step(d, e).cart.items == []
  {
  }

  /** A failed POST leaves the cart, the form and the view as they were. */
  lemma FailedSubmitChangesNothing(d: Drawer)
    ensures Step(d, Submit(false)) == d
  {
  }

  /** From the checkout view the back arrow returns to the cart view with the
      cart untouched. */
  lemma BackReturnsToCart(d: Drawer)
    requires d.cart.isOpen && d.view == CheckoutView
    ensures Step(d, Back) == d.(view := CartView)
  {
  }

  /** "Continue Shopping" returns to the cart view and closes the drawer. */
  lemma ResetClosesDrawer(d: Drawer)
    requires d.cart.isOpen && d.view == SuccessView
    ensures Step(d, Reset).view == CartView && !Step(d, Reset).cart.isOpen
  {
  }

  /** Closing the drawer with the X keeps the view: after a successful order,
      closing with X and adding a product reopens the drawer on the success
      view with a non-empty cart (the order summary footer stays hidden). */
  lemma SuccessViewSurvivesClose(d: Drawer, item: NewItem)
    requires d.cart.isOpen && d.view == CheckoutView && |d.cart.items| > 0
    ensures var d' := Step(Step(Step(d, Submit(true)), Close), StoreAdd(item));
            d'.view == SuccessView && d'.cart.isOpen && |d'.cart.items| == 1
  {
  }
}
