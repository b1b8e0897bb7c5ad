/** How the client and the server fit together: the order the cart drawer
    posts, the category the admin form posts, and the statuses both sides
    spell. */
module Integration {
  import opened Common
  import CartStore
  import AuthStore
  import CartDrawer
  import AdminCategoriesPage
  import AdminOrdersPage
  import ProfilePage
  import Db
  import CategoryRoutes
  import OrderRoutes
  import Dashboard
  import Slug
  import Text

  // ---- Checkout ---------------------------------------------------------------------

  /** The JSON the drawer sends, as the order route reads it: every form
      field present, the lines, the total, `'COD'` and the user id. */
  function OrderBodyOf(p: CartDrawer.OrderPayload): (b: OrderRoutes.OrderBody)
    ensures b.items.Some? && |b.items.value| == |p.items|
    ensures forall k :: 0 <= k < |p.items| ==>
              b.items.value[k] == OrderRoutes.ItemInput(p.items[k].productId, p.items[k].qty, p.items[k].price)
    ensures b.totalAmount == p.totalAmount && b.userId == p.userId
  {
    var f := p.form;
    OrderRoutes.OrderBody(
      Db.Contact(Some(f.customerName), Some(f.phone), Some(f.whatsapp), Some(f.address), Some(f.city), Some(f.pincode)),
      Some(seq(|p.items|, k requires 0 <= k < |p.items| =>
             OrderRoutes.ItemInput(p.items[k].productId, p.items[k].qty, p.items[k].price))),
      p.totalAmount, Some(p.paymentMode), p.userId)
  }

  /** Sum of qty × price over stored order lines. */
  function StoredValue(lines: seq<Db.OrderItem>): int {
    if |lines| == 0 then 0 else lines[0].qty * lines[0].price + StoredValue(lines[1..])
  }

  lemma {:induction false} StoredValueOfPayload(lines: seq<CartDrawer.PayloadLine>, stored: seq<Db.OrderItem>)
    requires |stored| == |lines|
    requires forall k :: 0 <= k < |lines| ==> stored[k] == Db.OrderItem(lines[k].productId, lines[k].qty, lines[k].price)
    ensures StoredValue(stored) == CartDrawer.LinesValue(lines)
  {
    if |lines| > 0 {
      StoredValueOfPayload(lines[1..], stored[1..]);
    }
  }

  /** An order placed from the drawer is stored with a total equal to the
      value of its own lines, even though the server never recomputes it. */
  lemma DrawerOrderTotalConsistent(
    db: Db.Store, cart: CartStore.CartState, form: CartDrawer.CheckoutForm,
    user: Option<AuthStore.User>, id: string, now: int)
    requires OrderRoutes.Create(db, OrderBodyOf(CartDrawer.BuildPayload(cart, form, user)), id, now).1.Success?
    ensures var o := OrderRoutes.Create(db, OrderBodyOf(CartDrawer.BuildPayload(cart, form, user)), id, now).1.body;
            o.totalAmount == StoredValue(o.items) && |o.items| == |cart.items|
  {
    var p := CartDrawer.BuildPayload(cart, form, user);
    var b := OrderBodyOf(p);
    var o := OrderRoutes.Create(db, b, id, now).1.body;
    StoredValueOfPayload(p.items, o.items);
  }

  /** A placed order adds one to the order count and to the pending count,
      and its amount to the revenue. */
  lemma PlacedOrderOnDashboard(db: Db.Store, body: OrderRoutes.OrderBody, id: string, now: int)
    requires OrderRoutes.Create(db, body, id, now).1.Success?
    ensures var after := Dashboard.Compute(OrderRoutes.Create(db, body, id, now).0).body;
            var before := Dashboard.Compute(db).body;
            && after.totalOrders == before.totalOrders + 1
            && after.pendingOrders == before.pendingOrders + 1
            && after.totalRevenue == before.totalRevenue + body.totalAmount
  {
    var r := OrderRoutes.Create(db, body, id, now);
    Dashboard.AppendOrder(db.orders, r.1.body);
  }

  // ---- Categories ----------------------------------------------------------------

  /** The JSON the admin form sends, as the category routes read it: all
      three fields present as strings. */
  function CategoryBodyOf(f: AdminCategoriesPage.CategoryForm): (b: CategoryRoutes.CategoryBody)
    ensures b.name == Some(f.name)
    ensures b.image == Some(Some(f.image)) && b.description == Some(Some(f.description))
  {
    CategoryRoutes.CategoryBody(Some(f.name), Some(Some(f.image)), Some(Some(f.description)))
  }

  /** A create sent by the admin form is never turned away with 400: the
      form only sends names with a non-whitespace character. */
  lemma AdminCreateNever400(p: AdminCategoriesPage.Page, ok: bool, db: Db.Store, id: string)
    requires AdminCategoriesPage.HandleSubmit(p, ok).0.Some?
    ensures CategoryRoutes.Create(db, CategoryBodyOf(AdminCategoriesPage.HandleSubmit(p, ok).0.value.body), id).1.code != 400
  {
    AdminCategoriesPage.SubmittedNameNonEmpty(p, ok);
  }

  /** An update sent by the admin form always renames the category: its
      non-blank name sets both the name and the slug. */
  lemma AdminUpdateRenames(c: Db.Category, f: AdminCategoriesPage.CategoryForm)
    requires f.name != ""
    ensures CategoryRoutes.Merge(c, CategoryBodyOf(f)).name == f.name
    ensures CategoryRoutes.Merge(c, CategoryBodyOf(f)).slug == Slug.Slugify(f.name)
    ensures CategoryRoutes.Merge(c, CategoryBodyOf(f)).image == Some(f.image)
  {
  }

  /** A stored category as the admin page receives it. */
  function PageCategoryOf(c: Db.Category): AdminCategoriesPage.Category {
    AdminCategoriesPage.Category(c.id, c.name, c.slug, c.image, c.description)
  }

  /** Opening a category for edit and saving it untouched sends `PUT` for
      that category, and the merge the route stores gives back the same
      row, except that the slug is re-derived from the name and a missing
      image or description is now stored as the empty string. */
  lemma UnchangedEditRoundTrip(c: Db.Category, p: AdminCategoriesPage.Page, ok: bool)
    requires !Text.IsBlank(c.name)
    ensures var req := AdminCategoriesPage.HandleSubmit(AdminCategoriesPage.HandleEdit(p, PageCategoryOf(c)), ok).0;
            && req.Some? && req.value.UpdateCategory? && req.value.id == c.id
            && CategoryRoutes.Merge(c, CategoryBodyOf(req.value.body))
               == c.(slug := Slug.Slugify(c.name),
                     image := Some(c.image.GetOr("")), description := Some(c.description.GetOr("")))
  {
    AdminCategoriesPage.EditThenSubmit(p, PageCategoryOf(c), ok);
    assert c.name != "";
  }

  // ---- Statuses -------------------------------------------------------------------

  /** The admin selector offers exactly the statuses the database accepts. */
  lemma StatusOptionsMatchEnum()
    ensures forall i :: 0 <= i < |AdminOrdersPage.StatusOptions| ==>
              Db.ParseStatus(AdminOrdersPage.StatusOptions[i]).Some?
    ensures forall st: Db.Status :: Db.StatusName(st) in AdminOrdersPage.StatusOptions
  {
  }

  /** The admin table and the profile page colour a status the same way
      exactly for pending and delivered orders; shipped and cancelled orders
      look different on the two pages. */
  lemma BadgesAgreeOnlyOnPendingAndDelivered(st: Db.Status)
    ensures AdminOrdersPage.StatusColor(Db.StatusName(st)) == ProfilePage.StatusBadge(Db.StatusName(st))
            <==> st == Db.PENDING || st == Db.DELIVERED
  {
  }
}
