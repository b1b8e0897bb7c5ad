# Paradise Nursery — a Dafny model of the shop's core

Paradise Nursery is a plant shop. It has a Next.js storefront with an admin area, and an Express/Prisma server behind it. This project models the parts that carry the shop's logic, as pure Dafny functions over immutable data:

- **Client stores.**
  - The cart: add, remove, set quantity, clear, open and close, totals.
  - The authentication store: login, user update, logout, `isAuthenticated`, `isAdmin`.
- **Cart drawer.**
  - The checkout form and its pre-fill from the signed-in user.
  - The per-line quantity buttons.
  - The order payload it posts.
  - The cart → checkout → success view machine.
- **Storefront product section.** The category filter and the search filter, and the handlers that change them.
- **Admin pages.**
  - Products: name search and delete.
  - Orders: status update, the status colours and row numbers.
  - Categories: edit, cancel, submit, and the image field.
  - New product: form defaults and the submit payload.
- **Profile page.** The mount effect, form initialisation, the update payload, and the small renderings (city line, short order id, status badge).
- **Server routes.**
  - Categories: list, create, update, delete, and the deploy-stage variant without delete.
  - Products: get by slug, create with slug uniqueness, delete.
  - Orders: place an order with its stock ledger, list all, list by user, update status.
  - The admin dashboard aggregates.

The database is a `Db.Store` value holding categories, products, orders and the set of known user ids. `Db.Valid` is the store invariant:

- ids and slugs are unique;
- every product points at a stored category;
- every order line points at a stored product;
- every order's user exists.

Each route is a function from a store and a request to a new store and a `Response`, which is either `Success(code, body)` or `Failure(code, error)`. Every failing route leaves the store unchanged, which models Prisma's transaction and single-statement atomicity. Generated ids, the clock, `Math.random` and the outcome of each HTTP call become parameters.

Shared pieces:

- `Common`: `Option`, `Filter` and subsequences.
- `Text`: ASCII lowercasing, `includes`, `trim`, decimal rendering.
- `Slug`: the slug pipeline.
- `Sorting`: an insertion sort by a total preorder.

`Integration` connects client to server:

- the drawer's payload, once stored, keeps its total;
- a placed order shows up on the dashboard;
- the admin category form can never trigger the route's 400;
- the order status options match the enum.

## Model

| member | source | states |
|---|---|---|
| CartStore.AddItem | client/store/cartStore.ts:32-48 | An id already in the cart gets its quantity raised by one and every other line is unchanged. A new id is appended with quantity 1. The drawer always ends up open. |
| CartStore.RemoveItem | client/store/cartStore.ts:50-65 | An absent id changes nothing. With `removeAll` or a quantity of 1 the line is deleted; otherwise its quantity drops by one. Whether the drawer is open never changes. |
| CartStore.UpdateQuantity | client/store/cartStore.ts:67-72 | A quantity below 1, or an unknown id, changes nothing. Otherwise only the matching line takes the new quantity; length and open state are kept. |
| CartStore.ClearCart | client/store/cartStore.ts:74 | The cart is emptied and the open state is kept. |
| CartStore.ToggleCart | client/store/cartStore.ts:76 | The open flag flips and the items stay the same. |
| CartStore.OpenCart | client/store/cartStore.ts:77 | The drawer is open and the items stay the same. |
| CartStore.CloseCart | client/store/cartStore.ts:78 | The drawer is closed and the items stay the same. |
| CartStore.TotalItems | client/store/cartStore.ts:80 | In a valid cart the item count is at least the number of lines. |
| CartStore.TotalPrice | client/store/cartStore.ts:81 | The sum of price times quantity over the lines; how each action moves it is stated by AddItemTotals, RemoveItemTotals, UpdateQuantityTotals and ClearCartTotals. |
| CartStore.RemoveItemAt | client/store/cartStore.ts:50-65 | In a valid cart, removing the id at position k deletes exactly position k, or decrements exactly that line. |
| CartStore.AddItemValid | client/store/cartStore.ts:32-48 | Adding keeps ids distinct and quantities positive. |
| CartStore.RemoveItemValid | client/store/cartStore.ts:50-65 | Removing keeps ids distinct and quantities positive. |
| CartStore.UpdateQuantityValid | client/store/cartStore.ts:67-72 | Setting a quantity keeps ids distinct and quantities positive. |
| CartStore.AddItemTotals | client/store/cartStore.ts:32-48 | Adding raises the item count by exactly one. The price total rises by the price stored on the line when the id is already in the cart, and by the item's price when it is new. |
| CartStore.RemoveItemTotals | client/store/cartStore.ts:80-81 | Deleting a line lowers the totals by that line's quantity and value. Decrementing lowers them by one and by the unit price. |
| CartStore.UpdateQuantityTotals | client/store/cartStore.ts:67-81 | Setting quantity q on line k changes the totals by (q − old quantity) units and by the unit price times that. |
| CartStore.ClearCartTotals | client/store/cartStore.ts:74-81 | After clearing, both totals are 0. |
| CartStore.ToggleTwice | client/store/cartStore.ts:76 | Toggling twice restores the state. |
| AuthStore.Login | client/store/authStore.ts:31 | Installs exactly the given user and token. The session is authenticated exactly when the token is non-empty, and admin exactly when the role is ADMIN. |
| AuthStore.UpdateUser | client/store/authStore.ts:33 | Replaces the user and keeps the token, so authentication is unchanged. Admin status follows the new role. |
| AuthStore.Logout | client/store/authStore.ts:35 | Returns the initial state: neither authenticated nor admin. |
| AuthStore.IsAuthenticated | client/store/authStore.ts:37 | A present, non-empty token; Login, UpdateUser, Logout and LoginSession state when it holds. |
| AuthStore.IsAdmin | client/store/authStore.ts:39 | The user's role is ADMIN; Login and UpdateUser state when it holds, and IsAdminIgnoresToken that the token plays no part. |
| AuthStore.LoginSession | client/store/authStore.ts:31-35 | A new login replaces whatever session came before. A profile update after login keeps the login's token and authentication. Logout afterwards returns to the initial state. |
| AuthStore.IsAdminIgnoresToken | client/store/authStore.ts:37-39 | Admin status does not depend on the token. |
| CartDrawer.SetField | client/components/CartDrawer.tsx:42-45 | Changing one input sets exactly that field and leaves the others as they were. |
| CartDrawer.PreFill | client/components/CartDrawer.tsx:29-40 | With no user nothing changes. A field the visitor already filled is never overwritten. WhatsApp is never touched. Empty fields take the user's value if there is one. |
| CartDrawer.PreFillIdempotent | client/components/CartDrawer.tsx:29-40 | Pre-filling twice gives the same form as pre-filling once. |
| CartDrawer.MinusButton | client/components/CartDrawer.tsx:162 | Calls `removeItem(id)` on the line; MinusButtonEffect states the effect. |
| CartDrawer.PlusButton | client/components/CartDrawer.tsx:169 | Calls `addItem` with the line's own data; PlusButtonEffect states the effect. |
| CartDrawer.TrashButton | client/components/CartDrawer.tsx:177 | Calls `removeItem(id, true)`; TrashButtonEffect states the effect. |
| CartDrawer.MinusButtonEffect | client/components/CartDrawer.tsx:162 | Minus decrements a line above 1 and deletes a line at 1. Either way the item count drops by one and the cart stays valid. |
| CartDrawer.PlusButtonEffect | client/components/CartDrawer.tsx:169 | Plus raises exactly that line by one. The count rises by one and the cart stays valid. |
| CartDrawer.TrashButtonEffect | client/components/CartDrawer.tsx:177 | The trash button deletes exactly that line. The count drops by its quantity and the cart stays valid. |
| CartDrawer.PayloadLinesValue | client/components/CartDrawer.tsx:54-59 | The payload lines are worth the cart's price total. |
| CartDrawer.PayloadUserId | client/components/CartDrawer.tsx:61 | A user id is sent exactly when a user with a non-empty id is signed in. |
| CartDrawer.PayloadLines | client/components/CartDrawer.tsx:54-58 | One payload line per cart line, in order, with that line's id, quantity and price; PayloadLinesValue states that the lines are worth the cart total. |
| CartDrawer.BuildPayload | client/components/CartDrawer.tsx:52-62 | The payload has one line per cart line, with the same product, quantity and price. The total equals the lines' value, payment is COD, and the form is sent unchanged. |
| CartDrawer.Checkout | client/components/CartDrawer.tsx:64-70 | A successful post empties the cart and shows success. A failed post changes nothing. |
| CartDrawer.ResetCart | client/components/CartDrawer.tsx:76-79 | Returns to the cart view with the drawer closed and the items kept. |
| CartDrawer.Step | client/components/CartDrawer.tsx:105-292 | One drawer event, acting only when its control is on screen; StepKeepsDrawerOk, CheckoutEntry, SuccessEntry, FailedSubmitChangesNothing, BackReturnsToCart, ResetClosesDrawer and SuccessViewSurvivesClose state its behaviour. |
| CartDrawer.StepKeepsDrawerOk | client/components/CartDrawer.tsx:284-292 | Every event keeps the view machine well formed: checkout is never shown over an empty cart. |
| CartDrawer.InitialDrawerOk | client/components/CartDrawer.tsx:14 | The drawer starts well formed. |
| CartDrawer.CheckoutEntry | client/components/CartDrawer.tsx:284-292 | The checkout view is only reached by Proceed, from the cart view, with a non-empty cart. |
| CartDrawer.SuccessEntry | client/components/CartDrawer.tsx:64-70 | The success view is only reached by a successful submit from checkout, and it leaves the cart empty. |
| CartDrawer.FailedSubmitChangesNothing | client/components/CartDrawer.tsx:68-73 | A failed submit leaves the drawer as it was. |
| CartDrawer.BackReturnsToCart | client/components/CartDrawer.tsx:105-106 | Back from checkout shows the cart and changes nothing else. |
| CartDrawer.ResetClosesDrawer | client/components/CartDrawer.tsx:258 | Continue Shopping from success closes the drawer and returns to the cart view. |
| CartDrawer.SuccessViewSurvivesClose | client/components/CartDrawer.tsx:64-79 | Closing the drawer from success does not reset the view. A later add reopens it on the success screen. |
| ProductSection.FilterProducts | client/components/ProductSection.tsx:59-75 | Applying the category filter and then the search filter equals one filter by "shown", which is category membership and name or description match. |
| ProductSection.ShownIff | client/components/ProductSection.tsx:59-75 | A product is listed exactly when it is in the catalogue and shown under the current selection and query. |
| ProductSection.NoFilterShowsAll | client/components/ProductSection.tsx:62-66 | With no category chosen (or "all") and an empty query, every product is listed. |
| ProductSection.VisibleKeepsOrder | client/components/ProductSection.tsx:59-75 | The listing keeps the catalogue's order. |
| ProductSection.CategorySelect | client/components/ProductSection.tsx:77-81 | Sets the selection, switches to the products view and keeps the query. |
| ProductSection.BackToCategories | client/components/ProductSection.tsx:83-87 | Clears the selection and query, returns to categories, and lists everything. |
| ProductSection.SearchInput | client/components/ProductSection.tsx:120-125 | Typing in the categories view switches to the products view with "all" selected. Otherwise only the query changes. |
| ProductSection.SearchFromCategoriesShowsAllMatches | client/components/ProductSection.tsx:120-125 | Searching from the categories view lists every product matching the query, from all categories. |
| ProductSection.AddToCartItem | client/components/ProductSection.tsx:233-241 | The item handed to the cart carries the product's id, name, price and first image (if any); AddToCartFromGrid states what adding it does to the cart. |
| ProductSection.AddToCartFromGrid | client/components/ProductSection.tsx:233-241 | After "Add to Cart" the product is in the cart, the drawer is open and the item count is one higher. A product new to the cart adds its price to the total. One already in the cart adds the price stored on its line, even if the product's price has changed since. |
| AdminProductsPage.FilteredProducts | client/app/admin/products/page.tsx:50-52 | The listing keeps order, holds only products whose lowercased name contains the lowercased term, and is as long as the number of matching positions, so no match is dropped and duplicates stay. An empty term lists all. |
| AdminProductsPage.DescriptionNotSearched | client/app/admin/products/page.tsx:50-52 | The description plays no part in the match. |
| AdminProductsPage.HandleDelete | client/app/admin/products/page.tsx:39-48 | The list changes only when the deletion is confirmed and succeeds, and then only that id's products disappear. |
| AdminOrdersPage.UpdateStatus | client/app/admin/orders/page.tsx:39-46 | On success only the matching orders' status changes. On failure nothing changes. No other field ever changes. |
| AdminOrdersPage.UpdateStatusIdempotent | client/app/admin/orders/page.tsx:39-46 | Setting the same status twice is the same as once. |
| AdminOrdersPage.StatusColor | client/app/admin/orders/page.tsx:48-55 | PENDING is orange, SHIPPED blue and DELIVERED green. Gray is used exactly for CANCELLED and unknown statuses, and red is never used. |
| AdminOrdersPage.StatusColorsDistinct | client/app/admin/orders/page.tsx:48-55 | PENDING, SHIPPED and DELIVERED have three different colours; CANCELLED is gray. |
| AdminOrdersPage.RowNumbers | client/app/admin/orders/page.tsx:85 | The row at index i shows i + 1, so rows are numbered 1 to n in list order; RowNumbersSurviveStatusChange states that a status change renumbers nothing. |
| AdminOrdersPage.RowNumbersSurviveStatusChange | client/app/admin/orders/page.tsx:39-46 | A status change, failed or not, renumbers nothing: every order keeps its number. |
| AdminCategoriesPage.HandleEdit | client/app/admin/categories/page.tsx:41-48 | Edit mode on the category with its fields loaded, a missing image or description as the empty string; EditThenSubmit and Integration.UnchangedEditRoundTrip state what saving it untouched sends and stores. |
| AdminCategoriesPage.EditThenSubmit | client/app/admin/categories/page.tsx:41-75 | Saving an untouched edit sends a PUT for that category's id with its own name, image and description, a missing image or description as the empty string. A successful save resets the page. A whitespace-only name sends nothing. |
| AdminCategoriesPage.HandleCancel | client/app/admin/categories/page.tsx:50-53 | Cancel returns to the empty create form. |
| AdminCategoriesPage.SubmitDisabled | client/app/admin/categories/page.tsx:191 | When no submission is in flight, the button is disabled exactly when the name is blank. |
| AdminCategoriesPage.HandleSubmit | client/app/admin/categories/page.tsx:55-75 | A blank name sends nothing. Otherwise the form is sent as a PUT when editing and as a POST otherwise. Success resets the page; failure keeps it. |
| AdminCategoriesPage.UploadImage | client/app/admin/categories/page.tsx:172-177 | Sets the image URL and nothing else. |
| AdminCategoriesPage.RemoveImage | client/app/admin/categories/page.tsx:172-177 | Clears the image, so no preview is shown, and nothing else changes. |
| AdminCategoriesPage.Preview | client/app/admin/categories/page.tsx:172-177 | At most one preview, present exactly when the image is non-empty. |
| AdminCategoriesPage.UploadThenRemove | client/app/admin/categories/page.tsx:172-177 | Upload followed by remove is the same as remove. |
| NewProductPage.InitialFormFields | client/app/admin/products/new/page.tsx:19-26 | The form starts empty except for stock, which is "10". |
| NewProductPage.SetField | client/app/admin/products/new/page.tsx:72-74 | Changing one input sets exactly that field. |
| NewProductPage.LoadCategories | client/app/admin/products/new/page.tsx:36-38 | Loaded categories preselect the first one, and no other field changes. |
| NewProductPage.Submit | client/app/admin/products/new/page.tsx:48-62 | Nothing is sent exactly when no category is chosen. Otherwise the payload has no tags and holds the image URL only if one was given. |
| NewProductPage.LoadedFormSubmits | client/app/admin/products/new/page.tsx:36-52 | Once categories load, the form can always be submitted. |
| ProfilePage.FormFrom | client/app/profile/page.tsx:51-56 | The form loaded from the user, a missing contact field as the empty string; UpdateAfterEdit states what the update then sends. |
| ProfilePage.UpdateAfterEdit | client/app/profile/page.tsx:51-81 | After editing one field of the loaded form, the update sends the edited value in that field and the user's stored value (or the empty string when unset) in every other. With no edit the user's contact details go back as loaded. |
| ProfilePage.MountEffect | client/app/profile/page.tsx:45-56 | Redirect to login exactly when not authenticated or no user; otherwise load that user's form and orders. |
| ProfilePage.LoggedOutRedirects | client/app/profile/page.tsx:45-48 | After logout the page redirects. |
| ProfilePage.SetField | client/app/profile/page.tsx:79-81 | Changing one input sets exactly that field. |
| ProfilePage.UpdatePayload | client/app/profile/page.tsx:66-69 | The update sends the form plus the user's current name. |
| ProfilePage.NameUnaffectedByForm | client/app/profile/page.tsx:66-81 | No form edit can change the name that is sent. |
| ProfilePage.CityLine | client/app/profile/page.tsx:204 | `city, pincode` when the city is set and non-empty, the dash otherwise; CityLineMatchesForm relates it to the loaded form. |
| ProfilePage.CityLineMatchesForm | client/app/profile/page.tsx:204 | The city line shows the dash exactly when the form's city field loads empty; otherwise the line starts with that field's value. |
| ProfilePage.OrderIdLabel | client/app/profile/page.tsx:241 | "#" followed by the last eight characters of the id, or by the whole id when it is shorter. |
| ProfilePage.ShortIdShownWhole | client/app/profile/page.tsx:241 | An id of eight characters or fewer is shown whole. |
| ProfilePage.StatusBadge | client/app/profile/page.tsx:253-255 | Green exactly for DELIVERED, red exactly for CANCELLED, orange otherwise. |
| Text.Lower | client/components/ProductSection.tsx:67-70 | Lowercasing keeps length and maps every character through the ASCII lowercase map. |
| Text.LowerIdempotent | client/components/ProductSection.tsx:67-70 | Lowercasing twice is the same as once. |
| Text.ContainsIff | client/components/ProductSection.tsx:69-70 | `includes` holds exactly when the needle occurs at some position. |
| Text.TrimEmptyIff | client/app/admin/categories/page.tsx:57 | A string trims to empty exactly when it is all whitespace. |
| Text.TakeLast | client/app/profile/page.tsx:241 | `slice(-n)` keeps the last n characters, or all of them when there are fewer. |
| Text.NatToStringRoundTrip | server/src/routes/products.ts:64 | The decimal rendering of a number parses back to it. |
| Slug.Slugify | server/src/routes/products.ts:56-59 | A slug has only `[a-z0-9-]`, no dash at either end and no doubled dash. It keeps exactly the name's lowercased letters and digits, in order. |
| Slug.ReplaceRuns | server/src/routes/products.ts:58 | Every run of other characters becomes one dash. Letters and digits survive in order. |
| Slug.TrimDashes | server/src/routes/products.ts:59 | Removes the leading and trailing dash, giving a slug-shaped string with the same letters and digits. |
| Slug.SlugifyIdempotent | server/src/routes/categories.ts:29 | The slug of a slug is itself. |
| Slug.SlugifyEmptyWithoutAlnums | server/src/routes/categories.ts:29 | A name with no ASCII letter or digit gets the empty slug. |
| Slug.SlugifyNonEmptyWithAlnums | server/src/routes/categories.ts:29 | A name with a letter or digit gets a non-empty slug. |
| Sorting.SortBy | server/src/routes/categories.ts:9-11 | The result is sorted by the given total preorder and is a permutation of the input. |
| Db.ParseStatusName | deploy_stage/server/src/routes/orders.ts:87-90 | Every status name parses back to its status. |
| Db.ParseStatus | deploy_stage/server/src/routes/orders.ts:87-90 | A string parses exactly when it is one of the four status names. |
| CategoryRoutes.List | server/src/routes/categories.ts:7-17 | Answers 200 with the categories sorted by name, as a permutation of the stored ones. |
| CategoryRoutes.Create | server/src/routes/categories.ts:21-39 | A falsy name gives 400 "Name is required". A taken id or slug gives 500 "Failed to create category". Otherwise 201 with the category appended and its slug derived from the name. Failure leaves the store unchanged. |
| CategoryRoutes.Merge | server/src/routes/categories.ts:47-53 | The id is kept. A truthy name replaces the name and slug. Image and description are replaced only when sent. |
| CategoryRoutes.MergeEmpty | server/src/routes/categories.ts:47-53 | An empty body changes nothing. |
| CategoryRoutes.MergeIdempotent | server/src/routes/categories.ts:47-53 | Applying the same body twice is the same as once. |
| CategoryRoutes.Update | server/src/routes/categories.ts:42-64 | Succeeds exactly when a category with the id exists and its merged slug is not another category's. It then answers 200 with the merge and replaces only that category. Otherwise 500 "Failed to update category" and nothing changes. |
| CategoryRoutes.UpdateStored | server/src/routes/categories.ts:42-64 | With unique ids, updating a stored category succeeds exactly when its merged slug is free of other categories, and then answers with that merge. |
| CategoryRoutes.Delete | server/src/routes/categories.ts:67-81 | Succeeds (204) exactly when the category exists and no product uses it, and then removes only it. Otherwise 500 with the "may contain products" message. |
| CategoryRoutes.Handle | server/src/routes/categories.ts:7-81 | A listing never changes the store and a failure never changes it. A delete succeeds exactly when the category exists and is unused. |
| CategoryRoutes.CreateKeepsValid | server/src/routes/categories.ts:21-39 | Creating keeps the store invariant. |
| CategoryRoutes.UpdateKeepsValid | server/src/routes/categories.ts:42-64 | Updating keeps the store invariant. |
| CategoryRoutes.DeleteKeepsValid | server/src/routes/categories.ts:67-81 | Deleting keeps the store invariant: no product is left without its category. |
| CategoryRoutes.HandleKeepsValid | server/src/routes/categories.ts:7-81 | Every category request keeps the store invariant. |
| DeployStageCategories.Handle | deploy_stage/server/src/routes/categories.ts:1-65 | The deploy-stage router has no delete route: a DELETE is a 404 and the store is unchanged. |
| DeployStageCategories.AgreesWithServerExceptDelete | deploy_stage/server/src/routes/categories.ts:1-65 | On every other request it answers exactly like the server router. |
| DeployStageCategories.HandleKeepsValid | deploy_stage/server/src/routes/categories.ts:1-65 | Every deploy-stage category request keeps the store invariant. |
| DeployStageCategories.NeverShrinks | deploy_stage/server/src/routes/categories.ts:1-65 | No request lowers the number of categories. |
| ProductRoutes.GetBySlug | server/src/routes/products.ts:20-34 | 404 "Product not found" exactly when no product has the slug; otherwise 200 with a stored product of that slug. |
| ProductRoutes.GetBySlugFindsStored | server/src/routes/products.ts:20-34 | In a valid store, looking up a product's slug returns that product. |
| ProductRoutes.ValidationError | server/src/routes/products.ts:42-53 | The three 400 messages, checked in order: name, then price, then category. |
| ProductRoutes.ChooseSlug | server/src/routes/products.ts:56-65 | The bare slug is used when free. Otherwise the slug gets a dash and the random suffix. |
| ProductRoutes.SuffixedSlugShape | server/src/routes/products.ts:62-65 | A suffixed slug is slug-shaped when the bare slug is non-empty, and starts with a dash when it is empty. |
| ProductRoutes.Create | server/src/routes/products.ts:37-84 | Validation failures give their 400. A taken slug or id, a missing category or a missing stock give 500 "Failed to create product". Otherwise 201 with the product appended, with missing images or tags as empty lists. Failure leaves the store unchanged. |
| ProductRoutes.CreatedSlugIsNew | server/src/routes/products.ts:61-78 | A created product's slug was not in use before. |
| ProductRoutes.Delete | server/src/routes/products.ts:100-109 | Succeeds (204) exactly when the product exists and no order line references it, and then removes only it. Otherwise 500 "Failed to delete product". |
| ProductRoutes.DeleteRemovesOne | server/src/routes/products.ts:100-109 | A successful delete removes exactly one product. |
| ProductRoutes.CreateKeepsValid | server/src/routes/products.ts:37-84 | Creating keeps the store invariant. |
| ProductRoutes.DeleteKeepsValid | server/src/routes/products.ts:100-109 | Deleting keeps the store invariant: no order line is left without its product. |
| OrderRoutes.Lines | deploy_stage/server/src/routes/orders.ts:27-33 | One stored line per item, with product, quantity and price copied. |
| OrderRoutes.Decrement | deploy_stage/server/src/routes/orders.ts:40-43 | Only the matching product's stock drops, by the quantity; nothing else changes. |
| OrderRoutes.DecrementAllIsLedger | deploy_stage/server/src/routes/orders.ts:39-44 | The stock loop succeeds exactly when every item names a stored product. Then each product's stock drops by the total quantity ordered for it, and every other field is kept. |
| OrderRoutes.Create | deploy_stage/server/src/routes/orders.ts:14-54 | Succeeds exactly when items are present, the id is free, the user (if given) exists and every product exists. Then 201 with a PENDING order appended and the stock ledger applied. Otherwise 500 "Failed to create order" and nothing changes. |
| OrderRoutes.StockCanGoNegative | deploy_stage/server/src/routes/orders.ts:39-44 | An order for a product with no stock left still succeeds, and leaves its stock negative. |
| OrderRoutes.NewerFirstIsTotalPreorder | deploy_stage/server/src/routes/orders.ts:61 | Newest-first is a total preorder. |
| OrderRoutes.ListAll | deploy_stage/server/src/routes/orders.ts:57-67 | 200 with all orders, newest first, as a permutation of the stored ones. |
| OrderRoutes.ListByUser | deploy_stage/server/src/routes/orders.ts:70-82 | 200 with exactly that user's orders, newest first. |
| OrderRoutes.ListByUserMembers | deploy_stage/server/src/routes/orders.ts:70-82 | An order is listed exactly when it is stored and belongs to the user. |
| OrderRoutes.UpdateStatus | deploy_stage/server/src/routes/orders.ts:85-96 | Succeeds exactly when the order exists and the status is absent or one of the enum's names. An absent status answers 200 with the order unchanged. A given status changes only that order's status. Otherwise 500 "Failed to update order status". |
| OrderRoutes.UpdateStatusTwice | deploy_stage/server/src/routes/orders.ts:85-96 | Sending the same status twice stores what sending it once does, and a repeat of a successful update succeeds too. |
| OrderRoutes.CreateKeepsValid | deploy_stage/server/src/routes/orders.ts:14-54 | Placing an order keeps the store invariant. |
| OrderRoutes.UpdateStatusKeepsValid | deploy_stage/server/src/routes/orders.ts:85-96 | Updating a status keeps the store invariant. |
| Dashboard.RevenueAggregate | server/src/routes/admin.ts:12-17 | The aggregate is null exactly when every order is cancelled, including when there are none. |
| Dashboard.AggregateIsRevenue | server/src/routes/admin.ts:12-29 | `_sum.totalAmount \|\| 0` is the sum of totals over non-cancelled orders. |
| Dashboard.Compute | server/src/routes/admin.ts:8-38 | 200 with the order count, the number of PENDING orders, the number of products with stock at most 5, and the non-cancelled revenue. |
| Dashboard.AppendOrder | server/src/routes/admin.ts:11-20 | A new order adds its total to revenue unless cancelled, and adds one to pending if pending. |
| Dashboard.RevenueIgnoresCancelled | server/src/routes/admin.ts:12-17 | Only cancelled orders means revenue 0 and a null aggregate. |
| Integration.OrderBodyOf | client/components/CartDrawer.tsx:52-62 | The body the server receives carries the drawer's lines, total and user id unchanged. |
| Integration.StoredValueOfPayload | deploy_stage/server/src/routes/orders.ts:27-33 | Stored lines copied from the payload have the payload's value. |
| Integration.DrawerOrderTotalConsistent | deploy_stage/server/src/routes/orders.ts:14-54 | An order placed from the drawer is stored with a total equal to its lines' value, which is the cart's price total. |
| Integration.PlacedOrderOnDashboard | server/src/routes/admin.ts:8-38 | After an order is placed the dashboard counts one more order, one more pending order, and the order's total more revenue. |
| Integration.CategoryBodyOf | client/app/admin/categories/page.tsx:60-67 | The page sends name, image and description as given. |
| Integration.AdminCreateNever400 | server/src/routes/categories.ts:24-27 | A create submitted by the admin page never meets the "Name is required" 400. |
| Integration.AdminUpdateRenames | server/src/routes/categories.ts:47-53 | An update from the admin page always replaces the name and the image. |
| Integration.UnchangedEditRoundTrip | server/src/routes/categories.ts:47-53 | Saving an untouched edit stores the same row back, except that the slug is re-derived from the name and a missing image or description becomes the empty string. |
| Integration.StatusOptionsMatchEnum | client/app/admin/orders/page.tsx:125-128 | The four dropdown options are exactly the four status names. |
| Integration.BadgesAgreeOnlyOnPendingAndDelivered | client/app/profile/page.tsx:253-255 | The admin colour and the profile badge agree exactly on PENDING and DELIVERED. SHIPPED is blue against orange, and CANCELLED gray against red. |

## Left out

- Rendering, animation, icons, routing between pages and the loading spinners are not modelled; only the state the handlers compute is.
- HTTP calls (axios), the database driver and `alert`/`confirm` are outcome parameters (`ok`, `confirmed`, `deleted`, `postOk`), not modelled transports.
- Generated ids, `new Date()` and `Math.random()` are parameters. The random suffix is any number below 10000.
- Concurrency and transaction isolation are not modelled. Each route runs alone, and a failing one changes nothing.
- The Prisma schema is not part of this model. These behaviours are taken as schema facts:
  - PENDING as the default status;
  - unique ids and slugs;
  - restrict-on-delete foreign keys;
  - a failing insert when `stock` is absent or not numeric (`Number` gives `NaN`), modelled as a missing stock; a `null` stock converts to 0 and is passed as `Some(0)`;
  - a required `items` list;
  - nullable contact fields on an order (all six may be missing) and a nullable product description.
- Text.Lower: lowercases ASCII letters only. JavaScript's `toLowerCase` also maps non-ASCII letters, some of them to ASCII: U+212A (Kelvin sign) becomes "k" and U+0130 becomes "i" plus a combining dot. So a name made only of such letters gets a non-empty slug in the source, where Slug.SlugifyEmptyWithoutAlnums gives the empty one.
- Sorting.SortBy: the categories are sorted by character-code order (`LexLe`); the database's collation may order names differently.
- Number parsing and formatting (`parseFloat`, `parseInt`, `Number`, `toFixed`, `toLocaleString`) are not modelled. Prices are integers, and the new-product page keeps price and stock as text.
- Zustand `persist` (saving the stores to local storage) is not modelled.
- Browser `required` validation on the checkout and product forms is not modelled, so the model allows empty required fields.
- `isSubmitting`/`loading` flags are parameters where they matter (`SubmitDisabled`) and are otherwise left out.
- The product list route and `PUT /products/:id` are left out; the latter passes the raw body to the database.
- The other routes are left out:
  - the authentication routes (`server/src/routes/auth.ts`);
  - the server side of the profile update;
  - the image-upload component's network call.
- DeployStageCategories.Handle: Express's 404 page for an unmatched DELETE is reduced to the text "Cannot DELETE".
- The order routes under `server/src/routes` are not part of this model; the deploy-stage order router is the one modelled.
- ProductRoutes.Create: accepts a product without a description. The storefront search calls `toLowerCase` on every description, which fails on such a product. ProductSection models descriptions as always present, so that failure is not modelled.
- OrderRoutes.UpdateStatus: the status is modelled as absent or a string. A `null` or non-string status, which the database rejects with a 500, is not modelled.
