/** The storefront's product section: the category/search filter over the
    fetched products, the category-grid ↔ product-grid switch, and the item
    handed to the cart when "Add to Cart" is clicked. */
module ProductSection {
  import opened Common
  import opened Text
  import CartStore

  datatype Category = Category(
    id: string, name: string, slug: string, image: Option<string>, description: Option<string>)

  datatype Product = Product(
    id: string, name: string, description: string, price: int,
    images: seq<string>, category: Option<Category>, tags: seq<string>)

  /** `selectedCategory`: `null` before any choice, `'all'`, or a category. */
  datatype Selection = NoSelection | AllCategories | Selected(category: Category)

  datatype ViewMode = CategoriesView | ProductsView

  datatype Section = Section(products: seq<Product>, selected: Selection, query: string, mode: ViewMode)

  const Initial: Section := Section([], NoSelection, "", CategoriesView)

  /** `p.category?.id === selectedCategory.id`: a product without a
      category never matches. */
  predicate InCategory(c: Category, p: Product) {
    p.category.Some? && p.category.value.id == c.id
  }

  /** The lowercased query occurs in the lowercased name or the lowercased
      description. */
  predicate MatchesQuery(query: string, p: Product) {
    Contains(Lower(p.name), Lower(query)) || Contains(Lower(p.description), Lower(query))
  }

  /** Whether a product appears in the grid: the category test applies only
      to a real category (not `null`, not `'all'`), the text test only to a
      non-empty query. */
  predicate Shown(sel: Selection, query: string, p: Product) {
    && (sel.Selected? ==> InCategory(sel.category, p))
    && (query != "" ==> MatchesQuery(query, p))
  }

  /** The filter effect: first by category, then by query. The result is
      the one-pass filter by `Shown`, so it keeps the original order and
      drops exactly the products that fail one of the two tests. */
  function FilterProducts(products: seq<Product>, sel: Selection, query: string): (r: seq<Product>)
    ensures r == Filter(products, p => Shown(sel, query, p))
  {
    var inCategory := p => sel.Selected? && InCategory(sel.category, p);
    var matches := p => MatchesQuery(query, p);
    var byCategory := if sel.Selected? then Filter(products, inCategory) else products;
    var result := if query != "" then Filter(byCategory, matches) else byCategory;
    var shown := p => Shown(sel, query, p);
    if sel.Selected? && query != "" then
      FilterFilter(products, inCategory, matches, shown);
      result
    else if sel.Selected? then
      FilterCongruent(products, inCategory, shown);
      result
    else if query != "" then
      FilterCongruent(products, matches, shown);
      result
    else
      FilterAll(products, shown);
      result
  }

  /** The grid the section shows. */
  function Visible(s: Section): seq<Product> {
    FilterProducts(s.products, s.selected, s.query)
  }

  /** With no real category and an empty query, every product is shown. */
  lemma NoFilterShowsAll(products: seq<Product>, sel: Selection)
    requires !sel.Selected?
    ensures FilterProducts(products, sel, "") == products
  {
    FilterAll(products, p => Shown(sel, "", p));
  }

  /** A shown product is exactly one in the list that passes both tests. */
  lemma ShownIff(products: seq<Product>, sel: Selection, query: string, p: Product)
    ensures p in FilterProducts(products, sel, query) <==> p in products && Shown(sel, query, p)
  {
    var r := FilterProducts(products, sel, query);
    if p in r {
      var i :| 0 <= i < |r| && r[i] == p;
      SubsequenceMembers(r, products, i);
    }
  }

  /** A shown product keeps its relative order: the grid is a subsequence of
      the fetched list. */
  lemma VisibleKeepsOrder(s: Section)
    ensures IsSubsequence(Visible(s), s.products)
  {
  }

  /** `handleCategorySelect`: choose `'all'` or a category and switch to the
      product grid; the query is kept. */
  function CategorySelect(s: Section, sel: Selection): (r: Section)
    requires !sel.NoSelection?
    ensures r.selected == sel && r.mode == ProductsView
    ensures r.query == s.query && r.products == s.products
  {
    s.(selected := sel, mode := ProductsView)
  }

  /** `handleBackToCategories`: clear the selection and the query and show
      the category grid. */
  function BackToCategories(s: Section): (r: Section)
    ensures r.selected == NoSelection && r.mode == CategoriesView && r.query == ""
    ensures r.products == s.products
    ensures Visible(r) == s.products
  {
    NoFilterShowsAll(s.products, NoSelection);
    s.(selected := NoSelection, mode := CategoriesView, query := "")
  }

  /** The search box's `onChange`: store the text; typing something while
      the category grid is up switches to the product grid with `'all'`
      selected. */
  function SearchInput(s: Section, value: string): (r: Section)
    ensures r.query == value && r.products == s.products
    ensures s.mode == CategoriesView && value != "" ==>
              r.mode == ProductsView && r.selected == AllCategories
    ensures !(s.mode == CategoriesView && value != "") ==>
              r.mode == s.mode && r.selected == s.selected
  {
    var t := s.(query := value);
    if s.mode == CategoriesView && value != "" then t.(mode := ProductsView, selected := AllCategories) else t
  }

  /** Searching from the category grid shows every product that matches the
      query, whatever its category. */
  lemma SearchFromCategoriesShowsAllMatches(s: Section, value: string)
    requires s.mode == CategoriesView && value != ""
    ensures Visible(SearchInput(s, value)) == Filter(s.products, p => MatchesQuery(value, p))
  {
    FilterCongruent(s.products, p => Shown(AllCategories, value, p), p => MatchesQuery(value, p));
  }

  /** The item passed to `addItem`: id, name, price and the first image, if
      there is one. */
  function AddToCartItem(p: Product): (r: CartStore.NewItem)
    ensures r.id == p.id && r.name == p.name && r.price == p.price
    ensures r.image.Some? <==> |p.images| > 0
    ensures r.image.Some? ==> r.image.value == p.images[0]
  {
    CartStore.NewItem(p.id, p.name, p.price, if |p.images| > 0 then Some(p.images[0]) else None)
  }

  /** "Add to Cart" on a product card: the product is then in the cart, the
      drawer opens and the item count rises by one. The price total rises by
      the product's price when it is new to the cart, but by the price the
      cart line already holds when it is not (a price changed since the
      first add is not picked up). */
  lemma AddToCartFromGrid(s: CartStore.CartState, p: Product)
    requires CartStore.Valid(s)
    ensures var r := CartStore.AddItem(s, AddToCartItem(p));
            && CartStore.HasId(r.items, p.id) && r.isOpen
            && CartStore.TotalItems(r) == CartStore.TotalItems(s) + 1
            && (!CartStore.HasId(s.items, p.id) ==> CartStore.TotalPrice(r) == CartStore.TotalPrice(s) + p.price)
            && (CartStore.HasId(s.items, p.id) ==>
                  CartStore.TotalPrice(r)
                  == CartStore.TotalPrice(s) + s.items[CartStore.IndexOf(s.items, p.id).value].price)
  {
    var item := AddToCartItem(p);
    var r := CartStore.AddItem(s, item);
    CartStore.AddItemTotals(s, item);
    match CartStore.IndexOf(s.items, p.id)
    case Some(k) =>
      assert r.items[k].id == p.id;
    case None =>
      assert r.items[|s.items|].id == p.id;
  }
}
