/** The admin product list: the name search over the fetched products and
    the local list update after a delete. The `DELETE` request and the
    confirmation dialog are outcomes supplied from outside. */
module AdminProductsPage {
  import opened Common
  import opened Text

  datatype Product = Product(
    id: string, name: string, description: string, price: int,
    images: seq<string>, categoryName: Option<string>, stock: int)

  /** The lowercased search term occurs in the lowercased name; the
      description plays no part. */
  predicate NameMatches(term: string, p: Product) {
    Contains(Lower(p.name), Lower(term))
  }

  /** `filteredProducts`: the products whose name matches, in list order,
      as many as there are matching positions (so a product listed twice
      and matching is shown twice). An empty term matches every name. */
  function FilteredProducts(products: seq<Product>, term: string): (r: seq<Product>)
    ensures IsSubsequence(r, products)
    ensures forall i :: 0 <= i < |r| ==> NameMatches(term, r[i])
    ensures forall i :: 0 <= i < |products| && NameMatches(term, products[i]) ==> products[i] in r
    ensures |r| == CountWhere(products, (p: Product) => NameMatches(term, p))
    ensures term == "" ==> r == products
  {
    var matches := (p: Product) => NameMatches(term, p);
    if term == "" then
      forall i | 0 <= i < |products| ensures matches(products[i]) {
        ContainsEmpty(Lower(products[i].name));
      }
      FilterAll(products, matches);
      Filter(products, matches)
    else
      Filter(products, matches)
  }

  /** Two products that differ only in their description are shown or
      hidden together: the search never looks at descriptions. */
  lemma DescriptionNotSearched(term: string, p: Product, d: string)
    ensures NameMatches(term, p.(description := d)) == NameMatches(term, p)
  {
  }

  /** `handleDelete`: unless the dialog is confirmed and the request
      succeeds, the list is untouched; otherwise exactly the products with
      that id leave it and the rest keep their order. */
  function HandleDelete(products: seq<Product>, id: string, confirmed: bool, deleted: bool): (r: seq<Product>)
    ensures !(confirmed && deleted) ==> r == products
    ensures confirmed && deleted ==>
              && IsSubsequence(r, products)
              && (forall i :: 0 <= i < |r| ==> r[i].id != id)
              && (forall i :: 0 <= i < |products| && products[i].id != id ==> products[i] in r)
              && |r| == |products| - CountWhere(products, (p: Product) => p.id == id)
  {
    if !confirmed || !deleted then products
    else
      var keep := (p: Product) => p.id != id;
      CountComplement(products, keep, (p: Product) => p.id == id);
      Filter(products, keep)
  }
}
