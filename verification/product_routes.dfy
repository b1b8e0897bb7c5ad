/** The `/products` routes: lookup by slug, create with its validation
    order and slug-collision suffix, and delete. The random suffix is a
    parameter below 10000; fresh ids come from outside. */
module ProductRoutes {
  import opened Common
  import opened Text
  import opened Slug
  import opened Db

  /** The fields of a create body; `None` is `undefined` (or, for the price,
      also `null`). An absent `stock` converts to `NaN`, which the database
      rejects; a `null` stock converts to 0 and is passed as `Some(0)`. */
  datatype ProductBody = ProductBody(
    name: Option<string>, description: Option<string>, price: Option<int>, stock: Option<int>,
    categoryId: Option<string>, images: Option<seq<string>>, tags: Option<seq<string>>)

  predicate Falsy(s: Option<string>) { s.None? || s.value == "" }

  /** `GET /:slug`: the product with that slug, or 404. */
  function GetBySlug(db: Store, slug: string): (r: Response<Product>)
    ensures r.Failure? <==> slug !in Keys(db.products, ProductSlug)
    ensures r.Failure? ==> r == Failure(404, "Product not found")
    ensures r.Success? ==> r.code == 200 && r.body in db.products && r.body.slug == slug
  {
    match Find(db.products, ProductSlug, slug)
    case None => Failure(404, "Product not found")
    case Some(k) => Success(200, db.products[k])
  }

  /** With unique slugs, the product found is the one stored under it. */
  lemma GetBySlugFindsStored(db: Store, k: nat)
    requires Valid(db) && k < |db.products|
    ensures GetBySlug(db, db.products[k].slug) == Success(200, db.products[k])
  {
    FindUnique(db.products, ProductSlug, db.products[k].slug, k);
  }

  /** The first validation failure of a create body, in the order the route
      checks them: name, then price (0 is a price), then category. */
  function ValidationError(body: ProductBody): (r: Option<string>)
    ensures Falsy(body.name) ==> r == Some("Product name is required")
    ensures !Falsy(body.name) && body.price.None? ==> r == Some("Price is required")
    ensures !Falsy(body.name) && body.price.Some? && Falsy(body.categoryId) ==>
              r == Some("Category is required. Please create a category first.")
    ensures r.None? <==> !Falsy(body.name) && body.price.Some? && !Falsy(body.categoryId)
  {
    if Falsy(body.name) then Some("Product name is required")
    else if body.price.None? then Some("Price is required")
    else if Falsy(body.categoryId) then Some("Category is required. Please create a category first.")
    else None
  }

  /** The slug a new product gets: the slug of its name when no product has
      it yet, otherwise that slug, a dash and the suffix. The suffixed slug
      is not looked up again. */
  function ChooseSlug(products: seq<Product>, name: string, suffix: nat): (slug: string)
    requires suffix < 10000
    ensures Slugify(name) !in Keys(products, ProductSlug) ==> slug == Slugify(name)
    ensures Slugify(name) in Keys(products, ProductSlug) ==>
              slug == Slugify(name) + "-" + NatToString(suffix)
  {
    var base := Slugify(name);
    if Find(products, ProductSlug, base).Some? then base + "-" + NatToString(suffix) else base
  }

  /** A suffixed slug is slug-shaped again, except when the name has no
      letter or digit: then it starts with a dash. */
  lemma SuffixedSlugShape(name: string, suffix: nat)
    requires suffix < 10000
    ensures Slugify(name) != "" ==> IsSlugShaped(Slugify(name) + "-" + NatToString(suffix))
    ensures Slugify(name) == "" ==> (Slugify(name) + "-" + NatToString(suffix))[0] == '-'
  {
    var d := NatToString(suffix);
    if Slugify(name) != "" {
      NumberSlugShaped(suffix);
      JoinSlugShaped(Slugify(name), d);
    }
  }

  /** `POST /`: validation failures are 400s that store nothing. A valid
      body is stored under the fresh id `id` with the chosen slug, the stock
      as given, and `[]` for missing images or tags, and answered with 201.
      The database refuses the row (500, nothing stored) when the id or the
      slug is taken, the category does not exist, or the stock is missing. */
  function Create(db: Store, body: ProductBody, id: string, suffix: nat): (r: (Store, Response<Product>))
    requires suffix < 10000
    ensures ValidationError(body).Some? ==> r == (db, Failure(400, ValidationError(body).value))
    ensures r.1.Failure? ==> r.0 == db
    ensures r.1.Failure? && ValidationError(body).None? ==> r.1 == Failure(500, "Failed to create product")
    ensures r.1.Success? ==>
              && r.1.code == 201
              && ValidationError(body).None? && body.stock.Some?
              && r.1.body == Product(id, body.name.value, ChooseSlug(db.products, body.name.value, suffix),
                                     body.description, body.price.value, body.stock.value, body.categoryId.value,
                                     body.images.GetOr([]), body.tags.GetOr([]))
              && r.0 == db.(products := db.products + [r.1.body])
    ensures ValidationError(body).None? ==>
              (r.1.Success? <==> && id !in Keys(db.products, ProductId)
                                 && ChooseSlug(db.products, body.name.value, suffix) !in Keys(db.products, ProductSlug)
                                 && body.categoryId.value in Keys(db.categories, CategoryId)
                                 && body.stock.Some?)
  {
    match ValidationError(body)
    case Some(e) => (db, Failure(400, e))
    case None =>
      var slug := ChooseSlug(db.products, body.name.value, suffix);
      if || id in Keys(db.products, ProductId) || slug in Keys(db.products, ProductSlug)
         || body.categoryId.value !in Keys(db.categories, CategoryId) || body.stock.None?
      then (db, Failure(500, "Failed to create product"))
      else
        var p := Product(id, body.name.value, slug, body.description, body.price.value, body.stock.value,
                         body.categoryId.value, body.images.GetOr([]), body.tags.GetOr([]));
        (db.(products := db.products + [p]), Success(201, p))
  }

  /** A new product always gets a slug no other product has: a create never
      stores a second product under an existing slug. */
  lemma CreatedSlugIsNew(db: Store, body: ProductBody, id: string, suffix: nat)
    requires suffix < 10000
    requires Create(db, body, id, suffix).1.Success?
    ensures Create(db, body, id, suffix).1.body.slug !in Keys(db.products, ProductSlug)
  {
  }

  /** `DELETE /:id`: removes the product and answers 204; a missing row or
      a product that order lines still point at is a 500 that stores
      nothing. */
  function Delete(db: Store, id: string): (r: (Store, Response<()>))
    ensures r.1.Failure? ==> r.0 == db && r.1 == Failure(500, "Failed to delete product")
    ensures r.1.Success? <==> id in Keys(db.products, ProductId) && !ProductInUse(db, id)
    ensures r.1.Success? ==>
              && r.1.code == 204
              && IsSubsequence(r.0.products, db.products)
              && (forall i :: 0 <= i < |r.0.products| ==> r.0.products[i].id != id)
              && (forall i :: 0 <= i < |db.products| && db.products[i].id != id ==> db.products[i] in r.0.products)
              && r.0.categories == db.categories && r.0.orders == db.orders && r.0.userIds == db.userIds
  {
    if id !in Keys(db.products, ProductId) || ProductInUse(db, id) then
      (db, Failure(500, "Failed to delete product"))
    else
      (db.(products := Filter(db.products, (p: Product) => p.id != id)), Success(204, ()))
  }

  /** On a valid store a successful delete removes exactly one product. */
  lemma DeleteRemovesOne(db: Store, id: string)
    requires Valid(db) && Delete(db, id).1.Success?
    ensures |Delete(db, id).0.products| == |db.products| - 1
  {
    var k := Find(db.products, ProductId, id).value;
    FilterOutKey(db.products, ProductId, (p: Product) => p.id != id, k);
  }

  lemma CreateKeepsValid(db: Store, body: ProductBody, id: string, suffix: nat)
    requires Valid(db) && suffix < 10000
    ensures Valid(Create(db, body, id, suffix).0)
  {
    var r := Create(db, body, id, suffix);
    if r.1.Success? {
      AppendFresh(db.products, ProductId, r.1.body);
      AppendFresh(db.products, ProductSlug, r.1.body);
    }
  }

  lemma DeleteKeepsValid(db: Store, id: string)
    requires Valid(db)
    ensures Valid(Delete(db, id).0)
  {
    var r := Delete(db, id);
    if r.1.Success? {
      var k := Find(db.products, ProductId, id).value;
      FilterOutKey(db.products, ProductId, (p: Product) => p.id != id, k);
      FilterOutKey(db.products, ProductSlug, (p: Product) => p.id != id, k) by {
        forall i | 0 <= i < |db.products|
          ensures (db.products[i].id != id) == (ProductSlug(db.products[i]) != ProductSlug(db.products[k]))
        {
          if i != k {
            assert ProductId(db.products[i]) != ProductId(db.products[k]);
            assert ProductSlug(db.products[i]) != ProductSlug(db.products[k]);
          }
        }
      }
      RemoveAt(db.products, ProductId, k);
      RemoveAt(db.products, ProductSlug, k);
      forall i, j | 0 <= i < |db.orders| && 0 <= j < |db.orders[i].items|
        ensures db.orders[i].items[j].productId in Keys(r.0.products, ProductId)
      {
        assert db.orders[i].items[j].productId != id;
      }
    }
  }
}
