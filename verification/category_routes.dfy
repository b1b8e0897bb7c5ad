/** The `/categories` routes: the list ordered by name, create with a
    required name, partial update, and delete. Every database failure is a
    500 with the route's message. */
module CategoryRoutes {
  import opened Common
  import opened Slug
  import opened Sorting
  import opened Db

  /** The fields of a request body. `None` is an absent (`undefined`) field;
      for `image` and `description`, `Some(None)` is an explicit `null`. */
  datatype CategoryBody = CategoryBody(
    name: Option<string>, image: Option<Option<string>>, description: Option<Option<string>>)

  /** `!name`: absent or the empty string. */
  predicate Falsy(s: Option<string>) { s.None? || s.value == "" }

  /** An omitted column and an explicit `null` both store no value. */
  function Flatten(v: Option<Option<string>>): Option<string> {
    if v.Some? then v.value else None
  }

  predicate NameLe(a: Category, b: Category) { LexLe(a.name, b.name) }

  /** `GET /`: every category, by name ascending. */
  function List(db: Store): (r: Response<seq<Category>>)
    ensures r.Success? && r.code == 200
    ensures SortedBy(r.body, NameLe)
    ensures multiset(r.body) == multiset(db.categories)
  {
    LexLeIsTotalPreorder();
    assert IsTotalPreorder(NameLe);
    Success(200, SortBy(db.categories, NameLe))
  }

  /** `POST /`: a falsy name is a 400 that stores nothing. Otherwise the
      category is stored with the slug of its name under the fresh id `id`
      and answered with 201, unless the id or the slug is already taken, in
      which case the database refuses it and the answer is 500. */
  function Create(db: Store, body: CategoryBody, id: string): (r: (Store, Response<Category>))
    ensures Falsy(body.name) ==> r == (db, Failure(400, "Name is required"))
    ensures r.1.Failure? ==> r.0 == db
    ensures r.1.Success? ==>
              && !Falsy(body.name) && r.1.code == 201
              && r.1.body == Category(id, body.name.value, Slugify(body.name.value), Flatten(body.image), Flatten(body.description))
              && r.0 == db.(categories := db.categories + [r.1.body])
    ensures !Falsy(body.name) ==>
              (r.1.Success? <==> id !in Keys(db.categories, CategoryId)
                                 && Slugify(body.name.value) !in Keys(db.categories, CategorySlug))
  {
    if Falsy(body.name) then (db, Failure(400, "Name is required"))
    else
      var c := Category(id, body.name.value, Slugify(body.name.value), Flatten(body.image), Flatten(body.description));
      if id in Keys(db.categories, CategoryId) || c.slug in Keys(db.categories, CategorySlug) then
        (db, Failure(500, "Failed to create category"))
      else
        (db.(categories := db.categories + [c]), Success(201, c))
  }

  /** The merge `PUT /:id` performs on the stored row: a truthy name sets
      name and slug together; `image` and `description` are overwritten only
      when present in the body (an explicit `null` clears them). */
  function Merge(c: Category, body: CategoryBody): (r: Category)
    ensures r.id == c.id
    ensures !Falsy(body.name) ==> r.name == body.name.value && r.slug == Slugify(body.name.value)
    ensures Falsy(body.name) ==> r.name == c.name && r.slug == c.slug
    ensures r.image == (if body.image.Some? then body.image.value else c.image)
    ensures r.description == (if body.description.Some? then body.description.value else c.description)
  {
    var named := if Falsy(body.name) then c else c.(name := body.name.value, slug := Slugify(body.name.value));
    var imaged := if body.image.Some? then named.(image := body.image.value) else named;
    if body.description.Some? then imaged.(description := body.description.value) else imaged
  }

  /** An empty body changes nothing. */
  lemma MergeEmpty(c: Category)
    ensures Merge(c, CategoryBody(None, None, None)) == c
  {
  }

  /** Merging the same body twice is merging it once. */
  lemma MergeIdempotent(c: Category, body: CategoryBody)
    ensures Merge(Merge(c, body), body) == Merge(c, body)
  {
  }

  /** Another category already uses `slug`. */
  predicate SlugTakenByOther(cats: seq<Category>, id: string, slug: string) {
    exists i :: 0 <= i < |cats| && cats[i].id != id && cats[i].slug == slug
  }

  /** `PUT /:id`: the row with that id is replaced by its merge with the
      body and answered with 200; a missing row, or a new slug another
      category already has, is a 500 that stores nothing. */
  function Update(db: Store, id: string, body: CategoryBody): (r: (Store, Response<Category>))
    ensures r.1.Failure? ==> r.0 == db && r.1 == Failure(500, "Failed to update category")
    ensures id !in Keys(db.categories, CategoryId) ==> r.1.Failure?
    ensures r.1.Success? <==>
              && Find(db.categories, CategoryId, id).Some?
              && !SlugTakenByOther(db.categories, id, Merge(db.categories[Find(db.categories, CategoryId, id).value], body).slug)
    ensures r.1.Success? ==>
              && r.1.code == 200
              && r.1.body == Merge(db.categories[Find(db.categories, CategoryId, id).value], body)
              && |r.0.categories| == |db.categories|
              && (forall i :: 0 <= i < |db.categories| ==>
                    r.0.categories[i] == if db.categories[i].id == id then Merge(db.categories[i], body) else db.categories[i])
              && r.0.products == db.products && r.0.orders == db.orders && r.0.userIds == db.userIds
  {
    match Find(db.categories, CategoryId, id)
    case None => (db, Failure(500, "Failed to update category"))
    case Some(k) =>
      var c := Merge(db.categories[k], body);
      if SlugTakenByOther(db.categories, id, c.slug) then (db, Failure(500, "Failed to update category"))
      else
        var cats := seq(|db.categories|, i requires 0 <= i < |db.categories| =>
                          if db.categories[i].id == id then Merge(db.categories[i], body) else db.categories[i]);
        (db.(categories := cats), Success(200, c))
  }

  /** In a store with unique ids, updating a stored category succeeds
      exactly when its merged slug is not another category's, and then
      answers with that merge. */
  lemma UpdateStored(db: Store, k: nat, body: CategoryBody)
    requires Unique(db.categories, CategoryId) && k < |db.categories|
    ensures var c := db.categories[k];
            && (Update(db, c.id, body).1.Success? <==> !SlugTakenByOther(db.categories, c.id, Merge(c, body).slug))
            && (Update(db, c.id, body).1.Success? ==> Update(db, c.id, body).1.body == Merge(c, body))
  {
    FindUnique(db.categories, CategoryId, db.categories[k].id, k);
  }

  /** `DELETE /:id`: removes the category and answers 204; a missing row or
      a category that products still point at is a 500 that stores
      nothing. */
  function Delete(db: Store, id: string): (r: (Store, Response<()>))
    ensures r.1.Failure? ==> r.0 == db && r.1 == Failure(500, "Failed to delete category. It may contain products.")
    ensures r.1.Success? <==> id in Keys(db.categories, CategoryId) && !CategoryInUse(db, id)
    ensures r.1.Success? ==>
              && r.1.code == 204
              && IsSubsequence(r.0.categories, db.categories)
              && (forall i :: 0 <= i < |r.0.categories| ==> r.0.categories[i].id != id)
              && (forall i :: 0 <= i < |db.categories| && db.categories[i].id != id ==> db.categories[i] in r.0.categories)
              && r.0.products == db.products && r.0.orders == db.orders && r.0.userIds == db.userIds
  {
    if id !in Keys(db.categories, CategoryId) || CategoryInUse(db, id) then
      (db, Failure(500, "Failed to delete category. It may contain products."))
    else
      (db.(categories := Filter(db.categories, (c: Category) => c.id != id)), Success(204, ()))
  }

  // ---- Routing ------------------------------------------------------------------

  /** A request to the router: `GET /`, `POST /`, `PUT /:id`, `DELETE /:id`. */
  datatype Request = GetAll | Post(body: CategoryBody) | Put(id: string, body: CategoryBody) | Remove(id: string)

  /** What a successful answer carries. */
  datatype Reply = Many(categories: seq<Category>) | One(category: Category) | NoContent

  function Lift<T>(r: Response<T>, wrap: T -> Reply): Response<Reply> {
    match r
    case Success(code, body) => Success(code, wrap(body))
    case Failure(code, error) => Failure(code, error)
  }

  /** The router: each request goes to its handler; `freshId` is the id the
      database would give a new row. */
  function Handle(db: Store, req: Request, freshId: string): (r: (Store, Response<Reply>))
    ensures req.GetAll? ==> r.0 == db
    ensures r.1.Failure? ==> r.0 == db
    ensures req.Remove? ==> (r.1.Success? <==> req.id in Keys(db.categories, CategoryId) && !CategoryInUse(db, req.id))
  {
    match req
    case GetAll => (db, Lift(List(db), (cs: seq<Category>) => Many(cs)))
    case Post(body) =>
      var (db', res) := Create(db, body, freshId);
      (db', Lift(res, (c: Category) => One(c)))
    case Put(id, body) =>
      var (db', res) := Update(db, id, body);
      (db', Lift(res, (c: Category) => One(c)))
    case Remove(id) =>
      var (db', res) := Delete(db, id);
      (db', Lift(res, (_: ()) => NoContent))
  }

  lemma HandleKeepsValid(db: Store, req: Request, freshId: string)
    requires Valid(db)
    ensures Valid(Handle(db, req, freshId).0)
  {
    match req
    case GetAll =>
    case Post(body) => CreateKeepsValid(db, body, freshId);
    case Put(id, body) => UpdateKeepsValid(db, id, body);
    case Remove(id) => DeleteKeepsValid(db, id);
  }

  // ---- Store invariant ------------------------------------------------------------

  lemma CreateKeepsValid(db: Store, body: CategoryBody, id: string)
    requires Valid(db)
    ensures Valid(Create(db, body, id).0)
  {
    var r := Create(db, body, id);
    if r.1.Success? {
      AppendFresh(db.categories, CategoryId, r.1.body);
      AppendFresh(db.categories, CategorySlug, r.1.body);
    }
  }

  lemma UpdateKeepsValid(db: Store, id: string, body: CategoryBody)
    requires Valid(db)
    ensures Valid(Update(db, id, body).0)
  {
    var r := Update(db, id, body);
    if r.1.Success? {
      var s := db.categories;
      var t := r.0.categories;
      SameKeys(s, t, CategoryId);
      var k := Find(s, CategoryId, id).value;
      forall i, j | 0 <= i < |t| && 0 <= j < |t| && i != j ensures t[i].slug != t[j].slug {
        if s[i].id == id {
          assert i == k;
        } else if s[j].id == id {
          assert j == k;
        }
      }
    }
  }

  lemma DeleteKeepsValid(db: Store, id: string)
    requires Valid(db)
    ensures Valid(Delete(db, id).0)
  {
    var r := Delete(db, id);
    if r.1.Success? {
      var k := Find(db.categories, CategoryId, id).value;
      FilterOutKey(db.categories, CategoryId, (c: Category) => c.id != id, k);
      RemoveAt(db.categories, CategoryId, k);
      RemoveAt(db.categories, CategorySlug, k);
      forall i | 0 <= i < |db.products| ensures db.products[i].categoryId in Keys(r.0.categories, CategoryId) {
        assert db.products[i].categoryId != id;
      }
    }
  }
}
