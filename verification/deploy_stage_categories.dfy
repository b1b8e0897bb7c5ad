/** The deployed server's `/categories` router: the same list, create and
    update handlers as the development server, and no delete route, so a
    `DELETE` falls through to the framework's 404. */
module DeployStageCategories {
  import opened Db
  import CategoryRoutes

  /** The deployed router. */
  function Handle(db: Store, req: CategoryRoutes.Request, freshId: string): (r: (Store, Response<CategoryRoutes.Reply>))
    ensures req.Remove? ==> r == (db, Failure(404, "Cannot DELETE"))
    ensures r.1.Failure? ==> r.0 == db
  {
    if req.Remove? then (db, Failure(404, "Cannot DELETE"))
    else CategoryRoutes.Handle(db, req, freshId)
  }

  lemma HandleKeepsValid(db: Store, req: CategoryRoutes.Request, freshId: string)
    requires Valid(db)
    ensures Valid(Handle(db, req, freshId).0)
  {
    CategoryRoutes.HandleKeepsValid(db, req, freshId);
  }

  /** The two routers answer every request the same way, except `DELETE`,
      which the deployed one never lets change a category. */
  lemma AgreesWithServerExceptDelete(db: Store, req: CategoryRoutes.Request, freshId: string)
    ensures !req.Remove? ==> Handle(db, req, freshId) == CategoryRoutes.Handle(db, req, freshId)
    ensures req.Remove? ==> Handle(db, req, freshId).0.categories == db.categories
  {
  }

  /** No request to the deployed router ever removes a category. */
  lemma NeverShrinks(db: Store, req: CategoryRoutes.Request, freshId: string)
    ensures |Handle(db, req, freshId).0.categories| >= |db.categories|
  {
    if !req.Remove? {
      var r := CategoryRoutes.Handle(db, req, freshId);
      match req
      case GetAll =>
      case Post(body) =>
      case Put(id, body) =>
    }
  }
}
