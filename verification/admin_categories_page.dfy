/** The admin category form: entering and leaving edit mode, the submit
    that creates or updates, and the image field driven by the upload
    widget. The request outcome is supplied from outside. */
module AdminCategoriesPage {
  import opened Common
  import opened Text

  datatype Category = Category(
    id: string, name: string, slug: string, image: Option<string>, description: Option<string>)

  datatype CategoryForm = CategoryForm(name: string, image: string, description: string)

  const EmptyForm: CategoryForm := CategoryForm("", "", "")

  /** `editingCategory` (present in edit mode) and `formData`. */
  datatype Page = Page(editing: Option<Category>, form: CategoryForm)

  const Initial: Page := Page(None, EmptyForm)

  /** The request a submit sends: `PUT /categories/:id` or `POST /categories`,
      both with the whole form as body. */
  datatype Request = UpdateCategory(id: string, body: CategoryForm) | CreateCategory(body: CategoryForm)

  /** `handleEdit`: edit mode on `c`, its fields loaded with `''` for a
      missing image or description. */
  function HandleEdit(p: Page, c: Category): (r: Page)
    ensures r.editing == Some(c)
    ensures r.form.name == c.name
    ensures r.form.image == c.image.GetOr("") && r.form.description == c.description.GetOr("")
  {
    Page(Some(c), CategoryForm(c.name, c.image.GetOr(""), c.description.GetOr("")))
  }

  /** Saving an edit without touching the form sends `PUT` for that
      category's id with its own values, missing image or description as
      `''`; a whitespace-only name sends nothing. */
  lemma EditThenSubmit(p: Page, c: Category, ok: bool)
    ensures !IsBlank(c.name) ==>
              HandleSubmit(HandleEdit(p, c), ok).0
              == Some(UpdateCategory(c.id, CategoryForm(c.name, c.image.GetOr(""), c.description.GetOr(""))))
    ensures IsBlank(c.name) ==> HandleSubmit(HandleEdit(p, c), ok) == (None, HandleEdit(p, c))
    ensures ok && !IsBlank(c.name) ==> HandleSubmit(HandleEdit(p, c), ok).1 == Initial
  {
  }

  /** `handleCancel`: out of edit mode with an empty form. */
  function HandleCancel(p: Page): (r: Page)
    ensures r == Initial
  {
    Page(None, CategoryForm("", "", ""))
  }

  /** Whether the submit button is disabled: while a request is in flight,
      or when the name is blank. */
  function SubmitDisabled(p: Page, isSubmitting: bool): (b: bool)
    ensures !isSubmitting ==> (b <==> IsBlank(p.form.name))
  {
    TrimEmptyIff(p.form.name);
    isSubmitting || Trim(p.form.name) == ""
  }

  /** `handleSubmit`: a blank name sends nothing and changes nothing;
      otherwise the request is an update of the edited category or a create,
      carrying the form, and a successful request resets the page while a
      failed one leaves it as it was. */
  function HandleSubmit(p: Page, ok: bool): (r: (Option<Request>, Page))
    ensures IsBlank(p.form.name) ==> r.0 == None && r.1 == p
    ensures !IsBlank(p.form.name) ==> r.0.Some? && r.0.value.body == p.form
    ensures r.0.Some? ==> (r.0.value.UpdateCategory? <==> p.editing.Some?)
    ensures r.0.Some? && p.editing.Some? ==> r.0.value == UpdateCategory(p.editing.value.id, p.form)
    ensures r.0.Some? && ok ==> r.1 == Initial
    ensures !ok ==> r.1 == p
  {
    TrimEmptyIff(p.form.name);
    if Trim(p.form.name) == "" then (None, p)
    else
      var req := if p.editing.Some? then UpdateCategory(p.editing.value.id, p.form) else CreateCategory(p.form);
      (Some(req), if ok then HandleCancel(p) else p)
  }

  /** A request that leaves the page carries a name with a non-whitespace
      character, hence a non-empty one. */
  lemma SubmittedNameNonEmpty(p: Page, ok: bool)
    requires HandleSubmit(p, ok).0.Some?
    ensures HandleSubmit(p, ok).0.value.body.name != ""
  {
  }

  /** The upload widget's `onChange`: the image becomes the uploaded URL. */
  function UploadImage(p: Page, url: string): (r: Page)
    ensures r.form.image == url
    ensures r.editing == p.editing && r.form.name == p.form.name && r.form.description == p.form.description
  {
    p.(form := p.form.(image := url))
  }

  /** The upload widget's `onRemove`: the image becomes `''`. */
  function RemoveImage(p: Page): (r: Page)
    ensures r.form.image == "" && Preview(r) == []
    ensures r.editing == p.editing && r.form.name == p.form.name && r.form.description == p.form.description
  {
    p.(form := p.form.(image := ""))
  }

  /** The list handed to the widget: `[image]` when there is one. */
  function Preview(p: Page): (r: seq<string>)
    ensures |r| <= 1
    ensures r == [] <==> p.form.image == ""
    ensures r != [] ==> r[0] == p.form.image
  {
    if p.form.image != "" then [p.form.image] else []
  }

  /** Uploading a URL and then removing it leaves no image, whatever was
      there before. */
  lemma UploadThenRemove(p: Page, url: string)
    ensures RemoveImage(UploadImage(p, url)) == RemoveImage(p)
  {
  }
}
