/** The admin "new product" form: its initial values, the category default
    once categories arrive, the submit guard and the payload it posts. Price
    and stock stay text here; their numeric conversion is not modelled. */
module NewProductPage {
  import opened Common

  datatype CategoryRef = CategoryRef(id: string, name: string)

  datatype ProductForm = ProductForm(
    name: string, description: string, price: string,
    categoryId: string, imageUrl: string, stock: string)

  datatype Field = Name | Description | Price | CategoryId | ImageUrl | Stock

  /** The form on first render: stock `'10'`, everything else empty. */
  const InitialForm: ProductForm := ProductForm("", "", "", "", "", "10")

  function GetField(f: ProductForm, name: Field): string {
    match name
    case Name => f.name
    case Description => f.description
    case Price => f.price
    case CategoryId => f.categoryId
    case ImageUrl => f.imageUrl
    case Stock => f.stock
  }

  lemma InitialFormFields()
    ensures forall g :: GetField(InitialForm, g) == if g == Stock then "10" else ""
  {
  }

  /** `handleChange`: `{...formData, [name]: value}` changes only the named
      field. */
  function SetField(f: ProductForm, name: Field, value: string): (r: ProductForm)
    ensures forall g :: GetField(r, g) == if g == name then value else GetField(f, g)
  {
    match name
    case Name => f.(name := value)
    case Description => f.(description := value)
    case Price => f.(price := value)
    case CategoryId => f.(categoryId := value)
    case ImageUrl => f.(imageUrl := value)
    case Stock => f.(stock := value)
  }

  /** After categories load: the first category is preselected when there
      is one; otherwise the form is left alone. */
  function LoadCategories(f: ProductForm, cats: seq<CategoryRef>): (r: ProductForm)
    ensures |cats| > 0 ==> r.categoryId == cats[0].id
    ensures |cats| == 0 ==> r == f
    ensures forall g :: g != CategoryId ==> GetField(r, g) == GetField(f, g)
  {
    if |cats| > 0 then f.(categoryId := cats[0].id) else f
  }

  /** The body of `POST /products`: the form spread in, then `images` and
      `tags`. */
  datatype ProductPayload = ProductPayload(form: ProductForm, images: seq<string>, tags: seq<string>)

  /** `handleSubmit`: without a category no request is sent; otherwise the
      payload carries the form, the image URL as a one-element list when
      there is one, and no tags. */
  function Submit(f: ProductForm): (r: Option<ProductPayload>)
    ensures r.None? <==> f.categoryId == ""
    ensures r.Some? ==> r.value.form == f && r.value.tags == []
    ensures r.Some? ==> (r.value.images == [] <==> f.imageUrl == "")
    ensures r.Some? && f.imageUrl != "" ==> r.value.images == [f.imageUrl]
  {
    if f.categoryId == "" then None
    else Some(ProductPayload(f, if f.imageUrl != "" then [f.imageUrl] else [], []))
  }

  /** Once a non-empty category list has loaded, a submit always sends a
      request, whatever else the form holds. */
  lemma LoadedFormSubmits(f: ProductForm, cats: seq<CategoryRef>)
    requires |cats| > 0 && cats[0].id != ""
    ensures Submit(LoadCategories(f, cats)).Some?
  {
  }
}
