/** The recipe form: five text inputs and the `is_remedy` checkbox,
    submitted wrapped under `recipe`; a failure is shown inline. */
module RecipeAdminForm {
  import opened Http
  import opened Records
  import opened Manager

  datatype TextField = Title | Description | Ingredients | Instructions | ImageUrl

  datatype ChangeEvent = TextInput(name: TextField, value: string) | CheckboxInput(checked: bool)

  datatype Fields = Fields(
    title: string,
    description: string,
    ingredients: string,
    instructions: string,
    imageUrl: string,
    isRemedy: bool)

  /** The request body `{recipe: formData}`. */
  datatype Envelope = Envelope(recipe: Fields)

  const Base := "/recipes"
  const SaveFailed := "Failed to save recipe"

  function GetText(f: Fields, name: TextField): string {
    match name
    case Title => f.title
    case Description => f.description
    case Ingredients => f.ingredients
    case Instructions => f.instructions
    case ImageUrl => f.imageUrl
  }

  predicate IsEditing(recipe: Option<Recipe>) {
    recipe.Some?
  }

  /** Inputs start from the recipe, or "" and `false` when creating. */
  function InitFields(recipe: Option<Recipe>): (f: Fields)
    ensures recipe.Some? ==> forall name: TextField :: GetText(f, name) == GetText(FieldsOf(recipe.value), name)
    ensures recipe.Some? ==> f.isRemedy == recipe.value.isRemedy
    ensures recipe.None? ==> (forall name: TextField :: GetText(f, name) == "") && !f.isRemedy
  {
    match recipe
    case Some(r) => FieldsOf(r)
    case None => Fields("", "", "", "", "", false)
  }

  /** The editable attributes of a recipe. */
  function FieldsOf(r: Recipe): Fields {
    Fields(r.title, r.description, r.ingredients, r.instructions, r.imageUrl, r.isRemedy)
  }

  /** `handleChange`: the named input takes its value (`checked` for the
      checkbox); the other fields are kept. */
  function HandleChange(f: Fields, e: ChangeEvent): (r: Fields)
    ensures e.TextInput? ==> GetText(r, e.name) == e.value && r.isRemedy == f.isRemedy
    ensures e.TextInput? ==> forall other: TextField :: other != e.name ==> GetText(r, other) == GetText(f, other)
    ensures e.CheckboxInput? ==> r.isRemedy == e.checked
    ensures e.CheckboxInput? ==> forall name: TextField :: GetText(r, name) == GetText(f, name)
  {
    match e
    case TextInput(name, v) =>
      (match name
       case Title => f.(title := v)
       case Description => f.(description := v)
       case Ingredients => f.(ingredients := v)
       case Instructions => f.(instructions := v)
       case ImageUrl => f.(imageUrl := v))
    case CheckboxInput(c) => f.(isRemedy := c)
  }

  /** `handleSubmit`: `PATCH /recipes/{id}` for an existing recipe, else
      `POST /recipes`, with the form data wrapped under `recipe`. */
  function SubmitRequest(recipe: Option<Recipe>, f: Fields): (req: Request<Envelope>)
    ensures IsEditing(recipe) ==> req.verb == PATCH && req.path == MemberPath(Base, recipe.value.id)
    ensures !IsEditing(recipe) ==> req.verb == POST && req.path == CollectionPath(Base)
    ensures req.body.recipe == f
  {
    SaveRequest(Base, if recipe.Some? then Some(recipe.value.id) else None, Envelope(f))
  }

  /** A 2xx calls `onSuccess(data, !!recipe)`; a refusal sets the inline
      error "Failed to save recipe"; a network failure shows its message. */
  function SubmitSettled(recipe: Option<Recipe>, resp: Response<Recipe, ()>): (r: Settled<Recipe>)
    ensures r.Notify? <==> resp.Ok?
    ensures resp.Ok? ==> r == Notify(Callback(Some(resp.payload), IsEditing(recipe)))
    ensures resp.Rejected? ==> r == ShowError(SaveFailed)
    ensures resp.NetworkError? ==> r == ShowError(resp.reason)
  {
    match resp
    case Ok(d) => Notify(Callback(Some(d), IsEditing(recipe)))
    case Rejected(_) => ShowError(SaveFailed)
    case NetworkError(m) => ShowError(m)
  }
}
