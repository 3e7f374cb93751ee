/** The plant form: fourteen text inputs and the `is_sample` checkbox,
    reset from the plant prop, submitted whole and reported back to the
    parent without a status check. */
module PlantAdminForm {
  import opened Http
  import opened Records
  import opened Manager

  datatype TextField =
    | CommonName | ScientificName | Family | Description | GrowingHarvesting | PhotoUrl
    | PartsUsed | PhysiologicalActions | Energetics | WaysToUse | Uses | Cautions | History | Magical

  /** An input event: a text input reports its `value`, the one checkbox
      (`is_sample`) reports `checked`. */
  datatype ChangeEvent = TextInput(name: TextField, value: string) | CheckboxInput(checked: bool)

  /** The form data, which is also the request body: an edited plant's
      record including its id, or the blank initial state. */
  datatype Draft = Draft(id: Option<int>, fields: PlantFields)

  const Base := "/plants"

  const InitialFields := PlantFields("", "", "", "", "", "", "", "", "", "", "", "", "", "", false)

  const InitialState := Draft(None, InitialFields)

  function GetText(f: PlantFields, name: TextField): string {
    match name
    case CommonName => f.commonName
    case ScientificName => f.scientificName
    case Family => f.family
    case Description => f.description
    case GrowingHarvesting => f.growingHarvesting
    case PhotoUrl => f.photoUrl
    case PartsUsed => f.partsUsed
    case PhysiologicalActions => f.physiologicalActions
    case Energetics => f.energetics
    case WaysToUse => f.waysToUse
    case Uses => f.uses
    case Cautions => f.cautions
    case History => f.history
    case Magical => f.magical
  }

  function SetText(f: PlantFields, name: TextField, v: string): PlantFields {
    match name
    case CommonName => f.(commonName := v)
    case ScientificName => f.(scientificName := v)
    case Family => f.(family := v)
    case Description => f.(description := v)
    case GrowingHarvesting => f.(growingHarvesting := v)
    case PhotoUrl => f.(photoUrl := v)
    case PartsUsed => f.(partsUsed := v)
    case PhysiologicalActions => f.(physiologicalActions := v)
    case Energetics => f.(energetics := v)
    case WaysToUse => f.(waysToUse := v)
    case Uses => f.(uses := v)
    case Cautions => f.(cautions := v)
    case History => f.(history := v)
    case Magical => f.(magical := v)
  }

  lemma SetTextReads(f: PlantFields, name: TextField, v: string)
    ensures GetText(SetText(f, name, v), name) == v
    ensures SetText(f, name, v).isSample == f.isSample
  {
  }

  lemma SetTextKeeps(f: PlantFields, name: TextField, other: TextField, v: string)
    requires other != name
    ensures GetText(SetText(f, name, v), other) == GetText(f, other)
  {
    match name
    case CommonName =>
    case ScientificName =>
    case Family =>
    case Description =>
    case GrowingHarvesting =>
    case PhotoUrl =>
    case PartsUsed =>
    case PhysiologicalActions =>
    case Energetics =>
    case WaysToUse =>
    case Uses =>
    case Cautions =>
    case History =>
    case Magical =>
  }

  /** The initial state holds "" in every text field and `false` for `is_sample`. */
  lemma InitialStateIsBlank()
    ensures forall name: TextField :: GetText(InitialState.fields, name) == ""
    ensures !InitialState.fields.isSample && InitialState.id.None?
  {
  }

  predicate IsEditing(plant: Option<Plant>) {
    plant.Some?
  }

  /** The effect on the `plant` prop: the form data becomes the plant, or
      the initial state. */
  function Reset(plant: Option<Plant>): (d: Draft)
    ensures plant.Some? ==> d.id == Some(plant.value.id) && d.fields == plant.value.fields
    ensures plant.None? ==> forall name: TextField :: GetText(d.fields, name) == ""
    ensures plant.None? ==> !d.fields.isSample && d.id.None?
  {
    match plant
    case Some(p) => Draft(Some(p.id), p.fields)
    case None => InitialState
  }

  /** `handleChange`: the named input takes its value (`checked` for the
      checkbox); every other entry of the form data is kept. */
  function HandleChange(d: Draft, e: ChangeEvent): (r: Draft)
    ensures r.id == d.id
    ensures e.TextInput? ==> GetText(r.fields, e.name) == e.value && r.fields.isSample == d.fields.isSample
    ensures e.TextInput? ==> forall other: TextField :: other != e.name ==> GetText(r.fields, other) == GetText(d.fields, other)
    ensures e.CheckboxInput? ==> r.fields.isSample == e.checked
    ensures e.CheckboxInput? ==> forall name: TextField :: GetText(r.fields, name) == GetText(d.fields, name)
  {
    match e
    case TextInput(name, v) =>
      SetTextReads(d.fields, name, v);
      forall other: TextField | other != name
        ensures GetText(SetText(d.fields, name, v), other) == GetText(d.fields, other)
      {
        SetTextKeeps(d.fields, name, other, v);
      }
      d.(fields := SetText(d.fields, name, v))
    case CheckboxInput(c) => d.(fields := d.fields.(isSample := c))
  }

  /** `handleSubmit`: `PATCH /plants/{id}` when a plant was given, else
      `POST /plants`; the body is the whole form data, unwrapped. */
  function SubmitRequest(plant: Option<Plant>, d: Draft): (req: Request<Draft>)
    ensures IsEditing(plant) ==> req.verb == PATCH && req.path == MemberPath(Base, plant.value.id)
    ensures !IsEditing(plant) ==> req.verb == POST && req.path == CollectionPath(Base)
    ensures req.body == d
  {
    SaveRequest(Base, if plant.Some? then Some(plant.value.id) else None, d)
  }

  /** The save settles: any parsed body, 2xx or not, is handed to
      `onSuccess(data, !!plant)`; a network failure or an unparsable body
      rejects with no handler. A refused save's body is typed here as the
      plant the parent will take it for. */
  function SubmitSettled(plant: Option<Plant>, resp: Response<Plant, Plant>): (r: Settled<Plant>)
    ensures resp.Ok? ==> r == Notify(Callback(Some(resp.payload), IsEditing(plant)))
    ensures resp.Rejected? ==> r == Notify(Callback(Some(resp.body), IsEditing(plant)))
    ensures resp.NetworkError? ==> r == Silent
  {
    match resp
    case Ok(d) => Notify(Callback(Some(d), IsEditing(plant)))
    case Rejected(b) => Notify(Callback(Some(b), IsEditing(plant)))
    case NetworkError(_) => Silent
  }

  /** Typing a value into a field and then typing its old value back
      restores the form data. */
  lemma ChangeUndo(d: Draft, name: TextField, v: string)
    ensures HandleChange(HandleChange(d, TextInput(name, v)), TextInput(name, GetText(d.fields, name))) == d
  {
    match name
    case CommonName =>
    case ScientificName =>
    case Family =>
    case Description =>
    case GrowingHarvesting =>
    case PhotoUrl =>
    case PartsUsed =>
    case PhysiologicalActions =>
    case Energetics =>
    case WaysToUse =>
    case Uses =>
    case Cautions =>
    case History =>
    case Magical =>
  }
}
