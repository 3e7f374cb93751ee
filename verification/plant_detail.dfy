/** The plant detail page: a fetch that either shows the plant or an error,
    a lock gate over the plant's content, a local fake-subscribe override,
    and the table of non-empty fields shown when unlocked. */
module PlantDetail {
  import opened Http
  import opened Records

  datatype Page = Loading | Failed(message: string) | Loaded(plant: Plant)

  const FetchFailed := "Failed to fetch plant details"

  /** The labels of the detail table, in display order. */
  const Labels := [
    "Common Name", "Scientific Name", "Family", "Description", "Growing & Harvesting",
    "Parts Used", "Physiological Actions", "Energetics", "Ways to Use", "Uses",
    "Cautions", "History", "Magical"]

  /** The fetch settles: a 2xx shows the plant; a refusal shows the fixed
      message; a network failure shows its own message. */
  function Fetch(resp: Response<Plant, ()>): (p: Page)
    ensures p.Loaded? <==> resp.Ok?
    ensures resp.Ok? ==> p == Loaded(resp.payload)
    ensures resp.Rejected? ==> p == Failed(FetchFailed)
    ensures resp.NetworkError? ==> p == Failed(resp.reason)
  {
    match resp
    case Ok(pl) => Loaded(pl)
    case Rejected(_) => Failed(FetchFailed)
    case NetworkError(m) => Failed(m)
  }

  /** `isLocked`. It reads the identity's `is_admin` attribute (not `admin`)
      and `has_subscription`; with no identity both read as falsy. */
  predicate IsLocked(plant: Plant, user: Option<User>, hasSubscribed: bool) {
    && !plant.fields.isSample
    && !(user.Some? && user.value.hasSubscription)
    && !(user.Some? && user.value.isAdmin)
    && !hasSubscribed
  }

  /** The fake subscribe button: sets the local flag, sends nothing. */
  function FakeSubscribe(hasSubscribed: bool): (r: bool)
    ensures r
  {
    true
  }

  /** Every labelled field in label order, with its value. */
  function AllFields(f: PlantFields): (r: seq<(string, string)>)
    ensures |r| == |Labels|
    ensures forall i :: 0 <= i < |r| ==> r[i].0 == Labels[i]
  {
    [("Common Name", f.commonName), ("Scientific Name", f.scientificName), ("Family", f.family),
     ("Description", f.description), ("Growing & Harvesting", f.growingHarvesting),
     ("Parts Used", f.partsUsed), ("Physiological Actions", f.physiologicalActions),
     ("Energetics", f.energetics), ("Ways to Use", f.waysToUse), ("Uses", f.uses),
     ("Cautions", f.cautions), ("History", f.history), ("Magical", f.magical)]
  }

  /** The rows with a truthy (non-empty) value, in the order given. */
  function NonEmpty(rows: seq<(string, string)>): (r: seq<(string, string)>)
    ensures forall row :: row in r <==> row in rows && row.1 != ""
    ensures |r| <= |rows|
    decreases |rows|
  {
    if rows == [] then []
    else (if rows[0].1 != "" then [rows[0]] else []) + NonEmpty(rows[1..])
  }

  /** The table shown when the plant is unlocked. */
  function Displayed(f: PlantFields): (r: seq<(string, string)>)
    ensures forall row :: row in r <==> row in AllFields(f) && row.1 != ""
  {
    NonEmpty(AllFields(f))
  }

  /** What the page renders. The error check comes before the loading check,
      and both test truthiness: an empty error message counts as no error,
      and with no plant the page still reads "Loading...". A loaded plant
      shows the subscribe prompt when locked and the table otherwise. */
  datatype Screen = ErrorText(message: string) | LoadingText | Paywall | Table(rows: seq<(string, string)>)

  function Render(p: Page, user: Option<User>, hasSubscribed: bool): (s: Screen)
    ensures s.Paywall? <==> p.Loaded? && IsLocked(p.plant, user, hasSubscribed)
    ensures s.Table? <==> p.Loaded? && !IsLocked(p.plant, user, hasSubscribed)
    ensures s.Table? ==> s.rows == Displayed(p.plant.fields)
    ensures s.ErrorText? <==> p.Failed? && p.message != ""
    ensures s.ErrorText? ==> s.message == p.message
    ensures s.LoadingText? <==> p.Loading? || (p.Failed? && p.message == "")
  {
    match p
    case Failed(m) => if m != "" then ErrorText(m) else LoadingText
    case Loading => LoadingText
    case Loaded(plant) =>
      if IsLocked(plant, user, hasSubscribed) then Paywall else Table(Displayed(plant.fields))
  }

  /** A sample plant is never locked, for any identity and flag. */
  lemma SampleNeverLocked(plant: Plant, user: Option<User>, hasSubscribed: bool)
    requires plant.fields.isSample
    ensures !IsLocked(plant, user, hasSubscribed)
  {
  }

  /** Without the local override, a plant is locked exactly when it is not a
      sample and the identity has neither a subscription nor `is_admin`. */
  lemma LockedIff(plant: Plant, u: User)
    ensures IsLocked(plant, Some(u), false) <==> !plant.fields.isSample && !u.hasSubscription && !u.isAdmin
  {
  }

  /** The fake subscription unlocks every plant. */
  lemma FakeSubscribeUnlocks(plant: Plant, user: Option<User>, hasSubscribed: bool)
    ensures !IsLocked(plant, user, FakeSubscribe(hasSubscribed))
  {
  }

  /** Order is kept: the table of a concatenation is the concatenation of
      the tables. */
  lemma {:induction false} NonEmptyConcat(a: seq<(string, string)>, b: seq<(string, string)>)
    ensures NonEmpty(a + b) == NonEmpty(a) + NonEmpty(b)
    decreases |a|
  {
    if a == [] {
      assert a + b == b;
    } else {
      assert (a + b)[1..] == a[1..] + b;
      NonEmptyConcat(a[1..], b);
    }
  }

  /** A plant with every field filled in shows all thirteen rows. */
  lemma FullPlantShowsAllRows(f: PlantFields)
    requires forall i :: 0 <= i < |AllFields(f)| ==> AllFields(f)[i].1 != ""
    ensures Displayed(f) == AllFields(f)
  {
    NonEmptyKeepsAll(AllFields(f));
  }

  lemma {:induction false} NonEmptyKeepsAll(rows: seq<(string, string)>)
    requires forall i :: 0 <= i < |rows| ==> rows[i].1 != ""
    ensures NonEmpty(rows) == rows
    decreases |rows|
  {
    if rows != [] {
      NonEmptyKeepsAll(rows[1..]);
    }
  }
}
