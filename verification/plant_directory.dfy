/** The plant directory: the full list from `/plants`, a displayed list
    that an incremental search and a sort key act on, and an effect that
    refetches whenever the sort key changes. */
module PlantDirectory {
  import opened Http
  import opened Records
  import Ordering

  datatype SortKey = ByCommonName | ByScientificName

  /** `plants` is the cached full list, `shown` the displayed list. */
  datatype Directory = Directory(plants: seq<Plant>, shown: seq<Plant>, query: string, sortBy: SortKey)

  function KeyOf(k: SortKey): Plant -> string {
    match k
    case ByCommonName => (p: Plant) => p.fields.commonName
    case ByScientificName => (p: Plant) => p.fields.scientificName
  }

  /** `sortPlants`: a sorted copy; the input sequence is a value and is not
      changed. */
  function SortPlants(xs: seq<Plant>, k: SortKey): (r: seq<Plant>)
    ensures multiset(r) == multiset(xs)
    ensures Ordering.SortedBy(r, KeyOf(k))
  {
    Ordering.Sort(xs, KeyOf(k))
  }

  function Init(): (d: Directory)
    ensures d.plants == [] && d.shown == [] && d.query == "" && d.sortBy == ByCommonName
  {
    Directory([], [], "", ByCommonName)
  }

  /** The `[sortBy]` effect settles: a parsed body replaces the cache and the
      display shows all of it, sorted by the current key; a failure has no
      handler and changes nothing. */
  function Refresh(d: Directory, body: Option<seq<Plant>>): (r: Directory)
    ensures body.Some? ==> r.plants == body.value && r.shown == SortPlants(body.value, d.sortBy)
    ensures body.None? ==> r == d
    ensures r.query == d.query && r.sortBy == d.sortBy
  {
    match body
    case Some(data) => d.(plants := data, shown := SortPlants(data, d.sortBy))
    case None => d
  }

  /** `handleSearch` with input value `val`: the query always becomes `val`;
      "" shows the cached list sorted, with no request; otherwise the
      server's matches are shown sorted, a non-2xx shows nothing, and a
      network failure has no handler. */
  function HandleSearch(d: Directory, val: string, resp: Response<seq<Plant>, ()>): (r: Directory)
    ensures r.query == val && r.plants == d.plants && r.sortBy == d.sortBy
    ensures val == "" ==> r.shown == SortPlants(d.plants, d.sortBy)
    ensures val != "" && resp.Ok? ==> r.shown == SortPlants(resp.payload, d.sortBy)
    ensures val != "" && resp.Rejected? ==> r.shown == []
    ensures val != "" && resp.NetworkError? ==> r.shown == d.shown
  {
    if val == "" then d.(query := val, shown := SortPlants(d.plants, d.sortBy))
    else match resp
      case Ok(results) => d.(query := val, shown := SortPlants(results, d.sortBy))
      case Rejected(_) => d.(query := val, shown := SortPlants([], d.sortBy))
      case NetworkError(_) => d.(query := val)
  }

  /** `handleSort(k)`: the displayed list is re-sorted under `k`, with no
      request; its contents do not change. */
  function HandleSort(d: Directory, k: SortKey): (r: Directory)
    ensures r.sortBy == k && r.plants == d.plants && r.query == d.query
    ensures multiset(r.shown) == multiset(d.shown)
    ensures Ordering.SortedBy(r.shown, KeyOf(k))
  {
    d.(sortBy := k, shown := SortPlants(d.shown, k))
  }

  /** A sort button click: `handleSort`, then, when the key actually changed,
      the effect refetches and settles with `refetch`. */
  function ClickSort(d: Directory, k: SortKey, refetch: Option<seq<Plant>>): (r: Directory)
    ensures k == d.sortBy ==> r == HandleSort(d, k)
    ensures k != d.sortBy && refetch.Some? ==> r.plants == refetch.value && r.shown == SortPlants(refetch.value, k)
    ensures k != d.sortBy && refetch.None? ==> r == HandleSort(d, k)
    ensures r.sortBy == k && r.query == d.query
  {
    var sorted := HandleSort(d, k);
    if k != d.sortBy then Refresh(sorted, refetch) else sorted
  }

  /** The Search button calls `handleSearch` with the button as the event
      target, whose value is "": the query is cleared and the full list
      shown again, as the in-code note records. */
  function SearchButton(d: Directory, resp: Response<seq<Plant>, ()>): (r: Directory)
    ensures r.query == ""
    ensures multiset(r.shown) == multiset(d.plants)
    ensures Ordering.SortedBy(r.shown, KeyOf(d.sortBy))
  {
    HandleSearch(d, "", resp)
  }

  /** Changing the key while a search is active throws the search result
      away: after the refetch the full list is shown, yet the query text
      is still in the box. */
  lemma KeyChangeDropsSearch(d: Directory, k: SortKey, data: seq<Plant>)
    requires k != d.sortBy && d.query != ""
    ensures var r := ClickSort(d, k, Some(data));
      r.query == d.query && multiset(r.shown) == multiset(data)
  {
  }

  /** Pressing the same sort key twice is the same as pressing it once. */
  lemma HandleSortIdempotent(d: Directory, k: SortKey)
    ensures HandleSort(HandleSort(d, k), k) == HandleSort(d, k)
  {
    Ordering.SortTwice(d.shown, KeyOf(k));
  }

  /** Typing and then clearing the search restores exactly the list the
      cache sorts to, whatever the server answered in between. */
  lemma SearchThenClear(d: Directory, val: string, r1: Response<seq<Plant>, ()>, r2: Response<seq<Plant>, ()>)
    ensures HandleSearch(HandleSearch(d, val, r1), "", r2).shown == SortPlants(d.plants, d.sortBy)
  {
  }
}
