/** The recipe list: loaded once, then searched by ingredient only when the
    Search button is clicked. */
module RecipeList {
  import opened Http
  import opened Records

  datatype ListView = ListView(recipes: seq<Recipe>, search: string)

  /** The search request: `GET /recipes/search?ingredient=<text>`. */
  datatype SearchQuery = SearchQuery(ingredient: string)

  /** A settled search: the new view and the alert raised, if any. */
  datatype Searched = Searched(view: ListView, alert: Option<string>)

  const NoRecipesFound := "No recipes found"

  function Init(): (v: ListView)
    ensures v.recipes == [] && v.search == ""
  {
    ListView([], "")
  }

  /** The mount-time load: a parsed body replaces the list; a failure has no
      handler. */
  function Load(v: ListView, body: Option<seq<Recipe>>): (r: ListView)
    ensures body.Some? ==> r.recipes == body.value
    ensures body.None? ==> r == v
    ensures r.search == v.search
  {
    match body
    case Some(xs) => v.(recipes := xs)
    case None => v
  }

  /** Typing only updates the search text. */
  function Type(v: ListView, text: string): (r: ListView)
    ensures r.search == text && r.recipes == v.recipes
  {
    v.(search := text)
  }

  /** The request a Search click sends: the current text as `ingredient`.
      The text is interpolated into the URL without encoding, so this holds
      only for text free of URL delimiters. */
  function SearchRequest(v: ListView): (req: Request<SearchQuery>)
    ensures req.verb == GET && req.path == CollectionPath("/recipes/search")
    ensures req.body.ingredient == v.search
  {
    Request(GET, CollectionPath("/recipes/search"), SearchQuery(v.search))
  }

  /** `handleSearch` settles: a 2xx replaces the list with the results, even
      an empty one; anything else leaves the list and alerts. */
  function Search(v: ListView, resp: Response<seq<Recipe>, ()>): (r: Searched)
    ensures resp.Ok? ==> r.view.recipes == resp.payload && r.alert.None?
    ensures !resp.Ok? ==> r.view == v && r.alert == Some(NoRecipesFound)
    ensures r.view.search == v.search
  {
    if resp.Ok? then Searched(v.(recipes := resp.payload), None) else Searched(v, Some(NoRecipesFound))
  }

  /** A Search whose outcome is not a 2xx can be repeated any number of
      times without changing the list. */
  lemma FailedSearchIsNoOp(v: ListView, resp: Response<seq<Recipe>, ()>)
    requires !resp.Ok?
    ensures Search(Search(v, resp).view, resp).view == v
  {
  }

  /** Typing alone never changes the list, whatever the text. */
  lemma {:induction false} TypingKeepsList(v: ListView, texts: seq<string>)
    ensures TypeAll(v, texts).recipes == v.recipes
    ensures texts != [] ==> TypeAll(v, texts).search == texts[|texts| - 1]
    decreases |texts|
  {
    if texts != [] {
      TypingKeepsList(Type(v, texts[0]), texts[1..]);
    }
  }

  /** A sequence of keystrokes. */
  function TypeAll(v: ListView, texts: seq<string>): ListView
    decreases |texts|
  {
    if texts == [] then v else TypeAll(Type(v, texts[0]), texts[1..])
  }
}
