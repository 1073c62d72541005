/** The search page's server-side flow (app/search/page.tsx): a letter
    search straight to the recipe gateway, or a free-text query through the
    AI gateway with the URL filters laid over its result, then the message
    and heading shown. Rendering and logging are left out. */
module SearchPage {
  import opened Wrappers
  import opened Types
  import opened Text
  import opened Upstream
  import opened RecipeSearch
  import opened AiText
  import opened AiGateway

  /** The page's URL parameters. */
  datatype PageParams = PageParams(q: Option<string>, letter: Option<string>,
                                   dietary: Option<string>, cookingMethod: Option<string>)

  /** What the page shows: the recipes, the error message, the heading's
      search term, and the recipe-gateway requests the search sent. */
  datatype PageResult = PageResult(recipes: seq<Recipe>, error: Option<string>,
                                   searchTerm: string, requests: seq<Request>)

  const FetchErrorMessage := "Failed to fetch recipes. Please try again later."

  /** `if (dietary) searchFilters.dietary = dietary` and the same for the
      method, on the filters the AI gateway returned. */
  function UrlFilters(f: SearchFilters, dietary: string, cookingMethod: string): SearchFilters {
    var withDietary := if dietary != "" then f.(dietary := Some(dietary)) else f;
    if cookingMethod != "" then withDietary.(cookingMethod := Some(cookingMethod)) else withDietary
  }

  /** The heading: the letter, upper-cased, wins over the quoted query. */
  function SearchTerm(letter: string, query: string): string {
    if letter != "" then "recipes starting with '" + Upper(letter) + "'"
    else if query != "" then "\"" + query + "\""
    else ""
  }

  /** A finished search run as shown: a thrown error leaves the list empty
      and sets the message. */
  function Shown(run: SearchRun, term: string): PageResult {
    match run.result
    case Err(_) => PageResult([], Some(FetchErrorMessage), term, run.requests)
    case Ok(recipes) => PageResult(recipes, None, term, run.requests)
  }

  /** The filters of a letter search: `{ firstLetter: letter }`. */
  function LetterFilters(letter: string): SearchFilters {
    NoFilters.(firstLetter := Some(letter))
  }

  /** The page as a value: what it shows and the AI gateway's new cache. */
  function PageOutcome(cache: Cache, p: PageParams, hasKey: bool, chat: Chat,
                       parse: string -> Option<SearchFilters>,
                       upstream: Mode -> Fetched, lookup: string -> Fetched): (PageResult, Cache) {
    var query := OrDefault(p.q, "");
    var letter := OrDefault(p.letter, "");
    var term := SearchTerm(letter, query);
    if letter != "" then (Shown(SearchRecipes(LetterFilters(letter), upstream, lookup), term), cache)
    else if query != "" then
      var (f, cache') := SearchOutcome(cache, query, hasKey, chat, parse);
      var merged := UrlFilters(f, OrDefault(p.dietary, ""), OrDefault(p.cookingMethod, ""));
      (Shown(SearchRecipes(merged, upstream, lookup), term), cache')
    else (PageResult([], None, term, []), cache)
  }

  /** The page itself, against the process-wide AI gateway. */
  method RenderSearchPage(gw: Gateway, p: PageParams, hasKey: bool, chat: Chat,
                          parse: string -> Option<SearchFilters>,
                          upstream: Mode -> Fetched, lookup: string -> Fetched)
    returns (shown: PageResult)
    requires gw.Valid()
    modifies gw
    ensures gw.Valid()
    ensures (shown, gw.cache) == PageOutcome(old(gw.cache), p, hasKey, chat, parse, upstream, lookup)
  {
    var query := OrDefault(p.q, "");
    var letter := OrDefault(p.letter, "");
    var dietary := OrDefault(p.dietary, "");
    var cookingMethod := OrDefault(p.cookingMethod, "");
    var recipes: seq<Recipe> := [];
    var error: Option<string> := None;
    var requests: seq<Request> := [];
    if letter != "" {
      var run := SearchRecipes(LetterFilters(letter), upstream, lookup);
      requests := run.requests;
      if run.result.Ok? {
        recipes := run.result.value;
      } else {
        error := Some(FetchErrorMessage);
      }
    } else if query != "" {
      var filters, calls := gw.ProcessSearchQuery(query, hasKey, chat, parse);
      if dietary != "" {
        filters := filters.(dietary := Some(dietary));
      }
      if cookingMethod != "" {
        filters := filters.(cookingMethod := Some(cookingMethod));
      }
      var run := SearchRecipes(filters, upstream, lookup);
      requests := run.requests;
      if run.result.Ok? {
        recipes := run.result.value;
      } else {
        error := Some(FetchErrorMessage);
      }
    }
    shown := PageResult(recipes, error, SearchTerm(letter, query), requests);
  }

  /** The URL filters replace the AI's dietary and method values when given
      and keep them otherwise; they never change the upstream mode. */
  lemma UrlFiltersSpec(f: SearchFilters, dietary: string, cookingMethod: string)
    ensures UrlFilters(f, dietary, cookingMethod).dietary == (if dietary != "" then Some(dietary) else f.dietary)
    ensures UrlFilters(f, dietary, cookingMethod).cookingMethod ==
      (if cookingMethod != "" then Some(cookingMethod) else f.cookingMethod)
    ensures SelectMode(UrlFilters(f, dietary, cookingMethod)) == SelectMode(f)
  {
    PostFiltersDoNotSelect(f, UrlFilters(f, dietary, cookingMethod).dietary,
                           UrlFilters(f, dietary, cookingMethod).cookingMethod);
  }

  /** A letter in the URL wins: the AI gateway is not consulted, so the page
      does not depend on the query, the key, the chat or the parser, and the
      cache is unchanged. A one-character letter sends one letter search; a
      longer one sends nothing and shows no recipes. */
  lemma LetterSearchBypassesAi(cache: Cache, p: PageParams, hasKey: bool, chat: Chat,
                               parse: string -> Option<SearchFilters>,
                               upstream: Mode -> Fetched, lookup: string -> Fetched,
                               q2: Option<string>, hasKey2: bool, chat2: Chat,
                               parse2: string -> Option<SearchFilters>)
    requires Truthy(p.letter)
    ensures PageOutcome(cache, p, hasKey, chat, parse, upstream, lookup).1 == cache
    ensures PageOutcome(cache, p, hasKey, chat, parse, upstream, lookup) ==
      PageOutcome(cache, p.(q := q2), hasKey2, chat2, parse2, upstream, lookup)
    ensures |p.letter.value| == 1 ==>
      PageOutcome(cache, p, hasKey, chat, parse, upstream, lookup).0.requests[0] == Search(ByLetter(p.letter.value))
    ensures |p.letter.value| != 1 ==>
      var shown := PageOutcome(cache, p, hasKey, chat, parse, upstream, lookup).0;
      shown.recipes == [] && shown.error == None && shown.requests == []
  {
    SearchRequests(LetterFilters(p.letter.value), upstream, lookup);
  }

  /** Neither a letter nor a query: nothing is sent, nothing is shown, the
      heading is empty and the cache is unchanged. */
  lemma NothingToSearch(cache: Cache, p: PageParams, hasKey: bool, chat: Chat,
                        parse: string -> Option<SearchFilters>,
                        upstream: Mode -> Fetched, lookup: string -> Fetched)
    requires !Truthy(p.letter) && !Truthy(p.q)
    ensures PageOutcome(cache, p, hasKey, chat, parse, upstream, lookup) == (PageResult([], None, "", []), cache)
  {
  }

  /** An error message is shown exactly when the search threw, and then the
      list is empty. */
  lemma ErrorMeansNoRecipes(cache: Cache, p: PageParams, hasKey: bool, chat: Chat,
                            parse: string -> Option<SearchFilters>,
                            upstream: Mode -> Fetched, lookup: string -> Fetched)
    ensures var shown := PageOutcome(cache, p, hasKey, chat, parse, upstream, lookup).0;
      (shown.error.Some? ==> shown.error.value == FetchErrorMessage && shown.recipes == [])
    ensures Truthy(p.letter) ==>
      (PageOutcome(cache, p, hasKey, chat, parse, upstream, lookup).0.error.Some? <==>
       SearchRecipes(LetterFilters(p.letter.value), upstream, lookup).result.Err?)
  {
  }

  /** A query the AI gateway has not seen is searched by name with the query
      itself: the filter fields the model extracts never select the mode,
      because `processSearchQuery` always sets `query` and a query wins. */
  lemma QuerySearchIsByName(cache: Cache, p: PageParams, hasKey: bool, chat: Chat,
                            parse: string -> Option<SearchFilters>,
                            upstream: Mode -> Fetched, lookup: string -> Fetched)
    requires CacheValid(cache)
    requires !Truthy(p.letter) && Truthy(p.q) && SearchKey(p.q.value) !in cache
    ensures PageOutcome(cache, p, hasKey, chat, parse, upstream, lookup).0.requests[0] == Search(ByName(p.q.value))
  {
    var (f, cache') := SearchOutcome(cache, p.q.value, hasKey, chat, parse);
    SearchOutcomeSpec(cache, p.q.value, hasKey, chat, parse);
    var merged := UrlFilters(f, OrDefault(p.dietary, ""), OrDefault(p.cookingMethod, ""));
    UrlFiltersSpec(f, OrDefault(p.dietary, ""), OrDefault(p.cookingMethod, ""));
    SearchRequests(merged, upstream, lookup);
  }

  /** The heading is empty exactly when there is neither a letter nor a
      query, and a letter heading names the letter upper-cased. */
  lemma SearchTermSpec(letter: string, query: string)
    ensures SearchTerm(letter, query) == "" <==> letter == "" && query == ""
    ensures letter != "" ==> OccursAt(SearchTerm(letter, query), Upper(letter), 23)
  {
    if letter != "" {
      var t := SearchTerm(letter, query);
      assert t[23..23 + |letter|] == Upper(letter);
    }
  }
}
