/** `searchRecipes` (lib/api.ts): picks one upstream query mode from the
    filters, fetches it, resolves id stubs to full recipes and applies the
    dietary and cooking-method post-filters. The network is an oracle. */
module RecipeSearch {
  import opened Wrappers
  import opened Text
  import opened Types
  import opened Upstream
  import opened Seqs
  import opened RecipeFormat

  /** The upstream endpoint chosen: `search.php?s=`, `search.php?f=` or one of
      the three `filter.php` variants, which answer with id stubs only. */
  datatype Mode =
    | ByName(query: string)
    | ByLetter(letter: string)
    | ByIngredient(ingredient: string)
    | ByCuisine(area: string)
    | ByCategory(category: string)
  {
    predicate ReturnsStubs() {
      ByIngredient? || ByCuisine? || ByCategory?
    }
  }

  /** A request the gateway sends: the one search, or a detail lookup by id. */
  datatype Request = Search(mode: Mode) | Lookup(id: string)

  /** What a call of `searchRecipes` does: its result (a thrown error is
      `Err`) and the requests it sent, in order. */
  datatype SearchRun = SearchRun(result: Result<seq<Recipe>>, requests: seq<Request>)

  /** `filters.firstLetter && filters.firstLetter.length === 1`. */
  predicate UsableLetter(f: SearchFilters) {
    Truthy(f.firstLetter) && |f.firstLetter.value| == 1
  }

  /** The if-chain that picks exactly one mode: query, then a one-character
      first letter, then ingredient, cuisine and category. */
  function SelectMode(f: SearchFilters): Option<Mode> {
    if Truthy(f.query) then Some(ByName(f.query.value))
    else if UsableLetter(f) then Some(ByLetter(f.firstLetter.value))
    else if Truthy(f.ingredient) then Some(ByIngredient(f.ingredient.value))
    else if Truthy(f.cuisine) then Some(ByCuisine(f.cuisine.value))
    else if Truthy(f.category) then Some(ByCategory(f.category.value))
    else None
  }

  /** Every mode the filters would allow, in precedence order. */
  function ApplicableModes(f: SearchFilters): seq<Mode> {
    (if Truthy(f.query) then [ByName(f.query.value)] else []) +
    (if UsableLetter(f) then [ByLetter(f.firstLetter.value)] else []) +
    (if Truthy(f.ingredient) then [ByIngredient(f.ingredient.value)] else []) +
    (if Truthy(f.cuisine) then [ByCuisine(f.cuisine.value)] else []) +
    (if Truthy(f.category) then [ByCategory(f.category.value)] else [])
  }

  /** The chosen mode is the first applicable one in precedence order, and
      there is none exactly when no filter applies. */
  lemma SelectModeIsFirstApplicable(f: SearchFilters)
    ensures SelectMode(f).None? <==> ApplicableModes(f) == []
    ensures SelectMode(f).Some? ==> SelectMode(f).value == ApplicableModes(f)[0]
  {
  }

  /** `dietary` and `cookingMethod` never select a mode, and neither does a
      first letter longer than one character. */
  lemma PostFiltersDoNotSelect(f: SearchFilters, dietary: Option<string>, cooking: Option<string>)
    ensures SelectMode(f.(dietary := dietary, cookingMethod := cooking)) == SelectMode(f)
    ensures !UsableLetter(f) ==> SelectMode(f.(firstLetter := None)) == SelectMode(f)
  {
  }

  /** The names that make a recipe non-vegetarian (exact, lower-case). */
  const MeatKeywords: seq<string> := ["beef", "chicken", "pork", "lamb", "meat", "fish"]

  /** `recipe.ingredients?.every(...)`: no ingredient's lower-cased name is a
      meat keyword. An absent list counts as not vegetarian. */
  predicate IsVegetarian(r: Recipe) {
    r.ingredients.Some? &&
    forall i :: 0 <= i < |r.ingredients.value| ==> Lower(r.ingredients.value[i].ingredient) !in MeatKeywords
  }

  /** The dietary post-filter: only the value "vegetarian" (in any case) drops
      anything. */
  predicate PassesDietary(f: SearchFilters, r: Recipe) {
    !Truthy(f.dietary) || Lower(f.dietary.value) != "vegetarian" || IsVegetarian(r)
  }

  /** The cooking-method post-filter: the lower-cased instructions contain
      the lower-cased method. */
  predicate PassesMethod(f: SearchFilters, r: Recipe) {
    !Truthy(f.cookingMethod) ||
    Contains(Lower(r.strInstructions.GetOr("")), Lower(f.cookingMethod.value))
  }

  /** One stub's detail lookup: null when it threw, was not OK or held no
      meal, or when the recipe fails a post-filter. */
  function ResolveStub(f: SearchFilters, lookup: string -> Fetched, stub: RawMeal): Option<Recipe> {
    match FirstMeal(lookup(StubId(stub)))
    case None => None
    case Some(m) =>
      var r := Formatted(Some(m));
      if PassesDietary(f, r) && PassesMethod(f, r) then Some(r) else None
  }

  /** `Promise.all(stubs.map(...))` followed by `filter(Boolean)`. */
  function ResolveStubs(f: SearchFilters, lookup: string -> Fetched, stubs: seq<RawMeal>): seq<Recipe> {
    Survivors(seq(|stubs|, i requires 0 <= i < |stubs| => ResolveStub(f, lookup, stubs[i])))
  }

  /** The detail lookups sent for a list of stubs, one per stub in order. */
  function LookupRequests(stubs: seq<RawMeal>): (r: seq<Request>)
    ensures |r| == |stubs|
  {
    seq(|stubs|, i requires 0 <= i < |stubs| => Lookup(StubId(stubs[i])))
  }

  /** Every stub is looked up by its id, and nothing else is requested. */
  lemma LookupRequestsCover(stubs: seq<RawMeal>)
    ensures forall q :: q in LookupRequests(stubs) <==> exists s :: s in stubs && q == Lookup(StubId(s))
  {
    var r := LookupRequests(stubs);
    forall q | q in r ensures exists s :: s in stubs && q == Lookup(StubId(s)) {
      var i :| 0 <= i < |r| && r[i] == q;
      assert stubs[i] in stubs;
    }
    forall s | s in stubs ensures Lookup(StubId(s)) in r {
      var i :| 0 <= i < |stubs| && stubs[i] == s;
      assert r[i] == Lookup(StubId(s));
    }
  }

  /** `searchRecipes(filters)`. `upstream` answers the one search request,
      `lookup` answers detail lookups by id. */
  function SearchRecipes(f: SearchFilters, upstream: Mode -> Fetched, lookup: string -> Fetched): SearchRun {
    match SelectMode(f)
    case None => SearchRun(Ok([]), [])
    case Some(mode) =>
      var sent := [Search(mode)];
      match upstream(mode)
      case NetworkError => SearchRun(Err("fetch failed"), sent)
      case Response(ok, json) =>
        if !ok then SearchRun(Err("Failed to fetch"), sent)
        else if json.None? then SearchRun(Err("invalid JSON"), sent)
        else if json.value.meals.None? then SearchRun(Ok([]), sent)
        else
          var meals := json.value.meals.value;
          if mode.ReturnsStubs() then
            SearchRun(Ok(ResolveStubs(f, lookup, meals)), sent + LookupRequests(meals))
          else
            SearchRun(Ok(seq(|meals|, i requires 0 <= i < |meals| => Formatted(Some(meals[i])))), sent)
  }

  /** With no usable filter nothing is sent and the result is `[]`; otherwise
      the first request is the one search, and any further requests are the
      detail lookups of the stubs. */
  lemma SearchRequests(f: SearchFilters, upstream: Mode -> Fetched, lookup: string -> Fetched)
    ensures SelectMode(f).None? ==> SearchRecipes(f, upstream, lookup) == SearchRun(Ok([]), [])
    ensures SelectMode(f).Some? ==>
      |SearchRecipes(f, upstream, lookup).requests| >= 1 &&
      SearchRecipes(f, upstream, lookup).requests[0] == Search(SelectMode(f).value) &&
      forall i :: 1 <= i < |SearchRecipes(f, upstream, lookup).requests| ==>
        SearchRecipes(f, upstream, lookup).requests[i].Lookup?
    ensures SelectMode(f).Some? && !SelectMode(f).value.ReturnsStubs() ==>
      |SearchRecipes(f, upstream, lookup).requests| == 1
  {
  }

  /** The upstream body's meal list, when the search succeeded with one. */
  predicate SearchGaveMeals(reply: Fetched) {
    reply.Response? && reply.ok && reply.json.Some? && reply.json.value.meals.Some?
  }

  /** A failed search request (thrown, not OK, unparsable) propagates as an
      error; a body without `meals` gives `[]`. */
  lemma SearchErrors(f: SearchFilters, upstream: Mode -> Fetched, lookup: string -> Fetched)
    requires SelectMode(f).Some?
    ensures SearchRecipes(f, upstream, lookup).result.Err? <==>
      var reply := upstream(SelectMode(f).value);
      reply.NetworkError? || !reply.ok || reply.json.None?
    ensures (!SearchGaveMeals(upstream(SelectMode(f).value)) &&
             SearchRecipes(f, upstream, lookup).result.Ok?) ==>
      SearchRecipes(f, upstream, lookup).result.value == []
  {
  }

  /** Name and letter searches return one recipe per upstream meal, in order,
      with no post-filter applied. */
  lemma FullRecordModes(f: SearchFilters, upstream: Mode -> Fetched, lookup: string -> Fetched)
    requires SelectMode(f).Some? && !SelectMode(f).value.ReturnsStubs()
    requires SearchGaveMeals(upstream(SelectMode(f).value))
    ensures var meals := upstream(SelectMode(f).value).json.value.meals.value;
      var run := SearchRecipes(f, upstream, lookup);
      run.result.Ok? && |run.result.value| == |meals| &&
      forall i :: 0 <= i < |meals| ==> run.result.value[i] == Formatted(Some(meals[i]))
  {
  }

  /** Post-filters apply only to the three stub modes: changing `dietary` or
      `cookingMethod` does not change what a name or letter search returns. */
  lemma NoPostFilterOnFullRecords(f: SearchFilters, upstream: Mode -> Fetched, lookup: string -> Fetched,
                                  dietary: Option<string>, cooking: Option<string>)
    requires SelectMode(f).Some? && !SelectMode(f).value.ReturnsStubs()
    ensures SearchRecipes(f.(dietary := dietary, cookingMethod := cooking), upstream, lookup) ==
      SearchRecipes(f, upstream, lookup)
  {
    PostFiltersDoNotSelect(f, dietary, cooking);
  }

  /** Resolving a list of stubs is resolving its two halves, one after the
      other: survivors keep the stub order. */
  lemma ResolveStubsAppend(f: SearchFilters, lookup: string -> Fetched, a: seq<RawMeal>, b: seq<RawMeal>)
    ensures ResolveStubs(f, lookup, a + b) == ResolveStubs(f, lookup, a) + ResolveStubs(f, lookup, b)
  {
    var xs := seq(|a|, i requires 0 <= i < |a| => ResolveStub(f, lookup, a[i]));
    var ys := seq(|b|, i requires 0 <= i < |b| => ResolveStub(f, lookup, b[i]));
    var ab := a + b;
    assert seq(|ab|, i requires 0 <= i < |ab| => ResolveStub(f, lookup, ab[i])) == xs + ys;
    SurvivorsAppend(xs, ys);
  }

  /** What stub resolution keeps: at most one recipe per stub; a recipe is
      kept exactly when it is the formatted first meal of some stub's
      successful lookup and passes both post-filters. */
  lemma ResolveStubsKeeps(f: SearchFilters, lookup: string -> Fetched, stubs: seq<RawMeal>, r: Recipe)
    ensures |ResolveStubs(f, lookup, stubs)| <= |stubs|
    ensures r in ResolveStubs(f, lookup, stubs) <==>
      exists i :: 0 <= i < |stubs| && ResolveStub(f, lookup, stubs[i]) == Some(r)
    ensures r in ResolveStubs(f, lookup, stubs) ==> PassesDietary(f, r) && PassesMethod(f, r)
  {
    var xs := seq(|stubs|, i requires 0 <= i < |stubs| => ResolveStub(f, lookup, stubs[i]));
    SurvivorsMember(xs, r);
    if r in ResolveStubs(f, lookup, stubs) {
      var i :| 0 <= i < |stubs| && xs[i] == Some(r);
    }
    if exists i :: 0 <= i < |stubs| && ResolveStub(f, lookup, stubs[i]) == Some(r) {
      var i :| 0 <= i < |stubs| && ResolveStub(f, lookup, stubs[i]) == Some(r);
      assert xs[i] == Some(r);
    }
  }

  /** With `dietary` "vegetarian" in any letter case, no recipe a stub search
      returns has an ingredient whose lower-cased name is a meat keyword. */
  lemma VegetarianExcludesMeat(f: SearchFilters, upstream: Mode -> Fetched, lookup: string -> Fetched,
                               r: Recipe, i: nat)
    requires SelectMode(f).Some? && SelectMode(f).value.ReturnsStubs()
    requires f.dietary.Some? && Lower(f.dietary.value) == "vegetarian"
    requires SearchRecipes(f, upstream, lookup).result.Ok?
    requires r in SearchRecipes(f, upstream, lookup).result.value
    requires r.ingredients.Some? && i < |r.ingredients.value|
    ensures Lower(r.ingredients.value[i].ingredient) !in MeatKeywords
  {
    var reply := upstream(SelectMode(f).value);
    if SearchGaveMeals(reply) {
      ResolveStubsKeeps(f, lookup, reply.json.value.meals.value, r);
    }
  }

  /** Only "vegetarian" filters: any other dietary value keeps every recipe. */
  lemma OtherDietaryKeepsAll(f: SearchFilters, r: Recipe)
    requires f.dietary.Some? && Lower(f.dietary.value) != "vegetarian"
    ensures PassesDietary(f, r)
  {
  }

  /** The cooking-method filter keeps a recipe exactly when the lower-cased
      method occurs in its lower-cased instructions. */
  lemma MethodFilterIff(f: SearchFilters, r: Recipe)
    requires Truthy(f.cookingMethod)
    ensures PassesMethod(f, r) <==>
      exists k :: OccursAt(Lower(r.strInstructions.GetOr("")), Lower(f.cookingMethod.value), k)
  {
  }

  /** The vegetarian check is exact membership, not a substring test: an
      ingredient named "Chicken Stock" does not make a recipe non-vegetarian. */
  lemma ExactMeatMatch()
    ensures Lower("Chicken Stock") !in MeatKeywords
    ensures Lower("Chicken") in MeatKeywords
  {
    assert Lower("Chicken") == "chicken";
    assert |Lower("Chicken Stock")| == 13;
  }
}
