/** The App Router endpoint `POST /api/analyzeRecipe`
    (app/api/analyzeRecipe/route.ts): validates the posted recipe and
    answers with the AI gateway's analysis. */
module AnalyzeRoute {
  import opened Wrappers
  import opened Types
  import opened AiText
  import opened AiGateway

  /** The `recipe` member of a parsed request body, by the JavaScript tests
      the endpoints apply to it: absent, falsy (`null`, `false`, `0`, `""`),
      a truthy primitive, an array, or an object with the recipe's fields. */
  datatype RecipeField =
    | Missing
    | Falsy
    | Primitive
    | ArrayValue
    | ObjectValue(recipe: Recipe)
  {
    /** JavaScript truthiness. */
    predicate Truthy() {
      !Missing? && !Falsy?
    }

    /** `typeof value === "object"` on a truthy value. */
    predicate IsObject() {
      ArrayValue? || ObjectValue?
    }
  }

  /** The request body: not JSON (`request.json()` throws), JSON `null`
      (reading `body.recipe` throws), or any other JSON value, whose
      `recipe` member is given (a body without one has `Missing`). */
  datatype Body = Unparsable | NullBody | Parsed(recipe: RecipeField)

  /** A JSON response: an error object with a status, or an analysis with
      status 200. */
  datatype Response = ErrorResponse(status: nat, error: string) | AnalysisResponse(analysis: RecipeAnalysis)
  {
    function Status(): nat {
      if ErrorResponse? then status else 200
    }
  }

  const InvalidRecipe := "Valid recipe data is required"
  const UnnamedRecipe := "Recipe must include name and ID"
  const AnalysisFailed := "Failed to analyze recipe"

  /** The validation outcome: an error response, or the recipe to analyze. */
  function Validate(body: Body): Result<Recipe> {
    match body
    case Unparsable => Err(AnalysisFailed)
    case NullBody => Err(AnalysisFailed)
    case Parsed(field) =>
      if !field.Truthy() || !field.IsObject() then Err(InvalidRecipe)
      else if field.ArrayValue? || !NamedRecipe(field.recipe) then Err(UnnamedRecipe)
      else Ok(field.recipe)
  }

  /** The status of each validation error. */
  function ErrorStatus(error: string): nat {
    if error == AnalysisFailed then 500 else 400
  }

  /** The endpoint as a value: the response and the AI gateway's new cache. */
  function PostOutcome(cache: Cache, body: Body, hasKey: bool, chat: Chat,
                       parse: string -> Option<RecipeAnalysis>): (Response, Cache) {
    match Validate(body)
    case Err(e) => (ErrorResponse(ErrorStatus(e), e), cache)
    case Ok(recipe) =>
      var (analysis, cache') := AnalysisOutcome(cache, recipe, hasKey, chat, parse);
      (AnalysisResponse(analysis), cache')
  }

  /** `POST(request)` against the process-wide AI gateway. */
  method Post(gw: Gateway, body: Body, hasKey: bool, chat: Chat, parse: string -> Option<RecipeAnalysis>)
    returns (response: Response)
    requires gw.Valid()
    modifies gw
    ensures gw.Valid()
    ensures (response, gw.cache) == PostOutcome(old(gw.cache), body, hasKey, chat, parse)
  {
    if body.Unparsable? || body.NullBody? {
      return ErrorResponse(500, AnalysisFailed);
    }
    var field := body.recipe;
    if !field.Truthy() || !field.IsObject() {
      return ErrorResponse(400, InvalidRecipe);
    }
    if field.ArrayValue? || field.recipe.strMeal == "" || field.recipe.idMeal == "" {
      return ErrorResponse(400, UnnamedRecipe);
    }
    var analysis, calls := gw.AnalyzeRecipe(field.recipe, hasKey, chat, parse);
    response := AnalysisResponse(analysis);
  }

  /** The three rejections and the one success, each exactly on its inputs:
      500 when the body is unreadable, 400 "Valid recipe data is required"
      when `recipe` is falsy or not an object, 400 "Recipe must include name
      and ID" for an array or an object without both fields, and otherwise
      200 with the gateway's analysis of the recipe. A rejection leaves the
      cache alone. */
  lemma PostSpec(cache: Cache, body: Body, hasKey: bool, chat: Chat, parse: string -> Option<RecipeAnalysis>)
    ensures var (response, cache') := PostOutcome(cache, body, hasKey, chat, parse);
      (response.Status() == 500 <==> body.Unparsable? || body.NullBody?) &&
      (response == ErrorResponse(400, InvalidRecipe) <==>
        body.Parsed? && (!body.recipe.Truthy() || !body.recipe.IsObject())) &&
      (response == ErrorResponse(400, UnnamedRecipe) <==>
        body.Parsed? && (body.recipe.ArrayValue? || (body.recipe.ObjectValue? && !NamedRecipe(body.recipe.recipe)))) &&
      (response.Status() == 200 <==> body.Parsed? && body.recipe.ObjectValue? && NamedRecipe(body.recipe.recipe)) &&
      (response.Status() != 200 ==> cache' == cache)
    ensures body.Parsed? && body.recipe.ObjectValue? && NamedRecipe(body.recipe.recipe) ==>
      PostOutcome(cache, body, hasKey, chat, parse) ==
        var (a, c) := AnalysisOutcome(cache, body.recipe.recipe, hasKey, chat, parse); (AnalysisResponse(a), c)
  {
  }

  /** The endpoint only analyzes named recipes, so on a cache miss with a
      key and a completion that parses to a complete analysis, that
      analysis is what it answers and what it caches. */
  lemma PostReturnsFreshAnalysis(cache: Cache, body: Body, hasKey: bool, chat: Chat,
                                 parse: string -> Option<RecipeAnalysis>)
    requires CacheValid(cache)
    requires body.Parsed? && body.recipe.ObjectValue? && NamedRecipe(body.recipe.recipe)
    requires hasKey && !AnalysisHit(cache, body.recipe.recipe)
    requires AnalysisReply(body.recipe.recipe, chat, parse).Some?
    ensures var (response, cache') := PostOutcome(cache, body, hasKey, chat, parse);
      var a := AnalysisReply(body.recipe.recipe, chat, parse).value;
      response == AnalysisResponse(a) && cache' == cache[AnalysisKey(body.recipe.recipe.idMeal) := AnalysisEntry(a)]
  {
  }
}
