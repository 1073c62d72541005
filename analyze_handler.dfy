/** The Pages Router handler for `/api/analyzeRecipe`
    (lib/analyzeRecipe.ts): a method check, a presence check, then the AI
    gateway's analysis. */
module AnalyzeHandler {
  import opened Wrappers
  import opened Types
  import opened AiText
  import opened AiGateway
  import opened AnalyzeRoute

  /** The framework-parsed request body: absent (`undefined`, so the
      destructuring throws before the `try`), or a value whose `recipe`
      member is given. */
  datatype HandlerBody = NoBody | Fields(recipe: RecipeField)

  datatype HandlerRequest = HandlerRequest(httpMethod: string, body: HandlerBody)

  const MethodNotAllowed := "Method not allowed"
  const RecipeRequired := "Recipe is required"

  /** What the gateway sees for a truthy `recipe`: the object itself, or, for
      an array or a primitive, a value whose `idMeal` reads as `undefined`
      (so its key is `analysis:undefined`) and whose `strMeal` is absent. */
  function AsRecipe(field: RecipeField): Recipe {
    if field.ObjectValue? then field.recipe
    else Recipe("undefined", "", None, None, None, "", None, None, None, None)
  }

  /** The handler as a value: the response, `None` when the handler throws,
      and the AI gateway's new cache. */
  function HandlerOutcome(cache: Cache, req: HandlerRequest, hasKey: bool, chat: Chat,
                          parse: string -> Option<RecipeAnalysis>): (Option<Response>, Cache) {
    if req.httpMethod != "POST" then (Some(ErrorResponse(405, MethodNotAllowed)), cache)
    else match req.body
      case NoBody => (None, cache)
      case Fields(field) =>
        if !field.Truthy() then (Some(ErrorResponse(400, RecipeRequired)), cache)
        else
          var (analysis, cache') := AnalysisOutcome(cache, AsRecipe(field), hasKey, chat, parse);
          (Some(AnalysisResponse(analysis)), cache')
  }

  /** `handler(req, res)` against the process-wide AI gateway. */
  method Handle(gw: Gateway, req: HandlerRequest, hasKey: bool, chat: Chat,
                parse: string -> Option<RecipeAnalysis>)
    returns (response: Option<Response>)
    requires gw.Valid()
    modifies gw
    ensures gw.Valid()
    ensures (response, gw.cache) == HandlerOutcome(old(gw.cache), req, hasKey, chat, parse)
  {
    if req.httpMethod != "POST" {
      return Some(ErrorResponse(405, MethodNotAllowed));
    }
    if req.body.NoBody? {
      return None;
    }
    var field := req.body.recipe;
    if !field.Truthy() {
      return Some(ErrorResponse(400, RecipeRequired));
    }
    var analysis, calls := gw.AnalyzeRecipe(AsRecipe(field), hasKey, chat, parse);
    response := Some(AnalysisResponse(analysis));
  }

  /** Any method but POST is refused with 405 before the body is read; a
      POST with a falsy recipe gets 400; any truthy recipe gets 200 and the
      gateway's analysis; nothing answers 500, because the gateway never
      throws. Only a 200 can change the cache. */
  lemma HandlerSpec(cache: Cache, req: HandlerRequest, hasKey: bool, chat: Chat,
                    parse: string -> Option<RecipeAnalysis>)
    ensures var (response, cache') := HandlerOutcome(cache, req, hasKey, chat, parse);
      (response == Some(ErrorResponse(405, MethodNotAllowed)) <==> req.httpMethod != "POST") &&
      (response.None? <==> req.httpMethod == "POST" && req.body.NoBody?) &&
      (response == Some(ErrorResponse(400, RecipeRequired)) <==>
        req.httpMethod == "POST" && req.body.Fields? && !req.body.recipe.Truthy()) &&
      (response.Some? && response.value.Status() == 200 <==>
        req.httpMethod == "POST" && req.body.Fields? && req.body.recipe.Truthy()) &&
      (response.Some? ==> response.value.Status() != 500) &&
      (!(response.Some? && response.value.Status() == 200) ==> cache' == cache)
  {
  }

  /** The two endpoints agree on a named recipe object posted to both. */
  lemma EndpointsAgreeOnNamedRecipes(cache: Cache, r: Recipe, hasKey: bool, chat: Chat,
                                     parse: string -> Option<RecipeAnalysis>)
    requires NamedRecipe(r)
    ensures var (route, routeCache) := PostOutcome(cache, Parsed(ObjectValue(r)), hasKey, chat, parse);
      HandlerOutcome(cache, HandlerRequest("POST", Fields(ObjectValue(r))), hasKey, chat, parse) ==
        (Some(route), routeCache)
  {
  }

  /** They disagree on a truthy non-object `recipe`: the App Router endpoint
      rejects it with 400, while this handler answers 200 with the default
      analysis, unless an analysis is cached under `analysis:undefined`. */
  lemma EndpointsDisagreeOnPrimitives(cache: Cache, hasKey: bool, chat: Chat,
                                      parse: string -> Option<RecipeAnalysis>)
    requires AnalysisKey("undefined") !in cache
    ensures PostOutcome(cache, Parsed(Primitive), hasKey, chat, parse).0 == ErrorResponse(400, InvalidRecipe)
    ensures HandlerOutcome(cache, HandlerRequest("POST", Fields(Primitive)), hasKey, chat, parse) ==
      (Some(AnalysisResponse(DefaultAnalysis)), cache)
  {
  }
}
