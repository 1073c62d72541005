/** The Groq gateway's cache-first control flow (lib/ai.ts):
    `processSearchQuery` and `analyzeRecipe` over one shared cache. The chat
    endpoint, `JSON.parse` and the API key are parameters. */
module AiGateway {
  import opened Wrappers
  import opened Text
  import opened Types
  import opened Attempts
  import opened AiText
  import opened AiRetry

  /** A cached value: search filters under a search key, an analysis under
      an analysis key. */
  datatype CacheEntry = SearchEntry(filters: SearchFilters) | AnalysisEntry(analysis: RecipeAnalysis)

  type Cache = map<string, CacheEntry>

  /** The chat endpoint: `chat(message, k)` is how attempt `k` of a request
      whose user message is `message` ends. */
  type Chat = (string, nat) -> Attempt<Completion>

  const ChatRetries: nat := 3
  const ChatBaseDelay: nat := 1000

  /** The outcomes of the attempts for one user message. */
  function AttemptsFor(chat: Chat, message: string): nat -> Attempt<Completion> {
    (k: nat) => chat(message, k)
  }

  /** `{ query }`. */
  function DefaultFilters(query: string): SearchFilters {
    NoFilters.(query := Some(query))
  }

  /** The static analysis returned on every failure. */
  const DefaultAnalysis: RecipeAnalysis :=
    RecipeAnalysis("Medium", "30-45 minutes", ["Baking"], "Moderate", ["Protein"], [], ["Water"])

  /** A cached analysis passed the structure check when it was stored. */
  predicate CompleteAnalysis(a: RecipeAnalysis) {
    a.difficulty != "" && a.prepTime != ""
  }

  /** What the cache holds: search entries exactly under search keys, each
      under the key of the query it carries; analyses that passed the check. */
  predicate CacheValid(cache: Cache) {
    forall k :: k in cache ==>
      (IsSearchKey(k) <==> cache[k].SearchEntry?) &&
      (cache[k].SearchEntry? ==> cache[k].filters.query.Some? && SearchKey(cache[k].filters.query.value) == k) &&
      (cache[k].AnalysisEntry? ==> CompleteAnalysis(cache[k].analysis))
  }

  /** The content of a completed chat request, when it is truthy. */
  function ChatContent(r: Result<Completion>): Option<string> {
    if r.Ok? && Truthy(r.value.content) then r.value.content else None
  }

  /** The filters a successful search request yields: the parsed object of
      the extracted JSON with `query` set to the original query. `parse` is
      `JSON.parse`, `None` when it throws or yields no object. */
  function SearchReply(query: string, chat: Chat, parse: string -> Option<SearchFilters>): Option<SearchFilters> {
    match ChatContent(RetryResult(AttemptsFor(chat, query), ChatRetries))
    case None => None
    case Some(content) =>
      match parse(ExtractJsonContent(content))
      case None => None
      case Some(f) => Some(f.(query := Some(query)))
  }

  predicate SearchHit(cache: Cache, query: string) {
    SearchKey(query) in cache && cache[SearchKey(query)].SearchEntry?
  }

  /** `processSearchQuery(query)` as a value: the result and the new cache. */
  function SearchOutcome(cache: Cache, query: string, hasKey: bool, chat: Chat,
                         parse: string -> Option<SearchFilters>): (SearchFilters, Cache) {
    var key := SearchKey(query);
    if SearchHit(cache, query) then (cache[key].filters, cache)
    else if !hasKey then (DefaultFilters(query), cache)
    else match SearchReply(query, chat, parse)
      case None => (DefaultFilters(query), cache)
      case Some(f) => (f, cache[key := SearchEntry(f)])
  }

  /** The analysis a successful analysis request yields, if it passes the
      structure check. */
  function AnalysisReply(recipe: Recipe, chat: Chat, parse: string -> Option<RecipeAnalysis>): Option<RecipeAnalysis> {
    match ChatContent(RetryResult(AttemptsFor(chat, Prompt(recipe)), ChatRetries))
    case None => None
    case Some(content) =>
      match parse(ExtractJsonContent(content))
      case None => None
      case Some(a) => if CompleteAnalysis(a) then Some(a) else None
  }

  predicate AnalysisHit(cache: Cache, recipe: Recipe) {
    AnalysisKey(recipe.idMeal) in cache && cache[AnalysisKey(recipe.idMeal)].AnalysisEntry?
  }

  /** `recipe?.idMeal && recipe.strMeal`. */
  predicate NamedRecipe(recipe: Recipe) {
    recipe.idMeal != "" && recipe.strMeal != ""
  }

  /** `analyzeRecipe(recipe)` as a value: the result and the new cache. */
  function AnalysisOutcome(cache: Cache, recipe: Recipe, hasKey: bool, chat: Chat,
                           parse: string -> Option<RecipeAnalysis>): (RecipeAnalysis, Cache) {
    var key := AnalysisKey(recipe.idMeal);
    if AnalysisHit(cache, recipe) then (cache[key].analysis, cache)
    else if !hasKey || !NamedRecipe(recipe) then (DefaultAnalysis, cache)
    else match AnalysisReply(recipe, chat, parse)
      case None => (DefaultAnalysis, cache)
      case Some(a) => (a, cache[key := AnalysisEntry(a)])
  }

  /** A search either hits the cache and changes nothing (returning filters
      whose `query` may be another spelling with the same key), or returns
      filters whose `query` is the original query: `{ query }` with the cache
      unchanged on every failure, the parsed filters stored under the
      query's key on success. No other key changes, and the cache stays
      valid. */
  lemma SearchOutcomeSpec(cache: Cache, query: string, hasKey: bool, chat: Chat,
                          parse: string -> Option<SearchFilters>)
    requires CacheValid(cache)
    ensures var (r, cache') := SearchOutcome(cache, query, hasKey, chat, parse);
      CacheValid(cache') &&
      (SearchKey(query) in cache ==> r == cache[SearchKey(query)].filters && cache' == cache) &&
      (SearchKey(query) !in cache ==> r.query == Some(query)) &&
      (r.query.Some? && SearchKey(r.query.value) == SearchKey(query)) &&
      (SearchKey(query) !in cache && (!hasKey || SearchReply(query, chat, parse).None?) ==>
         r == DefaultFilters(query) && cache' == cache) &&
      (SearchKey(query) !in cache && hasKey && SearchReply(query, chat, parse).Some? ==>
         cache' == cache[SearchKey(query) := SearchEntry(r)]) &&
      (forall k :: k != SearchKey(query) ==> (k in cache' <==> k in cache) && (k in cache ==> cache'[k] == cache[k]))
  {
    var key := SearchKey(query);
    KeysDisjoint(query, "");
    if key in cache {
      assert IsSearchKey(key);
    }
  }

  /** The cache makes the search idempotent: once a query has been answered
      from the model, any later query with the same key returns the same
      filters, whatever the key, the endpoint or the parser then do. */
  lemma SearchCachedAfterSuccess(cache: Cache, q1: string, q2: string, hasKey: bool, chat: Chat,
                                 parse: string -> Option<SearchFilters>, hasKey2: bool, chat2: Chat,
                                 parse2: string -> Option<SearchFilters>)
    requires CacheValid(cache) && SearchKey(q1) == SearchKey(q2)
    requires SearchKey(q1) !in cache && hasKey && SearchReply(q1, chat, parse).Some?
    ensures var (r1, cache1) := SearchOutcome(cache, q1, hasKey, chat, parse);
      SearchOutcome(cache1, q2, hasKey2, chat2, parse2) == (r1, cache1)
  {
  }

  /** An analysis is the cached one when its id is cached, even without an
      API key or a name; otherwise it is the static default on every failure
      (no key, no id or name, failed request, unparsable or incomplete
      reply) with the cache unchanged, and on success the accepted analysis,
      stored under the recipe's key. The cache stays valid. */
  lemma AnalysisOutcomeSpec(cache: Cache, recipe: Recipe, hasKey: bool, chat: Chat,
                            parse: string -> Option<RecipeAnalysis>)
    requires CacheValid(cache)
    ensures var (r, cache') := AnalysisOutcome(cache, recipe, hasKey, chat, parse);
      var key := AnalysisKey(recipe.idMeal);
      CacheValid(cache') &&
      (key in cache <==> AnalysisHit(cache, recipe)) &&
      (AnalysisHit(cache, recipe) ==> r == cache[key].analysis && cache' == cache) &&
      (key !in cache && (!hasKey || !NamedRecipe(recipe) || AnalysisReply(recipe, chat, parse).None?) ==>
         r == DefaultAnalysis && cache' == cache) &&
      (key !in cache && hasKey && NamedRecipe(recipe) && AnalysisReply(recipe, chat, parse).Some? ==>
         CompleteAnalysis(r) && cache' == cache[key := AnalysisEntry(r)]) &&
      (forall k :: k != key ==> (k in cache' <==> k in cache) && (k in cache ==> cache'[k] == cache[k]))
  {
    var key := AnalysisKey(recipe.idMeal);
    KeysDisjoint("", recipe.idMeal);
    if key in cache {
      assert !IsSearchKey(key);
    }
  }

  /** Every analysis returned is the default or passed the structure check. */
  lemma AnalysisDefaultOrComplete(cache: Cache, recipe: Recipe, hasKey: bool, chat: Chat,
                                  parse: string -> Option<RecipeAnalysis>)
    requires CacheValid(cache)
    ensures var r := AnalysisOutcome(cache, recipe, hasKey, chat, parse).0;
      r == DefaultAnalysis || CompleteAnalysis(r)
  {
    AnalysisOutcomeSpec(cache, recipe, hasKey, chat, parse);
  }

  /** The process-wide cache and the two operations that read and fill it. */
  class Gateway {
    var cache: Cache

    ghost predicate Valid()
      reads this
    {
      CacheValid(cache)
    }

    constructor ()
      ensures cache == map[] && Valid()
    {
      cache := map[];
    }

    /** `processSearchQuery(query)`. Also returns the chat attempts made. */
    method ProcessSearchQuery(query: string, hasKey: bool, chat: Chat, parse: string -> Option<SearchFilters>)
      returns (r: SearchFilters, calls: nat)
      requires Valid()
      modifies this
      ensures Valid()
      ensures (r, cache) == SearchOutcome(old(cache), query, hasKey, chat, parse)
      ensures calls == if SearchHit(old(cache), query) || !hasKey then 0
                       else AttemptsMade(AttemptsFor(chat, query), ChatRetries)
    {
      SearchOutcomeSpec(cache, query, hasKey, chat, parse);
      var key := SearchKey(query);
      if key in cache && cache[key].SearchEntry? {
        return cache[key].filters, 0;
      }
      r := DefaultFilters(query);
      calls := 0;
      if !hasKey {
        return;
      }
      var reply, delays;
      reply, calls, delays := FetchWithRetry(AttemptsFor(chat, query), ChatRetries, ChatBaseDelay);
      if reply.Ok? && Truthy(reply.value.content) {
        var content := reply.value.content.value;
        var parsed := parse(ExtractJsonContent(content));
        if parsed.Some? {
          r := parsed.value.(query := Some(query));
          cache := cache[key := SearchEntry(r)];
        }
      }
    }

    /** `analyzeRecipe(recipe)`. Also returns the chat attempts made. */
    method AnalyzeRecipe(recipe: Recipe, hasKey: bool, chat: Chat, parse: string -> Option<RecipeAnalysis>)
      returns (r: RecipeAnalysis, calls: nat)
      requires Valid()
      modifies this
      ensures Valid()
      ensures (r, cache) == AnalysisOutcome(old(cache), recipe, hasKey, chat, parse)
      ensures calls == if AnalysisHit(old(cache), recipe) || !hasKey || !NamedRecipe(recipe) then 0
                       else AttemptsMade(AttemptsFor(chat, Prompt(recipe)), ChatRetries)
    {
      AnalysisOutcomeSpec(cache, recipe, hasKey, chat, parse);
      var key := AnalysisKey(recipe.idMeal);
      if key in cache && cache[key].AnalysisEntry? {
        return cache[key].analysis, 0;
      }
      r := DefaultAnalysis;
      calls := 0;
      if !hasKey || recipe.idMeal == "" || recipe.strMeal == "" {
        return;
      }
      var reply, delays;
      reply, calls, delays := FetchWithRetry(AttemptsFor(chat, Prompt(recipe)), ChatRetries, ChatBaseDelay);
      if reply.Ok? && Truthy(reply.value.content) {
        var content := reply.value.content.value;
        var parsed := parse(ExtractJsonContent(content));
        if parsed.Some? && parsed.value.difficulty != "" && parsed.value.prepTime != "" {
          r := parsed.value;
          cache := cache[key := AnalysisEntry(r)];
        }
      }
    }
  }
}
