# Global Recipe Finder — a Dafny model of its core

This project models the core of a recipe-finder web app. The app has two gateways:

- **The recipe gateway (`lib/api.ts`)** talks to TheMealDB:
  - featured recipes, random recipe, search in five modes with post-filters;
  - lookup by id, the full id crawl with retries and batches;
  - the `formatRecipe` normaliser.
- **The AI gateway (`lib/ai.ts`)** turns free text into search filters and analyses recipes. It works through:
  - a Groq chat endpoint with exponential retry;
  - code-fence extraction of the JSON reply;
  - one process-wide cache with `search:` and `analysis:` keys.

The model also covers the code that drives the gateways:

- the search bar's URL building (`components/search-bar.tsx`);
- the search page's flow (`app/search/page.tsx`);
- the schema.org structured data (`components/recipe-schema.tsx`);
- the two `/api/analyzeRecipe` endpoints (`app/api/analyzeRecipe/route.ts` and `lib/analyzeRecipe.ts`).

The model takes three forms, following the source:

- **Pure code** becomes functions with lemmas.
- **Loops** become methods with invariants, each proved against a specification function:
  - `formatRecipe`;
  - both `fetchWithRetry`s;
  - `processInBatches`;
  - the featured-recipe loops.
- **State** becomes classes whose methods are proved against a function of the old state:
  - the AI cache (`AiGateway.Gateway`);
  - the search bar's state (`SearchBar.SearchBarState`).

External inputs are parameters. Each of these is an oracle:

- every network call: a `Fetched` value, or an `Attempt` per attempt number;
- the chat completion;
- `JSON.parse`;
- `Math.random`;
- the presence of the API key.

Modules, one per file:

- **Shared modules:**
  - `Wrappers`;
  - `Text`: JavaScript `trim`, ASCII case mapping, `indexOf`/`includes`, `join`;
  - `Seqs`: `filter(Boolean)`, first-occurrence dedup, `flat`;
  - `Types`: `lib/types.ts`;
  - `Upstream`: raw TheMealDB records and fetch outcomes;
  - `Attempts`: outcomes of retry loops.
- **Recipe gateway:** `RecipeFormat`, `RecipeSearch`, `Featured` and `RecipeIds`.
- **AI gateway:** `AiText`, `AiRetry` and `AiGateway`.
- **UI and endpoints:** `SearchBar`, `SearchPage`, `RecipeSchema`, `AnalyzeRoute` and `AnalyzeHandler`.

The code and its comments disagree in one place; the model follows the code:

- `lib/api.ts:291-292` says "exponential backoff" but waits `1000 * attempt`. `RecipeIds.FetchWithRetry` states these linear waits.
- The exponential waits are those of `lib/ai.ts`, in `AiRetry.FetchWithRetry`.

## Model

| member | source | states |
|---|---|---|
| RecipeFormat.FormatRecipe | lib/api.ts:338-377 | the 20-slot loop builds exactly the recipe `Formatted` describes; a null meal gives id "", name "Unknown Recipe"; the name is never empty; a real meal always has ingredients and instructions |
| RecipeFormat.IngredientsUpToCount | lib/api.ts:350-363 | after n slots the list has one entry per kept slot (at most n), and `mainIngredients` is exactly the list of entry names |
| RecipeFormat.IngredientsUpToEntries | lib/api.ts:354-358 | entry j is the trimmed name and measure (or "") of the j-th kept slot |
| RecipeFormat.KeptSlotsOrdered | lib/api.ts:350-363 | kept slots appear in increasing order, and a slot is listed iff its ingredient is present and not blank |
| RecipeFormat.FormattedIngredients | lib/api.ts:347-375 | at most 20 entries, each with a non-blank trimmed name and a trimmed measure; main ingredients are the entry names |
| RecipeFormat.NoneKept | lib/api.ts:354 | blank or absent slots contribute no entry |
| RecipeFormat.ByIdStep | lib/api.ts:230-236 | each further slot appends at most one entry, at the end, to both filtered lists of `getRecipeById` |
| RecipeFormat.SlotAgrees | lib/api.ts:230-233 | on one kept slot, the lookup normaliser's entry is `formatRecipe`'s entry up to trimming |
| RecipeFormat.ByIdMatchesFormatted | lib/api.ts:230-233 | the two normalisers keep the same slots in the same order, agreeing entry by entry up to trimming |
| RecipeFormat.ByIdNamesAreNames | lib/api.ts:234-235 | the names filtered for `mainIngredients` are the names of the lookup's own ingredient list |
| RecipeFormat.ByIdMainIngredients | lib/api.ts:234-236 | `mainIngredients` holds at most five names: the first min(5, n) names of the ingredient list |
| RecipeFormat.GetRecipeById | lib/api.ts:208-244 | a recipe comes back exactly when the reply parsed and has a non-empty `meals` list, regardless of the HTTP status; it is the normalised first meal |
| RecipeFormat.LambExample | lib/api.ts:230-233 | a record whose only filled slot is lamb / 1kg yields exactly that one ingredient |
| RecipeSearch.SelectModeIsFirstApplicable | lib/api.ts:91-122 | the mode chosen is the first applicable of query, one-letter, ingredient, cuisine, category; none exactly when nothing applies |
| RecipeSearch.PostFiltersDoNotSelect | lib/api.ts:91-122 | dietary and cooking method never affect the mode, and neither does a first letter whose length is not 1 |
| RecipeSearch.LookupRequestsCover | lib/api.ts:153-157 | a request is sent for a stub list exactly when it is the lookup of some stub's id: every stub is looked up and nothing else is requested |
| RecipeSearch.SearchRequests | lib/api.ts:85-201 | no usable filter sends nothing and yields []; otherwise the search goes first, and any further requests are lookups, only for stub modes |
| RecipeSearch.SearchErrors | lib/api.ts:125-147 | the call fails exactly when the fetch throws, the status is not OK or the body does not parse; a body without `meals` gives [] |
| RecipeSearch.FullRecordModes | lib/api.ts:199-201 | name and letter searches return one formatted recipe per upstream meal, in order |
| RecipeSearch.NoPostFilterOnFullRecords | lib/api.ts:151-201 | dietary and cooking-method filters do not change a name or letter search |
| RecipeSearch.ResolveStubsAppend | lib/api.ts:153-195 | resolving stubs keeps stub order: resolving a concatenation concatenates the results |
| RecipeSearch.ResolveStubsKeeps | lib/api.ts:153-195 | a recipe is in the result iff some stub's lookup yields it and it passes both post-filters; there are at most as many results as stubs |
| RecipeSearch.VegetarianExcludesMeat | lib/api.ts:172-177 | under a "vegetarian" filter (any case), no returned recipe lists an ingredient whose lower-cased name is a meat keyword |
| RecipeSearch.OtherDietaryKeepsAll | lib/api.ts:172-177 | any other dietary value filters nothing out |
| RecipeSearch.MethodFilterIff | lib/api.ts:179-183 | the cooking-method filter keeps a recipe iff its lower-cased instructions contain the lower-cased method |
| RecipeSearch.ExactMeatMatch | lib/api.ts:173-175 | keywords match whole names: "Chicken Stock" is not meat, "Chicken" is |
| Featured.GetRandomRecipe | lib/api.ts:246-265 | a recipe comes back exactly when the reply has a first meal; it is that meal formatted, with a name and an ingredient list |
| Featured.PickIndexInRange | lib/api.ts:53-54 | the random index is inside a non-empty listing; for an empty listing it is 0, which reads `undefined` |
| Featured.CollectStep | lib/api.ts:26-29 | one more candidate is appended exactly when it is present and its id is unseen |
| Featured.Admit | lib/api.ts:64-69 | one candidate handled as both loops do keeps the collected list and the seen-id set in step |
| Featured.GetFeaturedRecipes | lib/api.ts:5-83 | three random calls, then as many categories in order as `ListedFrom` counts; the result is the first-id dedup of the present candidates tried, at most six |
| Featured.ListedFrom | lib/api.ts:39-40 | the number of categories listed lies between where counting starts and the number of categories |
| Featured.ListedFromSpec | lib/api.ts:39-40 | the category loop stops before the last category only once six recipes are held |
| Featured.ListedWhileShort | lib/api.ts:39-40 | every listed category was listed while fewer than six recipes were held |
| Featured.CollectedDistinct | lib/api.ts:8-29 | the collected ids are pairwise distinct, and each recipe is a present candidate |
| Featured.CollectedCovers | lib/api.ts:26-29 | every present candidate tried has its id among the collected recipes |
| Featured.RandomPhaseFallsShort | lib/api.ts:12-38 | the random phase alone yields at most three recipes, so the category phase always runs |
| RecipeIds.FetchWithRetry | lib/api.ts:267-296 | resolves to the first successful body or `{ meals: [] }`; makes as many attempts as `AttemptsMade` says; waits 1000·k ms after failed attempt k, except the last |
| RecipeIds.RetryDataCases | lib/api.ts:267-296 | with retries ≥ 1 the result is always defined: `{ meals: [] }` iff all attempts failed, else the first success |
| RecipeIds.ProcessInBatches | lib/api.ts:298-314 | one result per item in order; the batches flatten to the items and are full but for the last; one 1000 ms pause between consecutive batches |
| RecipeIds.BatchCount | lib/api.ts:304-311 | the number of batches is ⌈n / size⌉, with no batch only for no items |
| RecipeIds.GetAllRecipeIds | lib/api.ts:316-336 | the ids are the order-preserving dedup of all letters' ids; 26 letters in batches of 5 give five pauses |
| RecipeIds.AllIdsDistinctAndComplete | lib/api.ts:321-331 | no id occurs twice, and an id is in the result iff some letter's search listed it |
| RecipeIds.LetterDataDefined | lib/api.ts:324-325 | with three attempts per letter, every letter's data is defined |
| AiText.ExtractJsonContent | lib/ai.ts:177-180 | the extracted text is trimmed and no longer than the content |
| AiText.NoFenceGivesTrim | lib/ai.ts:177-180 | content without a code fence is only trimmed |
| AiText.JsonFenceExtracted | lib/ai.ts:178-179 | inside a json-fenced block the block's trimmed body is returned (the whole content trimmed if that is empty); text after it is ignored |
| AiText.FenceExtracted | lib/ai.ts:178-179 | with no json fence, a plain fenced block yields its trimmed body |
| AiText.KeysDisjoint | lib/ai.ts:11-82 | no search key equals an analysis key |
| AiText.KeysIdentify | lib/ai.ts:11-82 | two queries share a cache entry iff they agree after lower-casing and trimming; two recipes iff their ids agree |
| AiText.SearchKeyCanonical | lib/ai.ts:11 | a query and its normal form have the same key |
| AiText.IngredientsListEmpty | lib/ai.ts:110-113 | with no entry having both a name and a measure, the list reads "Not specified" |
| AiText.IngredientsListEntries | lib/ai.ts:110-113 | otherwise it is the ", "-join of the "measure ingredient" lines, one per entry having both fields |
| AiText.InstructionsExcerpt | lib/ai.ts:120 | the first 1000 characters of truthy instructions, whole when shorter; "Not specified" otherwise |
| AiText.Prompt | lib/ai.ts:115-122 | the prompt names the recipe on its first line |
| AiRetry.FetchWithRetry | lib/ai.ts:183-198 | settles to the first OK response, or the last error; "Max retries reached" when no attempt is allowed; waits base·2^(k-1) after failed attempt k, except the last |
| AiRetry.RetryResultCases | lib/ai.ts:183-198 | with retries ≥ 1, the result is an error iff every attempt failed, and then it is the last attempt's error |
| AiRetry.DelaysDouble | lib/ai.ts:193 | n successive waits double each time and total base·(2^n − 1) |
| AiGateway.SearchOutcomeSpec | lib/ai.ts:9-79 | a hit returns the cached filters and changes nothing; otherwise the result carries the original query ({ query } on any failure, the cache then unchanged); success stores the result under the key; no other key changes; the cache stays well formed |
| AiGateway.SearchCachedAfterSuccess | lib/ai.ts:72-73 | after a successful search, any spelling with the same key is answered from the cache with no chat call |
| AiGateway.AnalysisOutcomeSpec | lib/ai.ts:81-174 | a hit returns the cached analysis; with no key, an unnamed recipe or any failure, the default analysis with the cache unchanged; a complete parsed analysis is returned and stored |
| AiGateway.AnalysisDefaultOrComplete | lib/ai.ts:89-172 | every analysis returned is the default or has a difficulty and a prep time |
| AiGateway.Gateway.constructor | lib/ai.ts:4-7 | the cache starts empty |
| AiGateway.Gateway.ProcessSearchQuery | lib/ai.ts:9-79 | result and new cache are `SearchOutcome` of the old cache; chat attempts are made only on a miss with a key |
| AiGateway.Gateway.AnalyzeRecipe | lib/ai.ts:81-174 | result and new cache are `AnalysisOutcome` of the old cache; chat attempts only on a miss with a key and a named recipe |
| SearchBar.SubmitParamsSpec | components/search-bar.tsx:47-77 | navigates iff the query is not blank; a single ASCII letter gives a lower-cased `letter` and no `q`; anything else a trimmed `q` and no `letter`; each filter is present iff truthy |
| SearchBar.PaddedLetterIsQuery | components/search-bar.tsx:60-64 | " a" becomes `q=a`, since the letter test runs on the untrimmed query |
| SearchBar.SubmitRoundTrip | components/search-bar.tsx:41-70 | reading the navigated URL back gives the lower-cased letter or the trimmed query, and the same truthy filters |
| SearchBar.SearchBarState.constructor | components/search-bar.tsx:41-45 | initial query is `q`, else `letter`, else ""; filters are the URL's values; popover closed, not loading |
| SearchBar.SearchBarState.HandleSubmit | components/search-bar.tsx:47-77 | returns `SubmitParams` of the state; changes nothing else but `isLoading`, which a navigation leaves false |
| SearchBar.SearchBarState.ClearFilters | components/search-bar.tsx:79-83 | both filters null and the popover closed; the query kept |
| SearchPage.RenderSearchPage | app/search/page.tsx:32-72 | what is shown and the new AI cache are `PageOutcome` of the old cache |
| SearchPage.UrlFiltersSpec | app/search/page.tsx:54-56 | URL filters replace the AI's dietary and method values when given, and never change the search mode |
| SearchPage.LetterSearchBypassesAi | app/search/page.tsx:43-46 | a letter wins: the AI is not used and the cache is unchanged; one character sends one letter search, a longer one sends nothing |
| SearchPage.NothingToSearch | app/search/page.tsx:38-72 | neither letter nor query: nothing sent or shown, empty heading, cache unchanged |
| SearchPage.ErrorMeansNoRecipes | app/search/page.tsx:59-66 | an error message is shown exactly when the search threw, and then the list is empty |
| SearchPage.QuerySearchIsByName | app/search/page.tsx:47-58 | an uncached query is searched by name with the query itself, whatever fields the AI extracted |
| SearchPage.SearchTermSpec | app/search/page.tsx:68-72 | the heading is empty iff there is neither letter nor query; a letter heading shows it upper-cased |
| RecipeSchema.SplitLines | components/recipe-schema.tsx:17-18 | every piece of the split is free of line breaks, and there is at least one piece |
| RecipeSchema.SplitLinesJoin | components/recipe-schema.tsx:17-18 | the pieces put back together are the text minus its line breaks |
| RecipeSchema.OneLineSplit | components/recipe-schema.tsx:17-18 | a text without line breaks is one piece |
| RecipeSchema.NonEmptyLinesJoin | components/recipe-schema.tsx:19 | dropping empty pieces loses no text |
| RecipeSchema.StepsSpec | components/recipe-schema.tsx:17-24 | steps are numbered 1..n without gaps; each is a non-empty line without line breaks; there is one step per non-empty piece of the split |
| RecipeSchema.StepsSpell | components/recipe-schema.tsx:17-24 | the texts of the steps, read in order, spell the instructions with their line breaks removed |
| RecipeSchema.StepsEdgeCases | components/recipe-schema.tsx:17-24 | empty instructions give no steps; one non-empty line gives exactly step 1 |
| RecipeSchema.BlankLineDropped | components/recipe-schema.tsx:18-19 | two lines separated by an empty CRLF line are steps 1 and 2 |
| RecipeSchema.SchemaOfSpec | components/recipe-schema.tsx:8-25 | name, image, category and cuisine copied; one "measure ingredient" line per ingredient, in order; instructions present iff the recipe has them; the description starts with the name |
| AnalyzeRoute.Post | app/api/analyzeRecipe/route.ts:5-43 | the response and new cache are `PostOutcome` of the old cache |
| AnalyzeRoute.PostSpec | app/api/analyzeRecipe/route.ts:8-43 | 500 iff the body is unreadable; 400 "Valid recipe data is required" iff `recipe` is falsy or not an object; 400 "Recipe must include name and ID" for arrays and unnamed objects; otherwise 200 with the gateway's analysis; rejections leave the cache alone |
| AnalyzeRoute.PostReturnsFreshAnalysis | app/api/analyzeRecipe/route.ts:20-35 | on a miss with a key and a complete reply, that analysis is answered and cached under the recipe's key |
| AnalyzeHandler.Handle | lib/analyzeRecipe.ts:5-25 | the response and new cache are `HandlerOutcome` of the old cache |
| AnalyzeHandler.HandlerSpec | lib/analyzeRecipe.ts:5-25 | 405 iff the method is not POST; 400 iff a POST has a falsy recipe; 200 iff the recipe is truthy; never 500; only 200 touches the cache |
| AnalyzeHandler.EndpointsAgreeOnNamedRecipes | lib/analyzeRecipe.ts:16-20 | for a named recipe object both endpoints give the same analysis and cache |
| AnalyzeHandler.EndpointsDisagreeOnPrimitives | lib/analyzeRecipe.ts:12-18 | a truthy non-object recipe: the route answers 400, this handler 200 with the default analysis |

## Left out

- HTTP transport:
  - URLs and `encodeURIComponent`, headers and `cache: "no-store"`;
  - status texts of thrown errors, request bodies sent to Groq;
  - the model and temperature parameters.
  The model keeps only which request goes where, and whether it succeeds.
- Timeouts and `AbortController` in `lib/api.ts` `fetchWithRetry`: an aborted attempt is a failed attempt. Wall-clock waits are recorded as numbers, not performed.
- Concurrency: `Promise.all` in `searchRecipes` and `processInBatches`.
  - The model resolves stubs and runs callbacks in list order.
  - The results are order-preserving either way.
- The NodeCache TTL (24 h) and its expiry sweep, which need time.
  - Entries never expire in the model.
  - NodeCache clones values on get and set, so the page's writes to the returned filters never reach the cache. The model has no aliasing to match.
- `JSON.parse` and the model's reply: both are the `parse` oracle parameter.
  - `processSearchQuery` spreads any parsed object into `SearchFilters`; fields of other types are not modelled.
  - Analysis fields other than `difficulty` and `prepTime` are not validated, as in the source.
- Regular expressions are modelled by explicit search:
  - `extractJsonContent`'s two fences;
  - the `/\r\n|\n|\r/` split;
  - the single-letter test.
- `toLowerCase` and `toUpperCase` are modelled on ASCII letters only. Other characters, and String methods on UTF-16 code units, are taken as `char`s.
- Absent strings:
  - `getRecipeById` and the endpoint bodies carry absent `idMeal`, `strMeal` and `strMealThumb` as "" (the `Recipe` type declares them strings).
  - So an object recipe without `idMeal` has the cache key `analysis:` in the model, where the source forms `analysis:undefined`.
  - `getRecipeById` also carries an absent `strMeasure` slot as "". The source keeps it as JSON `null` (or `undefined`), so a structured-data ingredient line for such a slot reads " Lamb" in the model where the source writes "null Lamb".
  - Optional fields (`strArea`, `strCategory`, …) are one `None`. It stands for a field left out, which a template literal prints as `undefined`. The JSON `null` that TheMealDB sends, and that `getRecipeById` passes through, is not told apart from it, so the schema description prints `undefined` where the source prints `null` for such a lookup.
- JavaScript `Math.random`: a real in [0, 1) per category, given as a parameter. `random.php` replies are a parameter per draw.
- The outer `catch` of `getFeaturedRecipes` and `getAllRecipeIds`: nothing inside them throws in the model, so they are unreachable.
- The 500 branch of `lib/analyzeRecipe.ts`. `analyzeRecipe` catches everything itself, so the handler can never reach it. A missing `req.body` throws before the `try` and is modelled as no response.
- `isLoading` on the search page is always false once rendered, so it is not part of `PageResult`.
- Logging, toasts, `router.push` (the method returns the parameters instead), and all JSX rendering and components.
- Error messages thrown inside `searchRecipes` are modelled as fixed strings. Callers only test whether the call threw.
- AiText.Prompt: states only that the first line names the recipe. The rest of the template is given by the function's definition.
- AiText.ExtractJsonContent: its lemmas cover content with no fence, and blocks whose surrounding text has no stray backticks. Content with several fences is given by the definition only.
