/** The application's data shapes (lib/types.ts). Optional TypeScript fields
    (`field?: T`) are `Option`s. */
module Types {
  import opened Wrappers

  /** JavaScript truthiness of an optional string: present and non-empty. */
  predicate Truthy(o: Option<string>) {
    o.Some? && o.value != ""
  }

  /** `o || d` for an optional string. */
  function OrDefault(o: Option<string>, d: string): string {
    if Truthy(o) then o.value else d
  }

  datatype Ingredient = Ingredient(ingredient: string, measure: string)

  datatype Recipe = Recipe(
    idMeal: string,
    strMeal: string,
    strCategory: Option<string>,
    strArea: Option<string>,
    strInstructions: Option<string>,
    strMealThumb: string,
    strTags: Option<string>,
    strYoutube: Option<string>,
    mainIngredients: Option<seq<string>>,
    ingredients: Option<seq<Ingredient>>)

  datatype SearchFilters = SearchFilters(
    ingredient: Option<string>,
    cuisine: Option<string>,
    category: Option<string>,
    query: Option<string>,
    firstLetter: Option<string>,
    dietary: Option<string>,
    cookingMethod: Option<string>)

  /** `{}`: no field set. */
  const NoFilters: SearchFilters := SearchFilters(None, None, None, None, None, None, None)

  datatype Substitution = Substitution(ingredient: string, alternatives: seq<string>)

  datatype RecipeAnalysis = RecipeAnalysis(
    difficulty: string,
    prepTime: string,
    cookingTechniques: seq<string>,
    healthRating: string,
    nutritionalHighlights: seq<string>,
    substitutionSuggestions: seq<Substitution>,
    pairingRecommendations: seq<string>)
}
