/** What the recipe database (TheMealDB) sends back, and the outcomes of
    network calls, as oracle values. */
module Upstream {
  import opened Wrappers

  /** The number of numbered `strIngredientN` / `strMeasureN` fields. */
  const SlotCount: nat := 20

  /** Twenty optional strings: slot `i` holds field number `i + 1`. */
  type Slots = s: seq<Option<string>> | |s| == SlotCount witness seq(20, _ => None)

  /** A raw meal record as the upstream JSON has it; absent fields are `None`. */
  datatype RawMeal = RawMeal(
    idMeal: Option<string>,
    strMeal: Option<string>,
    strCategory: Option<string>,
    strArea: Option<string>,
    strInstructions: Option<string>,
    strMealThumb: Option<string>,
    strTags: Option<string>,
    strYoutube: Option<string>,
    strIngredient: Slots,
    strMeasure: Slots)

  /** A parsed response body: `meals` is null/absent or an array. */
  datatype MealsBody = MealsBody(meals: Option<seq<RawMeal>>)

  /** `{ meals: [] }`. */
  const EmptyMeals: MealsBody := MealsBody(Some([]))

  /** The outcome of one `fetch`: it threw, or a response arrived with its
      `ok` flag and a body that `response.json()` parsed (`None`: it threw). */
  datatype Fetched = NetworkError | Response(ok: bool, json: Option<MealsBody>)

  /** `response.ok` and `data.meals?.[0]`: the first meal of a successful,
      parsed response, if there is one. */
  function FirstMeal(f: Fetched): (m: Option<RawMeal>)
    ensures m.Some? <==> (f.Response? && f.ok && f.json.Some? &&
      f.json.value.meals.Some? && |f.json.value.meals.value| > 0)
    ensures m.Some? ==> m.value == f.json.value.meals.value[0]
  {
    match f
    case Response(true, Some(MealsBody(Some(ms)))) => if |ms| > 0 then Some(ms[0]) else None
    case _ => None
  }

  /** The id a listed meal is looked up by: `${meal.idMeal}`, which renders
      an absent id as "undefined". */
  function StubId(stub: RawMeal): string {
    if stub.idMeal.Some? then stub.idMeal.value else "undefined"
  }
}
