/** The two recipe normalisers of lib/api.ts: `formatRecipe`, used by every
    search and the featured list, and the inline one in `getRecipeById`. */
module RecipeFormat {
  import opened Wrappers
  import opened Text
  import opened Types
  import opened Upstream
  import opened Seqs

  /** `ingredient && ingredient.trim()`: the slot holds a non-blank name. */
  predicate KeepsSlot(ing: Option<string>) {
    ing.Some? && Trim(ing.value) != ""
  }

  /** The entry `formatRecipe` pushes for a kept slot. */
  function SlotEntry(ing: Option<string>, measure: Option<string>): Ingredient
    requires KeepsSlot(ing)
  {
    Ingredient(Trim(ing.value), if Truthy(measure) then Trim(measure.value) else "")
  }

  /** The `ingredients` list `formatRecipe` has built after slots 1..n. */
  function IngredientsUpTo(m: RawMeal, n: nat): seq<Ingredient>
    requires n <= SlotCount
  {
    if n == 0 then []
    else
      IngredientsUpTo(m, n - 1) +
        if KeepsSlot(m.strIngredient[n - 1])
        then [SlotEntry(m.strIngredient[n - 1], m.strMeasure[n - 1])] else []
  }

  /** The `mainIngredients` list `formatRecipe` has built after slots 1..n. */
  function MainUpTo(m: RawMeal, n: nat): seq<string>
    requires n <= SlotCount
  {
    if n == 0 then []
    else
      MainUpTo(m, n - 1) +
        if KeepsSlot(m.strIngredient[n - 1]) then [Trim(m.strIngredient[n - 1].value)] else []
  }

  /** What `formatRecipe` returns for a null or undefined meal. */
  const UnknownRecipe: Recipe :=
    Recipe("", "Unknown Recipe", None, None, None, "", None, None, None, None)

  /** The value `formatRecipe(meal)` returns. */
  function Formatted(meal: Option<RawMeal>): Recipe {
    match meal
    case None => UnknownRecipe
    case Some(m) =>
      Recipe(
        OrDefault(m.idMeal, ""),
        OrDefault(m.strMeal, "Unknown Recipe"),
        Some(OrDefault(m.strCategory, "")),
        Some(OrDefault(m.strArea, "")),
        Some(OrDefault(m.strInstructions, "")),
        OrDefault(m.strMealThumb, ""),
        Some(OrDefault(m.strTags, "")),
        Some(OrDefault(m.strYoutube, "")),
        Some(MainUpTo(m, SlotCount)),
        Some(IngredientsUpTo(m, SlotCount)))
  }

  /** `formatRecipe`: collapses the twenty numbered slots into the ingredient
      list by a loop over slots 1..20, and fills in defaults. */
  method FormatRecipe(meal: Option<RawMeal>) returns (r: Recipe)
    ensures r == Formatted(meal)
    ensures meal.None? ==> (r.idMeal == "" && r.strMeal == "Unknown Recipe" &&
      r.strMealThumb == "" && r.ingredients.None? && r.mainIngredients.None? &&
      r.strCategory.None? && r.strArea.None? && r.strInstructions.None?)
    ensures r.strMeal != ""
    ensures meal.Some? ==> r.ingredients.Some? && r.strInstructions.Some?
  {
    if meal.None? {
      return UnknownRecipe;
    }
    var m := meal.value;
    var ingredients: seq<Ingredient> := [];
    var mainIngredients: seq<string> := [];
    var i := 1;
    while i <= 20
      invariant 1 <= i <= 21
      invariant ingredients == IngredientsUpTo(m, i - 1)
      invariant mainIngredients == MainUpTo(m, i - 1)
    {
      var ingredient := m.strIngredient[i - 1];
      var measure := m.strMeasure[i - 1];
      if ingredient.Some? && Trim(ingredient.value) != "" {
        ingredients := ingredients + [Ingredient(Trim(ingredient.value),
          if Truthy(measure) then Trim(measure.value) else "")];
        mainIngredients := mainIngredients + [Trim(ingredient.value)];
      }
      i := i + 1;
    }
    r := Recipe(
      OrDefault(m.idMeal, ""),
      OrDefault(m.strMeal, "Unknown Recipe"),
      Some(OrDefault(m.strCategory, "")),
      Some(OrDefault(m.strArea, "")),
      Some(OrDefault(m.strInstructions, "")),
      OrDefault(m.strMealThumb, ""),
      Some(OrDefault(m.strTags, "")),
      Some(OrDefault(m.strYoutube, "")),
      Some(mainIngredients),
      Some(ingredients));
  }

  /** The slot positions (0-based) among the first n that `formatRecipe` keeps. */
  function KeptSlots(m: RawMeal, n: nat): seq<nat>
    requires n <= SlotCount
  {
    if n == 0 then []
    else KeptSlots(m, n - 1) + if KeepsSlot(m.strIngredient[n - 1]) then [n - 1] else []
  }

  /** The ingredient names of an ingredient list. */
  function Names(ings: seq<Ingredient>): (r: seq<string>)
    ensures |r| == |ings| && forall j :: 0 <= j < |ings| ==> r[j] == ings[j].ingredient
  {
    seq(|ings|, j requires 0 <= j < |ings| => ings[j].ingredient)
  }

  /** The list has one entry per kept slot, and `mainIngredients` is the list
      of its names. */
  lemma {:induction false} IngredientsUpToCount(m: RawMeal, n: nat)
    requires n <= SlotCount
    ensures |IngredientsUpTo(m, n)| == |KeptSlots(m, n)| <= n
    ensures MainUpTo(m, n) == Names(IngredientsUpTo(m, n))
  {
    if n > 0 {
      IngredientsUpToCount(m, n - 1);
    }
  }

  /** Entry j is the trimmed name and measure of the j-th kept slot. */
  lemma {:induction false} IngredientsUpToEntries(m: RawMeal, n: nat)
    requires n <= SlotCount
    ensures |IngredientsUpTo(m, n)| == |KeptSlots(m, n)|
    ensures forall j :: 0 <= j < |KeptSlots(m, n)| ==>
      (KeptSlots(m, n)[j] < n && KeepsSlot(m.strIngredient[KeptSlots(m, n)[j]]) &&
       IngredientsUpTo(m, n)[j] ==
         SlotEntry(m.strIngredient[KeptSlots(m, n)[j]], m.strMeasure[KeptSlots(m, n)[j]]))
  {
    IngredientsUpToCount(m, n);
    if n > 0 {
      IngredientsUpToEntries(m, n - 1);
      var ks, ks' := KeptSlots(m, n), KeptSlots(m, n - 1);
      var ings, ings' := IngredientsUpTo(m, n), IngredientsUpTo(m, n - 1);
      assert forall j :: 0 <= j < |ks'| ==> ks[j] == ks'[j] && ings[j] == ings'[j];
    }
  }

  /** Kept slots are listed in increasing slot order, and a slot is listed
      exactly when it is kept. */
  lemma {:induction false} KeptSlotsOrdered(m: RawMeal, n: nat)
    requires n <= SlotCount
    ensures forall j :: 0 <= j < |KeptSlots(m, n)| ==> KeptSlots(m, n)[j] < n
    ensures forall j, k :: 0 <= j < k < |KeptSlots(m, n)| ==> KeptSlots(m, n)[j] < KeptSlots(m, n)[k]
    ensures forall k :: 0 <= k < n ==> (KeepsSlot(m.strIngredient[k]) <==> k in KeptSlots(m, n))
  {
    if n > 0 {
      KeptSlotsOrdered(m, n - 1);
    }
  }

  /** The properties `formatRecipe` promises of a non-null meal: at most twenty
      entries, each a non-blank trimmed name with a trimmed measure, and
      `mainIngredients` equal to the list of names. */
  lemma FormattedIngredients(m: RawMeal)
    ensures Formatted(Some(m)).ingredients.Some?
    ensures |Formatted(Some(m)).ingredients.value| <= SlotCount
    ensures forall e :: e in Formatted(Some(m)).ingredients.value ==>
      e.ingredient != "" && Trimmed(e.ingredient) && Trimmed(e.measure)
    ensures Formatted(Some(m)).mainIngredients == Some(Names(Formatted(Some(m)).ingredients.value))
  {
    IngredientsUpToCount(m, SlotCount);
    IngredientsUpToEntries(m, SlotCount);
    var ings := IngredientsUpTo(m, SlotCount);
    var ks := KeptSlots(m, SlotCount);
    forall e | e in ings
      ensures e.ingredient != "" && Trimmed(e.ingredient) && Trimmed(e.measure)
    {
      var j :| 0 <= j < |ings| && ings[j] == e;
      assert e == SlotEntry(m.strIngredient[ks[j]], m.strMeasure[ks[j]]);
    }
  }

  /** A meal whose first n slots are all blank or absent has no ingredients
      from them. */
  lemma {:induction false} NoneKept(m: RawMeal, n: nat)
    requires n <= SlotCount
    requires forall k :: 0 <= k < n ==> !KeepsSlot(m.strIngredient[k])
    ensures IngredientsUpTo(m, n) == [] && MainUpTo(m, n) == []
  {
    if n > 0 {
      NoneKept(m, n - 1);
    }
  }

  // getRecipeById's normaliser

  /** The `{ ingredient, measure }` candidate `getRecipeById` builds for slot
      `i`: kept untrimmed when the name is non-blank. */
  function ByIdSlot(m: RawMeal, i: nat): Option<Ingredient>
    requires i < SlotCount
  {
    if KeepsSlot(m.strIngredient[i])
    then Some(Ingredient(m.strIngredient[i].value, m.strMeasure[i].GetOr("")))
    else None
  }

  function ByIdName(m: RawMeal, i: nat): Option<string>
    requires i < SlotCount
  {
    if KeepsSlot(m.strIngredient[i]) then Some(m.strIngredient[i].value) else None
  }

  /** `Array.from({ length: n }, ...).filter(...)` over ingredient pairs. */
  function ByIdIngredients(m: RawMeal, n: nat): seq<Ingredient>
    requires n <= SlotCount
  {
    Survivors(seq(n, i requires 0 <= i < n => ByIdSlot(m, i)))
  }

  /** The filtered ingredient names before `slice(0, 5)`. */
  function ByIdNames(m: RawMeal, n: nat): seq<string>
    requires n <= SlotCount
  {
    Survivors(seq(n, i requires 0 <= i < n => ByIdName(m, i)))
  }

  /** The number of names `getRecipeById` keeps in `mainIngredients`. */
  const MainIngredientLimit: nat := 5

  /** The recipe `getRecipeById` builds from the first meal of the lookup. */
  function ById(m: RawMeal): Recipe {
    var names := ByIdNames(m, SlotCount);
    Recipe(
      m.idMeal.GetOr(""),
      m.strMeal.GetOr(""),
      m.strCategory,
      m.strArea,
      m.strInstructions,
      m.strMealThumb.GetOr(""),
      m.strTags,
      m.strYoutube,
      Some(if |names| <= MainIngredientLimit then names else names[..MainIngredientLimit]),
      Some(ByIdIngredients(m, SlotCount)))
  }

  /** One more slot adds at most one entry at the end of each filtered list. */
  lemma ByIdStep(m: RawMeal, n: nat)
    requires 0 < n <= SlotCount
    ensures ByIdIngredients(m, n) == ByIdIngredients(m, n - 1) +
      if ByIdSlot(m, n - 1).Some? then [ByIdSlot(m, n - 1).value] else []
    ensures ByIdNames(m, n) == ByIdNames(m, n - 1) +
      if ByIdName(m, n - 1).Some? then [ByIdName(m, n - 1).value] else []
  {
    var xs := seq(n, i requires 0 <= i < n => ByIdSlot(m, i));
    var ys := seq(n, i requires 0 <= i < n => ByIdName(m, i));
    assert xs[..n - 1] == seq(n - 1, i requires 0 <= i < n - 1 => ByIdSlot(m, i));
    assert ys[..n - 1] == seq(n - 1, i requires 0 <= i < n - 1 => ByIdName(m, i));
  }

  /** `a`, built by `getRecipeById`, is `b`, built by `formatRecipe`, but for trimming. */
  predicate AgreesUpToTrim(a: Ingredient, b: Ingredient) {
    Trim(a.ingredient) == b.ingredient && Trim(a.measure) == b.measure
  }

  /** On a single kept slot the two normalisers agree up to trimming. */
  lemma SlotAgrees(m: RawMeal, k: nat)
    requires k < SlotCount && KeepsSlot(m.strIngredient[k])
    ensures AgreesUpToTrim(ByIdSlot(m, k).value, SlotEntry(m.strIngredient[k], m.strMeasure[k]))
  {
    var meas := m.strMeasure[k];
    assert Trim(meas.GetOr("")) == if Truthy(meas) then Trim(meas.value) else "";
  }

  /** The two lists agree entry by entry up to trimming. */
  predicate AllAgreeUpToTrim(xs: seq<Ingredient>, ys: seq<Ingredient>) {
    |xs| == |ys| && forall j :: 0 <= j < |xs| ==> AgreesUpToTrim(xs[j], ys[j])
  }

  lemma AllAgreeSnoc(xs: seq<Ingredient>, ys: seq<Ingredient>, a: Ingredient, b: Ingredient)
    requires AllAgreeUpToTrim(xs, ys) && AgreesUpToTrim(a, b)
    ensures AllAgreeUpToTrim(xs + [a], ys + [b])
  {
    assert forall j :: 0 <= j < |xs| ==> (xs + [a])[j] == xs[j] && (ys + [b])[j] == ys[j];
  }

  /** The two normalisers keep the same slots in the same order; `formatRecipe`
      trims name and measure where `getRecipeById` keeps them xs they are. */
  lemma {:induction false} ByIdMatchesFormatted(m: RawMeal, n: nat)
    requires n <= SlotCount
    ensures AllAgreeUpToTrim(ByIdIngredients(m, n), IngredientsUpTo(m, n))
  {
    if n > 0 {
      ByIdMatchesFormatted(m, n - 1);
      ByIdStep(m, n);
      var a', b' := ByIdIngredients(m, n - 1), IngredientsUpTo(m, n - 1);
      if KeepsSlot(m.strIngredient[n - 1]) {
        SlotAgrees(m, n - 1);
        AllAgreeSnoc(a', b', ByIdSlot(m, n - 1).value, SlotEntry(m.strIngredient[n - 1], m.strMeasure[n - 1]));
      } else {
        assert ByIdIngredients(m, n) == a' && IngredientsUpTo(m, n) == b';
      }
    }
  }

  /** The names `getRecipeById` filters are the names of its ingredient list. */
  lemma {:induction false} ByIdNamesAreNames(m: RawMeal, n: nat)
    requires n <= SlotCount
    ensures ByIdNames(m, n) == Names(ByIdIngredients(m, n))
  {
    if n > 0 {
      ByIdNamesAreNames(m, n - 1);
      ByIdStep(m, n);
    }
  }

  /** `getRecipeById` keeps at most five names, and they are the first names
      of its own ingredient list, untrimmed. */
  lemma ByIdMainIngredients(m: RawMeal)
    ensures ById(m).mainIngredients.Some? && ById(m).ingredients.Some?
    ensures |ById(m).mainIngredients.value| <= MainIngredientLimit
    ensures ById(m).mainIngredients.value <= Names(ById(m).ingredients.value)
    ensures |ById(m).mainIngredients.value| ==
      if |ById(m).ingredients.value| <= MainIngredientLimit then |ById(m).ingredients.value|
      else MainIngredientLimit
  {
    ByIdNamesAreNames(m, SlotCount);
  }

  /** `getRecipeById(id)`: the normalised first meal of the lookup response,
      or null when the request threw, the body did not parse, or it held no
      meal. The response status is not checked. */
  function GetRecipeById(reply: Fetched): (r: Option<Recipe>)
    ensures r.Some? <==> (reply.Response? && reply.json.Some? &&
      reply.json.value.meals.Some? && |reply.json.value.meals.value| > 0)
    ensures r.Some? ==> r.value == ById(reply.json.value.meals.value[0])
  {
    match reply
    case NetworkError => None
    case Response(_, None) => None
    case Response(_, Some(MealsBody(None))) => None
    case Response(_, Some(MealsBody(Some(ms)))) => if |ms| == 0 then None else Some(ById(ms[0]))
  }

  /** The record of the lookup example: slot 1 is "lamb" / "1kg", every other
      slot is empty. */
  function LambMeal(): RawMeal {
    RawMeal(Some("52977"), Some("Lamb"), None, None, None, None, None, None,
      [Some("lamb")] + seq(19, _ => Some("")), [Some("1kg")] + seq(19, _ => Some("")))
  }

  /** Empty slots are left out: the lookup example yields exactly one entry. */
  lemma LambExample()
    ensures ById(LambMeal()).ingredients == Some([Ingredient("lamb", "1kg")])
  {
    var m := LambMeal();
    var xs := seq(SlotCount, i requires 0 <= i < SlotCount => ByIdSlot(m, i));
    var rest := seq(19, _ => None);
    forall k | 1 <= k < SlotCount ensures xs[k] == None {
      assert m.strIngredient[k] == Some("");
      TrimOfTrimmed("");
    }
    var e := Ingredient("lamb", "1kg");
    TrimOfTrimmed("lamb");
    assert xs[0] == Some(e);
    assert xs == [Some(e)] + rest;
    SurvivorsAppend([Some(e)], rest);
    SurvivorsAbsent(rest);
    assert Survivors([Some(e)]) == [e];
    assert Survivors(xs) == [e];
    assert ByIdIngredients(m, SlotCount) == Survivors(xs);
    assert ById(m).ingredients == Some(ByIdIngredients(m, SlotCount));
  }
}
