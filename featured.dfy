/** `getFeaturedRecipes` and `getRandomRecipe` (lib/api.ts): up to six
    distinct recipes from three random draws, then one random pick per
    category. Network replies and `Math.random` are oracles. */
module Featured {
  import opened Wrappers
  import opened Types
  import opened Upstream
  import opened Seqs
  import opened RecipeFormat

  /** A value of `Math.random()`. */
  type Draw = r: real | 0.0 <= r < 1.0

  /** How many recipes the home page wants. */
  const FeaturedCount: nat := 6

  /** How many `random.php` calls are made at most. */
  const RandomAttempts: nat := 3

  /** The categories tried, in order, once the random draws fall short. */
  const FeaturedCategories: seq<string> := ["Beef", "Chicken", "Dessert", "Pasta", "Seafood", "Vegetarian"]

  /** How many categories there are. */
  const CategoryCount: nat := 6

  /** Recipes are told apart by `idMeal`. */
  function RecipeId(r: Recipe): string {
    r.idMeal
  }

  /** `getRandomRecipe()`: the formatted first meal of a successful random
      reply, or null. */
  function GetRandomRecipe(reply: Fetched): (r: Option<Recipe>)
    ensures r.Some? <==> FirstMeal(reply).Some?
    ensures r.Some? ==> (r.value.strMeal != "" && r.value.ingredients.Some? &&
                         r.value == Formatted(FirstMeal(reply)))
  {
    match FirstMeal(reply)
    case None => None
    case Some(m) => Some(Formatted(Some(m)))
  }

  /** `Math.floor(Math.random() * data.meals.length)`. */
  function PickIndex(d: Draw, n: nat): int {
    (d * (n as real)).Floor
  }

  /** The random pick always lands inside a non-empty list; for an empty
      list it is 0, which reads `undefined`. */
  lemma {:induction false} PickIndexInRange(d: Draw, n: nat)
    ensures n > 0 ==> 0 <= PickIndex(d, n) < n
    ensures n == 0 ==> PickIndex(d, n) == 0
  {
    var x := d * (n as real);
    assert 0.0 <= x;
    if n > 0 {
      assert (n as real) - x == (n as real) * (1.0 - d);
      assert (n as real) * (1.0 - d) > 0.0;
    }
  }

  /** What one category contributes: the listing is fetched, one listed meal
      is picked by the draw, and its detail lookup is formatted. Any failure
      on the way (thrown fetch, non-OK status, unparsable body, no `meals`,
      an empty list, no detail meal) contributes nothing. */
  function CategoryCandidate(listing: Fetched, d: Draw, detail: string -> Fetched): Option<Recipe> {
    match listing
    case Response(true, Some(MealsBody(Some(ms)))) =>
      var i := PickIndex(d, |ms|);
      if 0 <= i < |ms| then GetRandomRecipe(detail(StubId(ms[i]))) else None
    case _ => None
  }

  /** The candidate of the `k`-th category. */
  function CategoryAt(listings: string -> Fetched, draws: nat -> Draw, detail: string -> Fetched, k: nat): Option<Recipe>
    requires k < |FeaturedCategories|
  {
    CategoryCandidate(listings(FeaturedCategories[k]), draws(k), detail)
  }

  /** Every candidate in the order the source tries them: the three random
      draws, then one per category. `random(k)` answers random call `k`,
      `listings(c)` the listing of category `c`, `draws(k)` the draw for
      category `k`, `detail(id)` the lookup of `id`. */
  function Candidates(random: nat -> Fetched, listings: string -> Fetched, draws: nat -> Draw,
                      detail: string -> Fetched): (c: seq<Option<Recipe>>)
    ensures |c| == RandomAttempts + |FeaturedCategories|
    ensures forall k :: 0 <= k < RandomAttempts ==> c[k] == GetRandomRecipe(random(k))
    ensures forall k :: 0 <= k < |FeaturedCategories| ==> c[RandomAttempts + k] == CategoryAt(listings, draws, detail, k)
  {
    seq(RandomAttempts, k requires 0 <= k => GetRandomRecipe(random(k))) +
    seq(|FeaturedCategories|, k requires 0 <= k < |FeaturedCategories| => CategoryAt(listings, draws, detail, k))
  }

  /** The recipes collected from the first `n` candidates: the present ones,
      keeping the first of each `idMeal`. */
  function CollectedFrom(cands: seq<Option<Recipe>>, n: nat): seq<Recipe>
    requires n <= |cands|
  {
    DedupBy(Survivors(cands[..n]), RecipeId)
  }

  /** Taking one more candidate appends it exactly when it is present and its
      id has not been collected yet. */
  lemma CollectStep(cands: seq<Option<Recipe>>, n: nat)
    requires n < |cands|
    ensures var before := CollectedFrom(cands, n);
      CollectedFrom(cands, n + 1) ==
        if cands[n].Some? && cands[n].value.idMeal !in KeysOf(before, RecipeId)
        then before + [cands[n].value] else before
  {
    assert cands[..n + 1][..n] == cands[..n];
    var s := Survivors(cands[..n]);
    if cands[n].Some? {
      assert Survivors(cands[..n + 1]) == s + [cands[n].value];
      assert (s + [cands[n].value])[..|s|] == s;
    } else {
      assert Survivors(cands[..n + 1]) == s;
    }
  }

  /** One candidate handled as both loops do: pushed, and its id recorded,
      when it is present and its id is unseen. */
  method Admit(ghost cands: seq<Option<Recipe>>, ghost n: nat, recipes: seq<Recipe>, seenIds: set<string>, c: Option<Recipe>)
    returns (recipes': seq<Recipe>, seenIds': set<string>)
    requires n < |cands| && c == cands[n]
    requires recipes == CollectedFrom(cands, n) && seenIds == KeysOf(recipes, RecipeId)
    ensures recipes' == CollectedFrom(cands, n + 1) && seenIds' == KeysOf(recipes', RecipeId)
    ensures |recipes'| <= |recipes| + 1
  {
    CollectStep(cands, n);
    recipes', seenIds' := recipes, seenIds;
    if c.Some? && c.value.idMeal !in seenIds {
      KeysOfSnoc(recipes, c.value, RecipeId);
      recipes' := recipes + [c.value];
      seenIds' := seenIds + {c.value.idMeal};
    }
  }

  /** The first loop: `random.php` until six recipes or three attempts,
      which with at most one recipe per attempt is always three attempts. */
  method RandomPhase(ghost cands: seq<Option<Recipe>>, random: nat -> Fetched)
    returns (recipes: seq<Recipe>, seenIds: set<string>, attempts: nat)
    requires |cands| >= RandomAttempts
    requires forall k :: 0 <= k < RandomAttempts ==> cands[k] == GetRandomRecipe(random(k))
    ensures attempts == RandomAttempts
    ensures recipes == CollectedFrom(cands, attempts) && seenIds == KeysOf(recipes, RecipeId)
    ensures |recipes| <= attempts
  {
    recipes := [];
    seenIds := {};
    attempts := 0;
    while |recipes| < FeaturedCount && attempts < RandomAttempts
      invariant 0 <= attempts <= RandomAttempts
      invariant recipes == CollectedFrom(cands, attempts)
      invariant |recipes| <= attempts
      invariant seenIds == KeysOf(recipes, RecipeId)
      decreases RandomAttempts - attempts
    {
      var c := GetRandomRecipe(random(attempts));
      recipes, seenIds := Admit(cands, attempts, recipes, seenIds, c);
      attempts := attempts + 1;
    }
  }

  /** How many categories the second loop lists, counting on from the
      `ci`-th: it stops at the first category after which six recipes are
      held, or when the categories run out. */
  function ListedFrom(cands: seq<Option<Recipe>>, ci: nat): (r: nat)
    requires |cands| == RandomAttempts + CategoryCount && ci <= CategoryCount
    ensures ci <= r <= CategoryCount
    decreases CategoryCount - ci
  {
    if ci == CategoryCount || |CollectedFrom(cands, RandomAttempts + ci)| >= FeaturedCount then ci
    else ListedFrom(cands, ci + 1)
  }

  /** The second loop: one category after another, in order, until six
      recipes are held. Returns how many categories were listed. */
  method CategoryPhase(ghost cands: seq<Option<Recipe>>, listings: string -> Fetched, draws: nat -> Draw,
                       detail: string -> Fetched, recipes0: seq<Recipe>, seenIds0: set<string>)
    returns (recipes: seq<Recipe>, seenIds: set<string>, listed: nat)
    requires |cands| == RandomAttempts + |FeaturedCategories|
    requires forall k :: 0 <= k < |FeaturedCategories| ==> cands[RandomAttempts + k] == CategoryAt(listings, draws, detail, k)
    requires recipes0 == CollectedFrom(cands, RandomAttempts) && seenIds0 == KeysOf(recipes0, RecipeId)
    requires |recipes0| < FeaturedCount
    ensures listed == ListedFrom(cands, 0)
    ensures recipes == CollectedFrom(cands, RandomAttempts + listed)
    ensures |recipes| <= FeaturedCount
  {
    recipes, seenIds := recipes0, seenIds0;
    var ci := 0;
    while ci < |FeaturedCategories| && |recipes| < FeaturedCount
      invariant 0 <= ci <= |FeaturedCategories|
      invariant recipes == CollectedFrom(cands, RandomAttempts + ci)
      invariant |recipes| <= FeaturedCount
      invariant seenIds == KeysOf(recipes, RecipeId)
      invariant ListedFrom(cands, ci) == ListedFrom(cands, 0)
      decreases |FeaturedCategories| - ci
    {
      var category := FeaturedCategories[ci];
      var c := CategoryCandidate(listings(category), draws(ci), detail);
      assert c == CategoryAt(listings, draws, detail, ci) == cands[RandomAttempts + ci];
      recipes, seenIds := Admit(cands, RandomAttempts + ci, recipes, seenIds, c);
      ci := ci + 1;
    }
    listed := ci;
  }

  /** `getFeaturedRecipes()`. Returns the recipes, how many random calls
      were made, and how many categories were listed (always the first
      `listed` of them, in order, as `ListedFrom` counts them). */
  method GetFeaturedRecipes(random: nat -> Fetched, listings: string -> Fetched, draws: nat -> Draw,
                            detail: string -> Fetched)
    returns (recipes: seq<Recipe>, randomCalls: nat, listed: nat)
    ensures randomCalls == RandomAttempts
    ensures listed == ListedFrom(Candidates(random, listings, draws, detail), 0)
    ensures recipes == CollectedFrom(Candidates(random, listings, draws, detail), randomCalls + listed)
    ensures |recipes| <= FeaturedCount
  {
    ghost var cands := Candidates(random, listings, draws, detail);
    var seenIds;
    recipes, seenIds, randomCalls := RandomPhase(cands, random);
    listed := 0;
    if |recipes| < FeaturedCount {
      recipes, seenIds, listed := CategoryPhase(cands, listings, draws, detail, recipes, seenIds);
    }
  }

  /** The second loop stops early only with six recipes in hand, and every
      category it lists was listed while fewer than six were held. */
  lemma {:induction false} ListedFromSpec(cands: seq<Option<Recipe>>, ci: nat)
    requires |cands| == RandomAttempts + CategoryCount && ci <= CategoryCount
    ensures ListedFrom(cands, ci) < CategoryCount ==>
      |CollectedFrom(cands, RandomAttempts + ListedFrom(cands, ci))| >= FeaturedCount
    decreases CategoryCount - ci
  {
    if ci < CategoryCount && |CollectedFrom(cands, RandomAttempts + ci)| < FeaturedCount {
      ListedFromSpec(cands, ci + 1);
    }
  }

  /** Every category the second loop lists was listed while fewer than six
      recipes were held. */
  lemma {:induction false} ListedWhileShort(cands: seq<Option<Recipe>>, ci: nat, k: nat)
    requires |cands| == RandomAttempts + CategoryCount && ci <= CategoryCount
    requires ci <= k < ListedFrom(cands, ci)
    ensures |CollectedFrom(cands, RandomAttempts + k)| < FeaturedCount
    decreases CategoryCount - ci
  {
    if k > ci {
      ListedWhileShort(cands, ci + 1, k);
    }
  }

  /** The collected recipes carry pairwise distinct ids, and each is a
      present candidate: the first one with its id. */
  lemma {:induction false} CollectedDistinct(cands: seq<Option<Recipe>>, n: nat)
    requires n <= |cands|
    ensures forall i, j :: 0 <= i < j < |CollectedFrom(cands, n)| ==>
      CollectedFrom(cands, n)[i].idMeal != CollectedFrom(cands, n)[j].idMeal
    ensures forall r :: r in CollectedFrom(cands, n) ==> Some(r) in cands[..n]
  {
    var s := Survivors(cands[..n]);
    DedupByDistinct(s, RecipeId);
    DedupByFirstOccurrence(s, RecipeId);
    forall r | r in CollectedFrom(cands, n) ensures Some(r) in cands[..n] {
      var i :| 0 <= i < |CollectedFrom(cands, n)| && CollectedFrom(cands, n)[i] == r;
      SurvivorsMember(cands[..n], r);
    }
  }

  /** Nothing present is lost: every present candidate among the first `n`
      has its id among the collected recipes. */
  lemma {:induction false} CollectedCovers(cands: seq<Option<Recipe>>, n: nat, k: nat)
    requires k < n <= |cands| && cands[k].Some?
    ensures cands[k].value.idMeal in KeysOf(CollectedFrom(cands, n), RecipeId)
  {
    var r := cands[k].value;
    assert cands[..n][k] == Some(r);
    SurvivorsMember(cands[..n], r);
    var s := Survivors(cands[..n]);
    var i :| 0 <= i < |s| && s[i] == r;
    assert RecipeId(s[i]) in KeysOf(s, RecipeId);
  }

  /** The six-recipe limit is only reached through the categories: three
      random draws give at most three recipes, so the category phase always
      runs. */
  lemma {:induction false} RandomPhaseFallsShort(cands: seq<Option<Recipe>>)
    requires |cands| >= RandomAttempts
    ensures |CollectedFrom(cands, RandomAttempts)| <= RandomAttempts < FeaturedCount
  {
  }
}
