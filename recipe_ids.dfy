/** `fetchWithRetry`, `processInBatches` and `getAllRecipeIds` (lib/api.ts):
    the crawl of every first letter that lists all recipe ids. The outcome of
    each attempt is an oracle; waits are recorded, not performed. */
module RecipeIds {
  import opened Wrappers
  import opened Upstream
  import opened Seqs
  import opened Attempts

  /** What `fetchWithRetry(url, retries)` resolves to when attempt `k`
      (counted from 1) ends as `outcome(k)`: the first successful body;
      `{ meals: [] }` once the last attempt has failed; `undefined` (`None`)
      when `retries` is below 1 and no attempt is made. */
  function RetryData(outcome: nat -> Attempt<MealsBody>, retries: int): Option<MealsBody> {
    match FirstSucceeded(outcome, 1, retries)
    case Some(k) => Some(outcome(k).value)
    case None => if retries >= 1 then Some(EmptyMeals) else None
  }

  /** `fetchWithRetry`. Returns the body, the number of attempts and the
      waits made between them: `1000 * attempt` milliseconds after every
      failed attempt but the last. */
  method FetchWithRetry(outcome: nat -> Attempt<MealsBody>, retries: int)
    returns (data: Option<MealsBody>, calls: nat, delays: seq<nat>)
    ensures data == RetryData(outcome, retries)
    ensures calls == AttemptsMade(outcome, retries)
    ensures |delays| == if calls == 0 then 0 else calls - 1
    ensures forall j :: 0 <= j < |delays| ==> delays[j] == 1000 * (j + 1)
  {
    data, calls, delays := None, 0, [];
    var attempt := 1;
    while attempt <= retries
      invariant 1 <= attempt && calls == attempt - 1
      invariant if retries >= 1 then attempt <= retries else attempt == 1
      invariant forall j :: 1 <= j < attempt ==> outcome(j).Failed?
      invariant FirstSucceeded(outcome, 1, retries) == FirstSucceeded(outcome, attempt, retries)
      invariant |delays| == calls && forall j :: 0 <= j < |delays| ==> delays[j] == 1000 * (j + 1)
      decreases retries - attempt
    {
      calls := calls + 1;
      match outcome(attempt)
      case Succeeded(body) =>
        data := Some(body);
        return;
      case Failed(_) =>
        assert FirstSucceeded(outcome, attempt, retries) == FirstSucceeded(outcome, attempt + 1, retries);
        if attempt == retries {
          data := Some(EmptyMeals);
          return;
        }
        delays := delays + [1000 * attempt];
      attempt := attempt + 1;
    }
  }

  /** With at least one attempt allowed, `fetchWithRetry` never resolves to
      `undefined`; it gives up with `{ meals: [] }` only when every allowed
      attempt failed, and otherwise returns the first successful body. */
  lemma RetryDataCases(outcome: nat -> Attempt<MealsBody>, retries: int)
    requires retries >= 1
    ensures RetryData(outcome, retries).Some?
    ensures (forall j :: 1 <= j <= retries ==> outcome(j).Failed?) ==>
      RetryData(outcome, retries) == Some(EmptyMeals) && AttemptsMade(outcome, retries) == retries
    ensures forall k :: (1 <= k <= retries && outcome(k).Succeeded? &&
                         (forall j :: 1 <= j < k ==> outcome(j).Failed?)) ==>
        RetryData(outcome, retries) == Some(outcome(k).value) && AttemptsMade(outcome, retries) == k
  {
    forall k | 1 <= k <= retries && outcome(k).Succeeded? && (forall j :: 1 <= j < k ==> outcome(j).Failed?)
      ensures FirstSucceeded(outcome, 1, retries) == Some(k)
    {
    }
  }

  function Min(a: int, b: int): int {
    if a <= b then a else b
  }

  /** `processInBatches(items, batchSize, callback)`. Returns the results,
      the batches handed to `Promise.all` and the pauses between batches. A
      `batchSize` below 1 would never advance the loop. */
  method ProcessInBatches<T>(items: seq<string>, batchSize: int, callback: string -> T)
    returns (results: seq<T>, batches: seq<seq<string>>, pauses: seq<nat>)
    requires batchSize > 0
    ensures |results| == |items| && forall i :: 0 <= i < |items| ==> results[i] == callback(items[i])
    ensures Flatten(batches) == items
    ensures forall k :: 0 <= k < |batches| ==> 0 < |batches[k]| <= batchSize
    ensures forall k :: 0 <= k < |batches| - 1 ==> |batches[k]| == batchSize
    ensures |pauses| == (if batches == [] then 0 else |batches| - 1)
    ensures forall k :: 0 <= k < |pauses| ==> pauses[k] == 1000
  {
    results, batches, pauses := [], [], [];
    var i := 0;
    while i < |items|
      invariant 0 <= i && |results| == Min(i, |items|)
      invariant forall j :: 0 <= j < |results| ==> results[j] == callback(items[j])
      invariant Flatten(batches) == items[..Min(i, |items|)]
      invariant forall k :: 0 <= k < |batches| ==> 0 < |batches[k]| <= batchSize
      invariant forall k :: 0 <= k < |batches| - 1 ==> |batches[k]| == batchSize
      invariant i < |items| ==> forall k :: 0 <= k < |batches| ==> |batches[k]| == batchSize
      invariant batches == [] ==> i == 0
      invariant |pauses| == |batches| - (if i >= |items| && batches != [] then 1 else 0)
      invariant forall k :: 0 <= k < |pauses| ==> pauses[k] == 1000
      decreases |items| - i
    {
      var batch := items[i..Min(i + batchSize, |items|)];
      var batchResults := seq(|batch|, j requires 0 <= j < |batch| => callback(batch[j]));
      results := results + batchResults;
      FlattenSnoc(batches, batch);
      assert items[..i] + batch == items[..Min(i + batchSize, |items|)];
      batches := batches + [batch];
      if i + batchSize < |items| {
        pauses := pauses + [1000];
      }
      i := i + batchSize;
    }
  }

  /** The first letters crawled, one search each. */
  const Letters: seq<string> := ["a", "b", "c", "d", "e", "f", "g", "h", "i", "j", "k", "l", "m",
                                 "n", "o", "p", "q", "r", "s", "t", "u", "v", "w", "x", "y", "z"]

  /** Letters handled per batch, and attempts per letter. */
  const LetterBatchSize: nat := 5
  const LetterRetries: nat := 3

  /** The ids one letter's search yields: `meal.idMeal` of every listed meal
      (an absent id stays `undefined`, here `None`), or `[]` without `meals`.
      `network(letter, k)` is the outcome of attempt `k` for that letter. */
  function LetterIds(network: (string, nat) -> Attempt<MealsBody>, letter: string): seq<Option<string>> {
    match RetryData((k: nat) => network(letter, k), LetterRetries)
    case Some(MealsBody(Some(ms))) => seq(|ms|, i requires 0 <= i < |ms| => ms[i].idMeal)
    case _ => []
  }

  /** `getAllRecipeIds()`: the ids of all letters, flattened and
      deduplicated in order of first occurrence. */
  method GetAllRecipeIds(network: (string, nat) -> Attempt<MealsBody>)
    returns (ids: seq<Option<string>>, pauses: seq<nat>)
    ensures ids == DedupBy(Flatten(seq(|Letters|, i requires 0 <= i < |Letters| => LetterIds(network, Letters[i]))), Identity)
    ensures |pauses| == 5 && forall k :: 0 <= k < |pauses| ==> pauses[k] == 1000
  {
    var perLetter, batches;
    perLetter, batches, pauses := ProcessInBatches(Letters, LetterBatchSize, l => LetterIds(network, l));
    assert perLetter == seq(|Letters|, i requires 0 <= i < |Letters| => LetterIds(network, Letters[i]));
    BatchCount(batches, |Letters|, LetterBatchSize);
    ids := DedupBy(Flatten(perLetter), Identity);
  }

  /** Batches that are full but for the last one, and cover `n` items,
      number exactly `ceil(n / size)`: stated without division. */
  lemma {:induction false} BatchCount(batches: seq<seq<string>>, n: nat, size: nat)
    requires size > 0 && |Flatten(batches)| == n
    requires forall k :: 0 <= k < |batches| ==> 0 < |batches[k]| <= size
    requires forall k :: 0 <= k < |batches| - 1 ==> |batches[k]| == size
    ensures n == 0 <==> batches == []
    ensures batches != [] ==> (|batches| - 1) * size < n <= |batches| * size
  {
    if batches != [] {
      var init := batches[..|batches| - 1];
      var last := batches[|batches| - 1];
      assert Flatten(batches) == Flatten(init) + last;
      assert forall k :: 0 <= k < |init| ==> init[k] == batches[k];
      FullBatches(init, size);
      assert n == |init| * size + |last|;
      assert |batches| * size == |init| * size + size;
    }
  }

  /** Full batches flatten to `size` items each. */
  lemma {:induction false} FullBatches(batches: seq<seq<string>>, size: nat)
    requires forall k :: 0 <= k < |batches| ==> |batches[k]| == size
    ensures |Flatten(batches)| == |batches| * size
    decreases |batches|
  {
    if batches != [] {
      var init := batches[..|batches| - 1];
      assert forall k :: 0 <= k < |init| ==> init[k] == batches[k];
      FullBatches(init, size);
      assert |batches| * size == |init| * size + size;
    }
  }

  /** The crawl's result holds no id twice, and holds exactly the ids some
      letter's search listed. */
  lemma AllIdsDistinctAndComplete(network: (string, nat) -> Attempt<MealsBody>, id: Option<string>)
    ensures var all := Flatten(seq(|Letters|, i requires 0 <= i < |Letters| => LetterIds(network, Letters[i])));
      var ids := DedupBy(all, Identity);
      (forall i, j :: 0 <= i < j < |ids| ==> ids[i] != ids[j]) &&
      (id in ids <==> exists i :: 0 <= i < |Letters| && id in LetterIds(network, Letters[i]))
  {
    var per := seq(|Letters|, i requires 0 <= i < |Letters| => LetterIds(network, Letters[i]));
    var all := Flatten(per);
    DedupByDistinct(all, Identity);
    KeysOfIdentity(DedupBy(all, Identity), id);
    KeysOfIdentity(all, id);
    FlattenMember(per, id);
    assert forall i :: 0 <= i < |Letters| ==> per[i] == LetterIds(network, Letters[i]);
  }

  /** With three attempts per letter every letter's data is defined, so the
      crawl never reads `meals` of `undefined`. */
  lemma LetterDataDefined(network: (string, nat) -> Attempt<MealsBody>, letter: string)
    ensures RetryData((k: nat) => network(letter, k), LetterRetries).Some?
  {
    RetryDataCases((k: nat) => network(letter, k), LetterRetries);
  }
}
