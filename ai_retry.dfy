/** `fetchWithRetry` of the Groq gateway (lib/ai.ts): up to `retries`
    attempts with exponential waits; the last error is rethrown. */
module AiRetry {
  import opened Wrappers
  import opened Attempts

  /** What a successful response yields once `response.json()` has been read:
      `data.choices?.[0]?.message?.content` when it is a string, `None` when
      parsing threw or there is no string content. */
  datatype Completion = Completion(content: Option<string>)

  const MaxRetriesMessage: string := "Max retries reached"

  function Pow2(n: nat): (p: nat)
    ensures p >= 1
  {
    if n == 0 then 1 else 2 * Pow2(n - 1)
  }

  /** What `fetchWithRetry(url, options, retries)` settles to: the first OK
      response; else the error of the last attempt; with no attempt at all,
      "Max retries reached". */
  function RetryResult(outcome: nat -> Attempt<Completion>, retries: int): Result<Completion> {
    match FirstSucceeded(outcome, 1, retries)
    case Some(k) => Ok(outcome(k).value)
    case None => if retries >= 1 then Err(outcome(retries).error) else Err(MaxRetriesMessage)
  }

  /** `fetchWithRetry`. Returns the settled result, the attempts made and the
      waits: `baseDelay * 2^(attempt - 1)` after every failed attempt but the
      last. */
  method FetchWithRetry(outcome: nat -> Attempt<Completion>, retries: int, baseDelay: nat)
    returns (r: Result<Completion>, calls: nat, delays: seq<nat>)
    ensures r == RetryResult(outcome, retries)
    ensures calls == AttemptsMade(outcome, retries)
    ensures |delays| == if calls == 0 then 0 else calls - 1
    ensures forall j :: 0 <= j < |delays| ==> delays[j] == baseDelay * Pow2(j)
  {
    calls, delays := 0, [];
    var attempt := 1;
    while attempt <= retries
      invariant 1 <= attempt && calls == attempt - 1
      invariant if retries >= 1 then attempt <= retries else attempt == 1
      invariant forall j :: 1 <= j < attempt ==> outcome(j).Failed?
      invariant FirstSucceeded(outcome, 1, retries) == FirstSucceeded(outcome, attempt, retries)
      invariant |delays| == calls && forall j :: 0 <= j < |delays| ==> delays[j] == baseDelay * Pow2(j)
      decreases retries - attempt
    {
      calls := calls + 1;
      match outcome(attempt)
      case Succeeded(response) =>
        return Ok(response), calls, delays;
      case Failed(error) =>
        assert FirstSucceeded(outcome, attempt, retries) == FirstSucceeded(outcome, attempt + 1, retries);
        if attempt == retries {
          return Err(error), calls, delays;
        }
        delays := delays + [baseDelay * Pow2(attempt - 1)];
      attempt := attempt + 1;
    }
    r := Err(MaxRetriesMessage);
  }

  /** The result is an error exactly when every allowed attempt failed, and
      then it carries the last attempt's error; an OK result is the first
      successful attempt's. */
  lemma RetryResultCases(outcome: nat -> Attempt<Completion>, retries: int)
    requires retries >= 1
    ensures RetryResult(outcome, retries).Err? <==> forall j :: 1 <= j <= retries ==> outcome(j).Failed?
    ensures RetryResult(outcome, retries).Err? ==>
      RetryResult(outcome, retries).error == outcome(retries).error
    ensures RetryResult(outcome, retries).Ok? ==>
      exists k :: (1 <= k <= retries &&
                   outcome(k) == Succeeded(RetryResult(outcome, retries).value) &&
                   forall j :: 1 <= j < k ==> outcome(j).Failed?)
  {
    var f := FirstSucceeded(outcome, 1, retries);
    if f.Some? {
      assert outcome(f.value).Succeeded?;
    }
  }

  /** The total wait before the last attempt is `baseDelay * (2^(n-1) - 1)`
      for `n` attempts: the delays double each time. */
  lemma {:induction false} DelaysDouble(baseDelay: nat, n: nat)
    ensures Sum(seq(n, j requires 0 <= j < n => baseDelay * Pow2(j))) == baseDelay * (Pow2(n) - 1)
  {
    if n > 0 {
      var s := seq(n, j requires 0 <= j < n => baseDelay * Pow2(j));
      var t := seq(n - 1, j requires 0 <= j < n - 1 => baseDelay * Pow2(j));
      assert s[..n - 1] == t;
      DelaysDouble(baseDelay, n - 1);
      assert Sum(s) == Sum(t) + baseDelay * Pow2(n - 1);
      assert baseDelay * (Pow2(n - 1) - 1) + baseDelay * Pow2(n - 1) == baseDelay * (2 * Pow2(n - 1) - 1);
    }
  }

  function Sum(s: seq<nat>): nat {
    if s == [] then 0 else Sum(s[..|s| - 1]) + s[|s| - 1]
  }
}
