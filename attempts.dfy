/** Outcomes of the attempts a retry loop makes, attempt `k` counted from 1. */
module Attempts {
  import opened Wrappers

  /** The outcome of one attempt: it threw (with its message) or succeeded. */
  datatype Attempt<T> = Failed(error: string) | Succeeded(value: T)

  /** The earliest attempt in `lo..hi` that succeeded, if any. */
  function FirstSucceeded<T>(outcome: nat -> Attempt<T>, lo: nat, hi: int): (k: Option<nat>)
    ensures k.Some? ==> (lo <= k.value <= hi && outcome(k.value).Succeeded? &&
                         forall j :: lo <= j < k.value ==> outcome(j).Failed?)
    ensures k.None? ==> forall j :: lo <= j <= hi ==> outcome(j).Failed?
    decreases hi - lo
  {
    if hi < lo then None
    else if outcome(lo).Succeeded? then Some(lo)
    else FirstSucceeded(outcome, lo + 1, hi)
  }

  /** How many attempts a loop over `1..retries` that stops at the first
      success makes. */
  function AttemptsMade<T>(outcome: nat -> Attempt<T>, retries: int): (n: nat)
    ensures n <= (if retries >= 1 then retries else 0)
  {
    match FirstSucceeded(outcome, 1, retries)
    case Some(k) => k
    case None => if retries >= 1 then retries as nat else 0
  }
}
