/** `withBackoff`, which `lib/openrouter.ts` and `lib/gemini.ts` each define
    the same way: up to three tries of an action that may throw, waiting
    500, 1000 and 2000 ms after the failures (the waits are left out). */
module Retry {

  /** How one try ends: with a value, or with the error it threw. */
  datatype Attempt<T> = Succeeded(value: T) | Threw(error: string)

  /** `delays.length` */
  const MaxAttempts := 3

  /** What `withBackoff` settles on, stated over the tries alone. */
  function Settled<T>(fn: nat -> Attempt<T>): Attempt<T>
  {
    if fn(0).Succeeded? then fn(0) else if fn(1).Succeeded? then fn(1) else fn(2)
  }

  /** `withBackoff(fn)`: `fn(i)` is how the try numbered i (from 0) ends.
      The first success is returned; after three failures the last error
      is thrown again. */
  method WithBackoff<T>(fn: nat -> Attempt<T>) returns (r: Attempt<T>, attempts: nat)
    ensures 1 <= attempts <= MaxAttempts
    ensures forall i :: 0 <= i < attempts - 1 ==> fn(i).Threw?
    ensures r.Succeeded? ==> r == fn(attempts - 1)
    ensures r.Threw? ==> attempts == MaxAttempts && r == fn(MaxAttempts - 1)
    ensures r == Settled(fn)
  {
    var lastError := "";
    var i := 0;
    while i < MaxAttempts
      invariant 0 <= i <= MaxAttempts
      invariant forall j :: 0 <= j < i ==> fn(j).Threw?
      invariant i > 0 ==> fn(i - 1) == Threw(lastError)
    {
      var outcome := fn(i);
      if outcome.Succeeded? {
        return outcome, i + 1;
      }
      lastError := outcome.error;
      i := i + 1;
    }
    return Threw(lastError), MaxAttempts;
  }

  /** An action that succeeds at once is tried once; one that always
      throws is tried three times and its third error is the one seen. */
  method BackoffExtremes(value: string, errors: nat -> string)
    returns (first: Attempt<string>, firstTries: nat, failing: Attempt<string>, failingTries: nat)
    ensures first == Succeeded(value) && firstTries == 1
    ensures failing == Threw(errors(2)) && failingTries == 3
  {
    first, firstTries := WithBackoff((i: nat) => Succeeded(value));
    failing, failingTries := WithBackoff((i: nat) => Threw(errors(i)));
  }
}
