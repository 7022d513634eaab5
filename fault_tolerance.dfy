/// The MicroProfile Fault Tolerance policy that guards both notification
/// beans: @Retry(maxRetries = n) together with @Fallback(handler). The
/// interceptor invokes the method once and, while the invocation throws,
/// again up to n more times; when the last invocation still throws, the
/// fallback handler runs once with the same arguments and its result (or its
/// exception) is what the caller sees.
module FaultTolerance {
  import opened Doc

  /** What one invocation did: the effects it produced, in order, and how it
      ended (a value, or the exception it threw). */
  datatype Attempt<E, R> = Attempt(effects: seq<E>, outcome: Result<R>)

  /** The effects of `count` consecutive invocations starting at `from`. */
  function Effects<E, R>(attempts: nat -> Attempt<E, R>, from: nat, count: nat): (r: seq<E>)
    ensures count == 1 ==> r == attempts(from).effects
    decreases count
  {
    if count == 0 then [] else attempts(from).effects + Effects(attempts, from + 1, count - 1)
  }

  /** When every invocation has the same single effect, `count` invocations
      produce that effect `count` times. */
  lemma {:induction false} UniformEffects<E, R>(attempts: nat -> Attempt<E, R>, e: E, from: nat, count: nat)
    requires forall k :: attempts(k).effects == [e]
    ensures Effects(attempts, from, count) == seq(count, _ => e)
    decreases count
  {
    if count > 0 {
      UniformEffects(attempts, e, from + 1, count - 1);
      assert [e] + seq(count - 1, _ => e) == seq(count, _ => e);
    }
  }

  /** The retry part: `attempts(k)` is what invocation k (0-based) does;
      invocation `from` is made and, if it throws and retries are left,
      the next one. */
  function Retry<E, R>(attempts: nat -> Attempt<E, R>, from: nat, retriesLeft: nat): (r: Attempt<E, R>)
    decreases retriesLeft
  {
    var a := attempts(from);
    if a.outcome.Ok? || retriesLeft == 0 then a
    else
      var rest := Retry(attempts, from + 1, retriesLeft - 1);
      Attempt(a.effects + rest.effects, rest.outcome)
  }

  /** How many invocations the retry part makes: one more after each that
      throws, while retries are left. */
  function Invocations<E, R>(attempts: nat -> Attempt<E, R>, from: nat, retriesLeft: nat): (n: nat)
    ensures 1 <= n <= retriesLeft + 1
    decreases retriesLeft
  {
    if attempts(from).outcome.Ok? || retriesLeft == 0 then 1
    else 1 + Invocations(attempts, from + 1, retriesLeft - 1)
  }

  /** The retry part produces exactly the effects of the invocations it makes,
      in order. */
  lemma {:induction false} RetryEffects<E, R>(attempts: nat -> Attempt<E, R>, from: nat, retriesLeft: nat)
    ensures Retry(attempts, from, retriesLeft).effects
      == Effects(attempts, from, Invocations(attempts, from, retriesLeft))
    decreases retriesLeft
  {
    if !(attempts(from).outcome.Ok? || retriesLeft == 0) {
      RetryEffects(attempts, from + 1, retriesLeft - 1);
    }
  }

  /** The whole policy: retries first, the fallback once they are used up. */
  function WithFallback<E, R>(maxRetries: nat, attempts: nat -> Attempt<E, R>, fallback: Attempt<E, R>): (r: Attempt<E, R>)
  {
    var retried := Retry(attempts, 0, maxRetries);
    if retried.outcome.Ok? then retried
    else Attempt(retried.effects + fallback.effects, fallback.outcome)
  }

  /** The policy as the interceptor carries it out: an attempt counter, at most
      1 + maxRetries invocations, then exactly one fallback call if every
      invocation threw. */
  method RetryThenFallback<E, R>(maxRetries: nat, attempts: nat -> Attempt<E, R>, fallback: Attempt<E, R>)
    returns (effects: seq<E>, outcome: Result<R>)
    ensures Attempt(effects, outcome) == WithFallback(maxRetries, attempts, fallback)
  {
    var tries: nat := 0;
    var current := attempts(0);
    effects := current.effects;
    ghost var done: seq<E> := [];
    while current.outcome.Fail? && tries < maxRetries
      invariant tries <= maxRetries
      invariant current == attempts(tries)
      invariant effects == done + current.effects
      invariant Retry(attempts, 0, maxRetries)
        == var rest := Retry(attempts, tries, maxRetries - tries);
           Attempt(done + rest.effects, rest.outcome)
      decreases maxRetries - tries
    {
      done := effects;
      tries := tries + 1;
      current := attempts(tries);
      effects := effects + current.effects;
    }
    outcome := current.outcome;
    if outcome.Fail? {
      effects := effects + fallback.effects;
      outcome := fallback.outcome;
    }
  }

  /** When every invocation throws, all 1 + retriesLeft of them are made, one
      after the other, and the last one's exception is the outcome. */
  lemma {:induction false} RetryAllFail<E, R>(attempts: nat -> Attempt<E, R>, from: nat, retriesLeft: nat)
    requires forall k :: from <= k <= from + retriesLeft ==> attempts(k).outcome.Fail?
    ensures Retry(attempts, from, retriesLeft)
      == Attempt(Effects(attempts, from, retriesLeft + 1), attempts(from + retriesLeft).outcome)
    decreases retriesLeft
  {
    if retriesLeft > 0 {
      RetryAllFail(attempts, from + 1, retriesLeft - 1);
    }
  }

  /** When invocation k is the first that returns, invocations from..k are made
      and nothing after; k's value is the outcome. */
  lemma {:induction false} RetryStopsAtSuccess<E, R>(attempts: nat -> Attempt<E, R>, from: nat, retriesLeft: nat, k: nat)
    requires from <= k <= from + retriesLeft
    requires forall j :: from <= j < k ==> attempts(j).outcome.Fail?
    requires attempts(k).outcome.Ok?
    ensures Retry(attempts, from, retriesLeft)
      == Attempt(Effects(attempts, from, k - from + 1), attempts(k).outcome)
    decreases retriesLeft
  {
    if from < k {
      RetryStopsAtSuccess(attempts, from + 1, retriesLeft - 1, k);
    }
  }

  /** The fallback runs exactly when all 1 + maxRetries invocations threw, and
      then after all of them. */
  lemma FallbackAfterExhaustion<E, R>(maxRetries: nat, attempts: nat -> Attempt<E, R>, fallback: Attempt<E, R>)
    requires forall k :: 0 <= k <= maxRetries ==> attempts(k).outcome.Fail?
    ensures WithFallback(maxRetries, attempts, fallback)
      == Attempt(Effects(attempts, 0, maxRetries + 1) + fallback.effects, fallback.outcome)
  {
    RetryAllFail(attempts, 0, maxRetries);
  }

  /** When an invocation within the budget returns, the fallback does not run. */
  lemma NoFallbackOnSuccess<E, R>(maxRetries: nat, attempts: nat -> Attempt<E, R>, fallback: Attempt<E, R>, k: nat)
    requires k <= maxRetries
    requires forall j :: 0 <= j < k ==> attempts(j).outcome.Fail?
    requires attempts(k).outcome.Ok?
    ensures WithFallback(maxRetries, attempts, fallback)
      == Attempt(Effects(attempts, 0, k + 1), attempts(k).outcome)
  {
    RetryStopsAtSuccess(attempts, 0, maxRetries, k);
  }

  /** The caller sees an exception only when the fallback throws one. */
  lemma FailsOnlyThroughFallback<E, R>(maxRetries: nat, attempts: nat -> Attempt<E, R>, fallback: Attempt<E, R>)
    requires fallback.outcome.Ok?
    ensures WithFallback(maxRetries, attempts, fallback).outcome.Ok?
  {
  }
}
