/** Bounded retry with exponential backoff and jitter. */
module Retry {
  import opened Options

  /** A thrown error: already classified (and how), its HTTP status (0 if none) and its error code. */
  datatype RawError = RawError(classified: Option<bool>, status: int, code: string)

  datatype ClassifiedError = ClassifiedError(retryable: bool, cause: RawError)

  const TRANSIENT_CODES: set<string> := {"ECONNRESET", "ETIMEDOUT", "ECONNREFUSED", "EAI_AGAIN"}

  function Classify(e: RawError): ClassifiedError {
    if e.classified.Some? then ClassifiedError(e.classified.value, e)
    else if e.status != 0 && 400 <= e.status < 500 && e.status != 429 then ClassifiedError(false, e)
    else if e.code in TRANSIENT_CODES then ClassifiedError(true, e)
    else if e.status == 429 || (e.status != 0 && e.status >= 500) then ClassifiedError(true, e)
    else ClassifiedError(true, e)
  }

  /** An unclassified error is permanent exactly when it is a client error other than 429; the code never matters. */
  lemma PermanentIffClientError(e: RawError)
    ensures Classify(e).cause == e
    ensures e.classified.Some? ==> Classify(e).retryable == e.classified.value
    ensures e.classified.None? ==> (!Classify(e).retryable <==> 400 <= e.status < 500 && e.status != 429)
  {
  }

  datatype Outcome<T> = Success(value: T) | Failure(error: RawError)

  datatype Result<T> = Returned(value: T) | Threw(error: ClassifiedError) | ThrewUndefined

  function Pow2(k: nat): real {
    if k == 0 then 1.0 else 2.0 * Pow2(k - 1)
  }

  function Min(a: real, b: real): real {
    if a < b then a else b
  }

  /** All the waiting that n attempts can do. */
  ghost function DelayBound(n: nat, base: real, cap: real): real
    requires n >= 1
  {
    1.2 * Min(base * (Pow2(n - 1) - 1.0), (n - 1) as real * cap)
  }

  // The same sums added up term by term, as the loop does.

  function Uncapped(base: real, k: nat): real {
    if k == 0 then base else 2.0 * Uncapped(base, k - 1)
  }

  function UncappedSum(base: real, k: nat): real {
    if k == 0 then 0.0 else UncappedSum(base, k - 1) + Uncapped(base, k - 1)
  }

  function Times(k: nat, c: real): real {
    if k == 0 then 0.0 else Times(k - 1, c) + c
  }

  lemma {:induction false} ClosedForms(base: real, c: real, k: nat)
    ensures Uncapped(base, k) == base * Pow2(k)
    ensures UncappedSum(base, k) == base * (Pow2(k) - 1.0)
    ensures Times(k, c) == k as real * c
  {
    if k > 0 {
      ClosedForms(base, c, k - 1);
      assert Pow2(k) - 1.0 == (Pow2(k - 1) - 1.0) + Pow2(k - 1);
      assert k as real == (k - 1) as real + 1.0;
    }
  }

  lemma {:induction false} SumsGrow(base: real, c: real, m: nat, n: nat)
    requires 0.0 <= base && 0.0 <= c && m <= n
    ensures 0.0 <= Uncapped(base, m)
    ensures 0.0 <= UncappedSum(base, m) <= UncappedSum(base, n)
    ensures 0.0 <= Times(m, c) <= Times(n, c)
    decreases n
  {
    if m < n {
      SumsGrow(base, c, m, n - 1);
      SumsGrow(base, c, n - 1, n - 1);
    } else if m > 0 {
      SumsGrow(base, c, m - 1, n - 1);
    }
  }

  /** The pause after one failed attempt: the backoff plus up to a fifth of jitter. */
  function Wait(backoff: real, jitter: real): real {
    backoff + jitter * backoff * 0.2
  }

  lemma NonNegative(a: real, b: real)
    requires 0.0 <= a && 0.0 <= b
    ensures 0.0 <= a * b
  {
  }

  lemma WaitBound(backoff: real, jitter: real)
    requires 0.0 <= jitter < 1.0 && 0.0 <= backoff
    ensures 0.0 <= Wait(backoff, jitter) <= 1.2 * backoff
  {
    NonNegative(jitter, backoff);
    NonNegative(1.0 - jitter, backoff);
    assert (1.0 - jitter) * backoff == backoff - jitter * backoff;
  }

  /** The call makes the last of `calls` attempts and nothing after it decides the result. */
  ghost predicate Decided<T(!new)>(fn: nat -> Outcome<T>, maxAttempts: int, calls: nat, result: Result<T>) {
    if maxAttempts < 1 then calls == 0 && result == ThrewUndefined
    else
      1 <= calls <= maxAttempts
      && (forall k :: 1 <= k < calls ==> fn(k).Failure? && Classify(fn(k).error).retryable)
      && match fn(calls)
         case Success(v) => result == Returned(v)
         case Failure(e) => result == Threw(Classify(e)) && (Classify(e).retryable ==> calls == maxAttempts)
  }

  /** Attempts made, time spent pausing between them, and time spent in them. */
  datatype Spent = Spent(calls: nat, delay: real, busy: real)

  /** What the attempts from the k-th on spend: `cost(k)` is how long the k-th takes, `jitter` are the random draws. */
  function Spend<T>(
    fn: nat -> Outcome<T>, cost: nat -> real, jitter: nat -> real, maxAttempts: int, base: real, cap: real,
    k: nat): Spent
    requires k >= 1
    decreases maxAttempts - k
  {
    if k > maxAttempts then Spent(0, 0.0, 0.0)
    else if fn(k).Success? || !Classify(fn(k).error).retryable || k >= maxAttempts then Spent(1, 0.0, cost(k))
    else
      var rest := Spend(fn, cost, jitter, maxAttempts, base, cap, k + 1);
      Spent(rest.calls + 1, rest.delay + Wait(Min(cap, Uncapped(base, k - 1)), jitter(k)), rest.busy + cost(k))
  }

  ghost predicate Draws(jitter: nat -> real) {
    forall k :: 0.0 <= jitter(k) < 1.0
  }

  ghost predicate TakesAtMost(cost: nat -> real, limit: real) {
    0.0 <= limit && forall k :: 0.0 <= cost(k) <= limit
  }

  /** Term by term: the pauses are among the backoffs from the k-th on, each with at most a fifth of jitter. */
  lemma {:induction false} SpendFrom<T>(
    fn: nat -> Outcome<T>, cost: nat -> real, jitter: nat -> real, maxAttempts: int, base: real, cap: real, k: nat,
    limit: real)
    requires 1 <= k <= maxAttempts && 0.0 <= base && 0.0 <= cap && Draws(jitter) && TakesAtMost(cost, limit)
    ensures var s := Spend(fn, cost, jitter, maxAttempts, base, cap, k);
      && 1 <= s.calls <= maxAttempts - k + 1
      && 0.0 <= s.delay <= 1.2 * (UncappedSum(base, k + s.calls - 2) - UncappedSum(base, k - 1))
      && s.delay <= 1.2 * Times(s.calls - 1, cap)
      && 0.0 <= s.busy <= Times(s.calls, limit)
    decreases maxAttempts - k
  {
    if !(fn(k).Success? || !Classify(fn(k).error).retryable || k >= maxAttempts) {
      SpendFrom(fn, cost, jitter, maxAttempts, base, cap, k + 1, limit);
      SumsGrow(base, cap, k - 1, k - 1);
      WaitBound(Min(cap, Uncapped(base, k - 1)), jitter(k));
    }
  }

  lemma DelayBoundForm(n: nat, base: real, cap: real)
    requires n >= 1
    ensures DelayBound(n, base, cap) == 1.2 * Min(UncappedSum(base, n - 1), Times(n - 1, cap))
  {
    ClosedForms(base, cap, n - 1);
  }

  /** The bound in closed form, for the attempts made and for those allowed. */
  lemma WithinBound(delay: real, calls: nat, maxAttempts: nat, base: real, cap: real)
    requires 1 <= calls <= maxAttempts && 0.0 <= base && 0.0 <= cap
    requires delay <= 1.2 * UncappedSum(base, calls - 1) && delay <= 1.2 * Times(calls - 1, cap)
    ensures delay <= DelayBound(calls, base, cap) <= DelayBound(maxAttempts, base, cap)
  {
    DelayBoundForm(calls, base, cap);
    DelayBoundForm(maxAttempts, base, cap);
    SumsGrow(base, cap, calls - 1, maxAttempts - 1);
  }

  /** n attempts at most, and the pauses add up to at most 1.2 * min(base * (2^(n-1) - 1), (n-1) * cap). */
  lemma SpendBound<T>(
    fn: nat -> Outcome<T>, cost: nat -> real, jitter: nat -> real, maxAttempts: int, base: real, cap: real, limit: real)
    requires 1 <= maxAttempts && 0.0 <= base && 0.0 <= cap && Draws(jitter) && TakesAtMost(cost, limit)
    ensures var s := Spend(fn, cost, jitter, maxAttempts, base, cap, 1);
      && 1 <= s.calls <= maxAttempts
      && 0.0 <= s.delay <= DelayBound(s.calls, base, cap) <= DelayBound(maxAttempts, base, cap)
      && 0.0 <= s.busy <= Times(s.calls, limit) <= Times(maxAttempts, limit)
  {
    SpendFrom(fn, cost, jitter, maxAttempts, base, cap, 1, limit);
    var s := Spend(fn, cost, jitter, maxAttempts, base, cap, 1);
    WithinBound(s.delay, s.calls, maxAttempts, base, cap);
    SumsGrow(0.0, limit, s.calls, maxAttempts);
  }

  // ----- What is spent, exactly -----

  function Sum(f: nat -> real, n: nat): real {
    if n == 0 then 0.0 else Sum(f, n - 1) + f(n)
  }

  /** The k-th backoff: base doubled with each further failure, up to the cap. */
  function Backoff(base: real, cap: real, k: nat): real {
    if k == 0 then 0.0
    else
      var doubled := base * Pow2(k - 1);
      if cap < doubled then cap else doubled
  }

  function Backoffs(base: real, cap: real): nat -> real {
    (k: nat) => Backoff(base, cap, k)
  }

  /** Each pause is the backoff and the drawn share of a fifth of it. */
  function Pauses(jitter: nat -> real, base: real, cap: real): nat -> real {
    (k: nat) => (1.0 + 0.2 * jitter(k)) * Backoff(base, cap, k)
  }

  lemma BackoffIs(base: real, cap: real, k: nat)
    requires k >= 1
    ensures Backoff(base, cap, k) == Min(cap, Uncapped(base, k - 1))
  {
    ClosedForms(base, cap, k - 1);
    assert base * Pow2(k - 1) == Uncapped(base, k - 1);
  }

  lemma Stretched(backoff: real, jitter: real)
    ensures (1.0 + 0.2 * jitter) * backoff == Wait(backoff, jitter)
  {
    assert (0.2 * jitter) * backoff == jitter * backoff * 0.2;
  }

  lemma WaitIsPause(jitter: nat -> real, base: real, cap: real, k: nat)
    requires k >= 1
    ensures Pauses(jitter, base, cap)(k) == Wait(Min(cap, Uncapped(base, k - 1)), jitter(k))
  {
    BackoffIs(base, cap, k);
    Stretched(Backoff(base, cap, k), jitter(k));
  }

  lemma SpendStep<T>(
    fn: nat -> Outcome<T>, cost: nat -> real, jitter: nat -> real, maxAttempts: int, base: real, cap: real, k: nat)
    requires 1 <= k < maxAttempts && fn(k).Failure? && Classify(fn(k).error).retryable
    ensures var s := Spend(fn, cost, jitter, maxAttempts, base, cap, k);
      var rest := Spend(fn, cost, jitter, maxAttempts, base, cap, k + 1);
      s == Spent(rest.calls + 1, rest.delay + Pauses(jitter, base, cap)(k), rest.busy + cost(k))
  {
    WaitIsPause(jitter, base, cap, k);
  }

  /** Spent from the k-th attempt on: so many pauses and so many attempts. */
  ghost predicate Exactly(s: Spent, pauses: nat -> real, cost: nat -> real, k: nat)
    requires k >= 1
  {
    && s.calls >= 1
    && s.delay == Sum(pauses, k + s.calls - 2) - Sum(pauses, k - 1)
    && s.busy == Sum(cost, k + s.calls - 1) - Sum(cost, k - 1)
  }

  lemma ExactlyOneMore(s: Spent, pauses: nat -> real, cost: nat -> real, k: nat)
    requires k >= 1 && Exactly(s, pauses, cost, k + 1)
    ensures Exactly(Spent(s.calls + 1, s.delay + pauses(k), s.busy + cost(k)), pauses, cost, k)
  {
    assert Sum(pauses, k) == Sum(pauses, k - 1) + pauses(k) && Sum(cost, k) == Sum(cost, k - 1) + cost(k);
  }

  /** What the specification spends, told by the attempts made. */
  lemma {:induction false} SpendIsExact<T>(
    fn: nat -> Outcome<T>, cost: nat -> real, jitter: nat -> real, maxAttempts: int, base: real, cap: real, k: nat)
    requires 1 <= k <= maxAttempts
    ensures Exactly(Spend(fn, cost, jitter, maxAttempts, base, cap, k), Pauses(jitter, base, cap), cost, k)
    decreases maxAttempts - k
  {
    if !(fn(k).Success? || !Classify(fn(k).error).retryable || k >= maxAttempts) {
      SpendIsExact(fn, cost, jitter, maxAttempts, base, cap, k + 1);
      SpendStep(fn, cost, jitter, maxAttempts, base, cap, k);
      var rest := Spend(fn, cost, jitter, maxAttempts, base, cap, k + 1);
      ExactlyOneMore(rest, Pauses(jitter, base, cap), cost, k);
    }
  }

  lemma PauseBound(jitter: nat -> real, base: real, cap: real, k: nat)
    requires k >= 1 && 0.0 <= base && 0.0 <= cap && Draws(jitter)
    ensures var backoff, pause := Backoffs(base, cap)(k), Pauses(jitter, base, cap)(k);
      backoff <= pause <= 1.2 * backoff
  {
    BackoffIs(base, cap, k);
    SumsGrow(base, cap, k - 1, k - 1);
    WaitIsPause(jitter, base, cap, k);
    WaitBound(Min(cap, Uncapped(base, k - 1)), jitter(k));
    NonNegative(jitter(k), Min(cap, Uncapped(base, k - 1)));
  }

  /** No pause is shorter than its backoff or longer than 1.2 times it. */
  lemma {:induction false} PausesBound(jitter: nat -> real, base: real, cap: real, n: nat)
    requires 0.0 <= base && 0.0 <= cap && Draws(jitter)
    ensures var backoffs := Sum(Backoffs(base, cap), n);
      backoffs <= Sum(Pauses(jitter, base, cap), n) <= 1.2 * backoffs
  {
    if n > 0 {
      PausesBound(jitter, base, cap, n - 1);
      PauseBound(jitter, base, cap, n);
    }
  }

  /** Short of the cap, n backoffs take base * (2^n - 1). */
  lemma BackoffsUncapped(base: real, cap: real, n: nat)
    requires 0.0 <= base && (n > 0 ==> base * Pow2(n - 1) <= cap)
    ensures Sum(Backoffs(base, cap), n) == base * (Pow2(n) - 1.0)
  {
    if n > 0 { ClosedForms(base, cap, n - 1); }
    UncappedBackoffs(base, cap, n);
    ClosedForms(base, cap, n);
  }

  lemma {:induction false} UncappedBackoffs(base: real, cap: real, n: nat)
    requires 0.0 <= base && (n > 0 ==> Uncapped(base, n - 1) <= cap)
    ensures Sum(Backoffs(base, cap), n) == UncappedSum(base, n)
  {
    if n > 0 {
      BackoffIs(base, cap, n);
      assert Backoffs(base, cap)(n) == Uncapped(base, n - 1);
      if n > 1 { SumsGrow(base, 0.0, n - 2, n - 2); }
      UncappedBackoffs(base, cap, n - 1);
    }
  }

  lemma SpendTotals<T>(
    fn: nat -> Outcome<T>, cost: nat -> real, jitter: nat -> real, maxAttempts: int, base: real, cap: real, limit: real)
    requires 1 <= maxAttempts && 0.0 <= base && 0.0 <= cap && Draws(jitter) && TakesAtMost(cost, limit)
    ensures Totals(Spend(fn, cost, jitter, maxAttempts, base, cap, 1), cost, jitter, maxAttempts, base, cap, limit)
  {
    SpendBound(fn, cost, jitter, maxAttempts, base, cap, limit);
    SpendIsExact(fn, cost, jitter, maxAttempts, base, cap, 1);
    PausesBound(jitter, base, cap, Spend(fn, cost, jitter, maxAttempts, base, cap, 1).calls - 1);
  }

  ghost predicate Totals(
    s: Spent, cost: nat -> real, jitter: nat -> real, maxAttempts: int, base: real, cap: real, limit: real)
  {
    && 1 <= s.calls <= maxAttempts
    && s.delay == Sum(Pauses(jitter, base, cap), s.calls - 1) && s.busy == Sum(cost, s.calls)
    && Sum(Backoffs(base, cap), s.calls - 1) <= s.delay <= 1.2 * Sum(Backoffs(base, cap), s.calls - 1)
    && 0.0 <= s.delay <= DelayBound(s.calls, base, cap) <= DelayBound(maxAttempts, base, cap)
    && 0.0 <= s.busy <= Times(s.calls, limit)
  }

  /** `fn(k)` is what the k-th attempt does. Calls stop at the first success or permanent error. */
  method RetryWithBackoff<T(!new)>(
    fn: nat -> Outcome<T>, cost: nat -> real, jitter: nat -> real, maxAttempts: int, base: real, cap: real,
    ghost limit: real)
    returns (result: Result<T>, calls: nat, delay: real, elapsed: real)
    requires 0.0 <= base && 0.0 <= cap && Draws(jitter) && TakesAtMost(cost, limit)
    ensures Decided(fn, maxAttempts, calls, result)
    ensures Spend(fn, cost, jitter, maxAttempts, base, cap, 1) == Spent(calls, delay, elapsed - delay)
    ensures maxAttempts >= 1 ==>
      && delay == Sum(Pauses(jitter, base, cap), calls - 1) && elapsed == delay + Sum(cost, calls)
      && Sum(Backoffs(base, cap), calls - 1) <= delay <= 1.2 * Sum(Backoffs(base, cap), calls - 1)
      && 0.0 <= delay <= DelayBound(calls, base, cap) <= DelayBound(maxAttempts, base, cap)
      && delay <= elapsed <= delay + Times(calls, limit)
  {
    ghost var all := Spend(fn, cost, jitter, maxAttempts, base, cap, 1);
    if maxAttempts >= 1 {
      SpendTotals(fn, cost, jitter, maxAttempts, base, cap, limit);
    }
    result, calls, delay, elapsed := ThrewUndefined, 0, 0.0, 0.0;
    var attempt: nat, uncapped := 1, base;
    while attempt <= maxAttempts
      invariant attempt == calls + 1 && (maxAttempts >= 1 ==> calls < maxAttempts)
      invariant maxAttempts < 1 ==> calls == 0
      invariant uncapped == Uncapped(base, calls)
      invariant forall k :: 1 <= k <= calls ==> fn(k).Failure? && Classify(fn(k).error).retryable
      invariant var rest := Spend(fn, cost, jitter, maxAttempts, base, cap, attempt);
        all == Spent(calls + rest.calls, delay + rest.delay, elapsed - delay + rest.busy)
      invariant result == ThrewUndefined
    {
      var outcome := fn(attempt);
      elapsed := elapsed + cost(attempt);
      calls := attempt;
      if outcome.Success? {
        result := Returned(outcome.value);
        return;
      }
      var err := Classify(outcome.error);
      if !err.retryable || attempt >= maxAttempts {
        result := Threw(err);
        return;
      }
      var wait := Wait(Min(cap, uncapped), jitter(attempt));
      delay, elapsed := delay + wait, elapsed + wait;
      uncapped := 2.0 * uncapped;
      attempt := attempt + 1;
    }
  }
}
