/** How long one create request can hold its idempotency claim, and what that buys. */
module Latency {
  import opened Retry
  import Idempotency

  /** How one database unit of work went and how long it took. */
  datatype Work = Work(ok: bool, took: real)

  /** One create request: its units of work in the order the code reaches them, what each gateway call and each persist
      attempt does and how long it takes, and the jitter drawn in between. */
  datatype Run = Run(
    claim: Work, intent: Work, failWrite: Work, readBack: Work, complete: Work, release: Work,
    order: nat -> Outcome<string>, orderTook: nat -> real,
    persist: nat -> Outcome<string>, persistTook: nat -> real,
    jitter: nat -> real)

  predicate Quick(w: Work, unit: real) {
    0.0 <= w.took <= unit
  }

  /** Each gateway call takes at most `call`, each database unit of work at most `unit`. */
  ghost predicate Bounded(run: Run, call: real, unit: real) {
    && Quick(run.claim, unit) && Quick(run.intent, unit) && Quick(run.failWrite, unit)
    && Quick(run.readBack, unit) && Quick(run.complete, unit) && Quick(run.release, unit)
    && TakesAtMost(run.orderTook, call) && TakesAtMost(run.persistTook, unit) && Draws(run.jitter)
  }

  const GATEWAY_BASE: real := 200.0
  const PERSIST_BASE: real := 100.0
  const CAP: real := 5000.0

  // ----- The time a request takes -----

  function OrderSpend(run: Run): Spent {
    Spend(run.order, run.orderTook, run.jitter, 3, GATEWAY_BASE, CAP, 1)
  }

  function PersistSpend(run: Run): Spent {
    Spend(run.persist, run.persistTook, run.jitter, 3, PERSIST_BASE, CAP, 1)
  }

  /** A retried call succeeds when the last attempt it makes does. */
  predicate OrderPlaced(run: Run) {
    run.order(OrderSpend(run).calls).Success?
  }

  predicate OrderStored(run: Run) {
    run.persist(PersistSpend(run).calls).Success?
  }

  predicate Created(run: Run) {
    run.intent.ok && OrderPlaced(run) && OrderStored(run) && run.readBack.ok
  }

  function OrderTime(run: Run): real {
    OrderSpend(run).delay + OrderSpend(run).busy
  }

  function PersistTime(run: Run): real {
    PersistSpend(run).delay + PersistSpend(run).busy
  }

  function CreationTime(run: Run): real {
    run.intent.took
    + if !run.intent.ok then 0.0
      else
        OrderTime(run)
        + if !OrderPlaced(run) then run.failWrite.took
          else PersistTime(run) + if OrderStored(run) then run.readBack.took else run.failWrite.took
  }

  /** From the claim to the end of the complete or release. */
  function HoldingTime(run: Run): real {
    run.claim.took + CreationTime(run) + if Created(run) then run.complete.took else run.release.took
  }

  /** The time of a call retried n times: its attempts, and the backoffs between them with their jitter. */
  ghost function Retried(took: nat -> real, jitter: nat -> real, base: real, n: nat): real {
    Sum(took, n) + Sum(Pauses(jitter, base, 5000.0), if n == 0 then 0 else n - 1)
  }

  /** What a request's time is made of: every unit of work it reaches, once, and both retried calls it reaches. */
  lemma HoldingTimeIs(run: Run)
    ensures var order := Retried(run.orderTook, run.jitter, 200.0, OrderSpend(run).calls);
      var persist := Retried(run.persistTook, run.jitter, 100.0, PersistSpend(run).calls);
      HoldingTime(run) ==
        if !run.intent.ok then run.claim.took + run.intent.took + run.release.took
        else if !OrderPlaced(run) then
          run.claim.took + run.intent.took + order + run.failWrite.took + run.release.took
        else if !OrderStored(run) then
          run.claim.took + run.intent.took + order + persist + run.failWrite.took + run.release.took
        else
          run.claim.took + run.intent.took + order + persist + run.readBack.took
          + if run.readBack.ok then run.complete.took else run.release.took
  {
    SpendIsExact(run.order, run.orderTook, run.jitter, 3, GATEWAY_BASE, CAP, 1);
    SpendIsExact(run.persist, run.persistTook, run.jitter, 3, PERSIST_BASE, CAP, 1);
  }

  lemma DelaysOfThree()
    ensures DelayBound(3, GATEWAY_BASE, CAP) == 720.0
    ensures DelayBound(3, PERSIST_BASE, CAP) == 360.0
  {
  }

  lemma ThreeTimes(c: real)
    ensures Times(3, c) == c + c + c
  {
    assert Times(3, c) == Times(2, c) + c && Times(2, c) == Times(1, c) + c && Times(1, c) == Times(0, c) + c;
  }

  /** At most three gateway calls, seven units of work, and 720 + 360 milliseconds of backoff. */
  lemma HoldingTimeBound(run: Run, call: real, unit: real)
    requires Bounded(run, call, unit)
    ensures 0.0 <= HoldingTime(run) <= 3.0 * call + 7.0 * unit + 1080.0
  {
    DelaysOfThree();
    SpendBound(run.order, run.orderTook, run.jitter, 3, GATEWAY_BASE, CAP, call);
    SpendBound(run.persist, run.persistTook, run.jitter, 3, PERSIST_BASE, CAP, unit);
    ThreeTimes(call);
    ThreeTimes(unit);
    assert OrderTime(run) <= 3.0 * call + 720.0 && PersistTime(run) <= 3.0 * unit + 360.0;
  }

  // ----- The code that takes it -----

  datatype Finish = CompletedRecord | ReleasedRecord | StillHeld

  /** createPayment: open the intent, order at the gateway with retries, persist the order with retries, read back; a
      failed order or persist writes FAILED first. */
  method CreatePayment(run: Run, ghost call: real, ghost unit: real) returns (ok: bool, elapsed: real)
    requires Bounded(run, call, unit)
    ensures ok <==> Created(run)
    ensures elapsed == CreationTime(run)
  {
    elapsed := run.intent.took;
    if !run.intent.ok {
      return false, elapsed;
    }
    var placed, calls, delay, took :=
      RetryWithBackoff(run.order, run.orderTook, run.jitter, 3, GATEWAY_BASE, CAP, call);
    elapsed := elapsed + took;
    if !placed.Returned? {
      return false, elapsed + run.failWrite.took;
    }
    var stored, tries, delay', took' :=
      RetryWithBackoff(run.persist, run.persistTook, run.jitter, 3, PERSIST_BASE, CAP, unit);
    elapsed := elapsed + took';
    if !stored.Returned? {
      return false, elapsed + run.failWrite.took;
    }
    return run.readBack.ok, elapsed + run.readBack.took;
  }

  /** The controller's side: release after a failed creation, complete before answering. A failed complete or release
      leaves the record in progress; the request is over either way. */
  method Create(run: Run, ghost call: real, ghost unit: real) returns (finish: Finish, elapsed: real)
    requires Bounded(run, call, unit)
    ensures finish.CompletedRecord? <==> Created(run) && run.complete.ok
    ensures finish.ReleasedRecord? <==> !Created(run) && run.release.ok
    ensures elapsed == HoldingTime(run)
    ensures 0.0 <= elapsed <= 3.0 * call + 7.0 * unit + 1080.0
  {
    HoldingTimeBound(run, call, unit);
    var ok, took := CreatePayment(run, call, unit);
    elapsed := run.claim.took + took;
    if ok {
      finish := if run.complete.ok then CompletedRecord else StillHeld;
      elapsed := elapsed + run.complete.took;
    } else {
      finish := if run.release.ok then ReleasedRecord else StillHeld;
      elapsed := elapsed + run.release.took;
    }
  }

  // ----- What that buys -----

  /** The clock has not passed the end of an owner's own timeline. Times are in milliseconds. */
  ghost predicate OnTime(w: Idempotency.World, now: int, runs: nat -> Run) {
    forall r :: r in w.requests && w.requests[r].pc.Owner? ==>
      (now - w.requests[r].pc.grantedAt) as real <= HoldingTime(runs(r))
  }

  /** Clock and code agree: time moves on only as far as the request r still running needs, that is `runs(r)`. */
  ghost predicate Timed(es: seq<Idempotency.Event>, timeout: int, runs: nat -> Run)
    requires Idempotency.Possible(Idempotency.INITIAL, es, timeout)
    decreases |es|
  {
    es == []
    || (Timed(es[..|es| - 1], timeout, runs)
        && (es[|es| - 1].Tick? ==>
              OnTime(Idempotency.Exec(Idempotency.INITIAL, es[..|es| - 1], timeout), es[|es| - 1].to, runs)))
  }

  /** A grant starts its request's timeline; nothing but the clock moves along it. */
  lemma EventStaysOnTime(
    w: Idempotency.World, e: Idempotency.Event, timeout: int, runs: nat -> Run, call: real, unit: real)
    requires OnTime(w, w.now, runs) && Idempotency.Enabled(w, e) && forall r :: Bounded(runs(r), call, unit)
    requires e.Tick? ==> OnTime(w, e.to, runs)
    ensures OnTime(Idempotency.Next(w, e, timeout), Idempotency.Next(w, e, timeout).now, runs)
  {
    if !e.Tick? {
      GrantsAreNow(w, e, timeout);
      HoldingTimeBound(runs(e.r), call, unit);
    }
  }

  lemma GrantsAreNow(w: Idempotency.World, e: Idempotency.Event, timeout: int)
    requires Idempotency.Enabled(w, e) && !e.Tick?
    ensures var w' := Idempotency.Next(w, e, timeout);
      && w'.now == w.now
      && forall r :: r in w'.requests && w'.requests[r].pc.Owner? ==>
           var pc := w'.requests[r].pc;
           (r == e.r && pc.grantedAt == w.now)
           || (r in w.requests && w.requests[r].pc.Owner? && w.requests[r].pc.grantedAt == pc.grantedAt)
  {
  }

  lemma OnTimeIsTimely(w: Idempotency.World, runs: nat -> Run, call: real, unit: real, timeout: int)
    requires OnTime(w, w.now, runs) && 3.0 * call + 7.0 * unit + 1080.0 <= timeout as real
    requires forall r :: Bounded(runs(r), call, unit)
    ensures Idempotency.Timely(w, timeout)
  {
    forall r | r in w.requests && w.requests[r].pc.Owner?
      ensures w.now <= w.requests[r].pc.grantedAt + timeout
    {
      HoldingTimeBound(runs(r), call, unit);
    }
  }

  lemma {:induction false} TimedRunIsTimely(
    es: seq<Idempotency.Event>, timeout: int, runs: nat -> Run, call: real, unit: real)
    requires Idempotency.Possible(Idempotency.INITIAL, es, timeout) && Timed(es, timeout, runs)
    requires 3.0 * call + 7.0 * unit + 1080.0 <= timeout as real && forall r :: Bounded(runs(r), call, unit)
    ensures var w := Idempotency.Exec(Idempotency.INITIAL, es, timeout); OnTime(w, w.now, runs)
    ensures Idempotency.TimelyRun(es, timeout, timeout)
    decreases |es|
  {
    if es != [] {
      var rest, e := es[..|es| - 1], es[|es| - 1];
      TimedRunIsTimely(rest, timeout, runs, call, unit);
      EventStaysOnTime(Idempotency.Exec(Idempotency.INITIAL, rest, timeout), e, timeout, runs, call, unit);
    }
    OnTimeIsTimely(Idempotency.Exec(Idempotency.INITIAL, es, timeout), runs, call, unit, timeout);
  }

  /** With gateway calls of at most G, units of work of at most D and an in-progress timeout of at least
      3G + 7D + 1080 ms no key ever has two owners, and every 201 carries the one stored payload. */
  lemma TimeoutAboveBoundSuffices(
    es: seq<Idempotency.Event>, timeout: int, runs: nat -> Run, call: real, unit: real, q: nat, r: nat)
    requires Idempotency.Possible(Idempotency.INITIAL, es, timeout) && Timed(es, timeout, runs)
    requires 3.0 * call + 7.0 * unit + 1080.0 <= timeout as real && forall k :: Bounded(runs(k), call, unit)
    requires var w := Idempotency.Exec(Idempotency.INITIAL, es, timeout);
      q in w.requests && r in w.requests && w.requests[q].slot == w.requests[r].slot
    ensures var w := Idempotency.Exec(Idempotency.INITIAL, es, timeout); var a, b := w.requests[q], w.requests[r];
      && (a.pc.Owner? && b.pc.Owner? ==> q == r)
      && (a.pc.Replied? ==> Idempotency.Holds(w, a.slot, a.hash, a.pc.payload))
      && (a.pc.Replied? && b.pc.Replied? ==> a.pc.payload == b.pc.payload && a.hash == b.hash)
  {
    TimedRunIsTimely(es, timeout, runs, call, unit);
    var slot := Idempotency.Exec(Idempotency.INITIAL, es, timeout).requests[q].slot;
    Idempotency.TimelyRunsAreExclusive(es, timeout, timeout, slot);
    Idempotency.OneOutcomePerKey(es, timeout, slot, q, r);
  }
}
