/** The payment tables as mutable state, and the service operations that change them statement by statement. Any
    statement may throw and roll its transaction back; a COMMIT may be lost, or take effect and be reported as
    failed. */
module PaymentService {
  import opened Options
  import opened Lifecycle
  import opened Ledger

  datatype Result<T> = Ok(value: T) | NotFound | VerificationFailed | DatabaseError | GatewayError

  /** How a COMMIT ends: done and reported, done but reported as an error, or not done. */
  datatype Commit = Heard | Unheard | Lost

  /** What goes wrong in one transaction: whether its k-th statement throws, and how its COMMIT ends. */
  datatype Faults = Faults(statement: nat -> bool, commit: Commit)

  predicate Throws(f: Faults, from: nat, to: nat) {
    exists k :: from <= k < to && f.statement(k)
  }

  /** A transaction of n statements leaves its mark, or does so and says so. */
  predicate TakesEffect(f: Faults, n: nat) {
    !Throws(f, 0, n) && !f.commit.Lost?
  }

  predicate Succeeds(f: Faults, n: nat) {
    !Throws(f, 0, n) && f.commit.Heard?
  }

  /** How many statements applyGatewayOutcome issues. */
  function Statements(intents: map<IntentId, Intent>, i: IntentId, f: GatewayPayment): nat {
    if i !in intents then 1
    else
      match Decide(intents[i], f)
      case Mismatch => 3
      case Advance(to) => if to == SUCCEEDED then 8 else 5
      case _ => 1
  }

  class PaymentStore {
    var intents: map<IntentId, Intent>
    var orders: seq<Order>
    var attempts: seq<Attempt>
    var transactions: map<PaymentId, Transaction>
    var history: seq<HistoryRow>
    var image: Db

    function Contents(): Db
      reads this
    {
      Db(intents, orders, attempts, transactions, history)
    }

    constructor ()
      ensures Contents() == EMPTY
    {
      intents, orders, attempts, transactions, history, image := map[], [], [], map[], [], EMPTY;
    }

    /** BEGIN: remember what a rollback returns to. */
    method Begin()
      modifies this
      ensures Contents() == old(Contents()) == image
    {
      image := Contents();
    }

    method Rollback()
      modifies this
      ensures Contents() == old(image)
    {
      intents, orders, attempts, transactions, history :=
        image.intents, image.orders, image.attempts, image.transactions, image.history;
    }

    method EndTransaction(commit: Commit) returns (ok: bool)
      modifies this
      ensures ok <==> commit.Heard?
      ensures Contents() == if commit.Lost? then old(image) else old(Contents())
    {
      if commit.Lost? { Rollback(); }
      ok := commit.Heard?;
    }

    method LockIntentById(i: IntentId) returns (row: Option<Intent>)
      ensures row == if i in intents then Some(intents[i]) else None
    {
      row := if i in intents then Some(intents[i]) else None;
    }

    method InsertIntent(i: IntentId, row: Intent) returns (ok: bool)
      modifies this`intents
      ensures ok <==> i !in old(intents) && row.amount > 0
      ensures intents == if ok then old(intents)[i := row] else old(intents)
    {
      ok := i !in intents && row.amount > 0;
      if ok { intents := intents[i := row]; }
    }

    method UpdateIntentStatus(i: IntentId, s: State, now: int)
      modifies this`intents
      ensures Contents() == SetStatus(old(Contents()), i, s, now)
    {
      if i in intents { intents := intents[i := intents[i].(status := s, updatedAt := now)]; }
    }

    method InsertStateHistory(i: IntentId, from: Option<State>, to: State) returns (ok: bool)
      modifies this`history
      ensures ok <==> i in intents
      ensures Contents() == if ok then AddHistory(old(Contents()), i, from, to) else old(Contents())
    {
      ok := i in intents;
      if ok { history := history + [HistoryRow(i, Change(from, to))]; }
    }

    /** ON CONFLICT DO NOTHING, then the row that is there. */
    method InsertOrder(i: IntentId, o: OrderId) returns (row: Option<Order>)
      modifies this`orders
      ensures Contents() == PersistOrder(old(Contents()), i, o)
      ensures row.None? ==> i !in intents && FindOrder(old(orders), o).None?
      ensures row.Some? ==> FindOrder(orders, o) == Some(row.value.intent) && row.value.id == o
    {
      match FindOrder(orders, o)
      case Some(owner) => row := Some(Order(o, owner));
      case None =>
        if i !in intents {
          row := None;
        } else {
          FindOrderAppend(orders, Order(o, i), o);
          orders := orders + [Order(o, i)];
          row := Some(Order(o, i));
        }
    }

    method NextAttemptNumber(i: IntentId) returns (n: nat)
      ensures n == MaxNumber(attempts, i) + 1
      ensures forall a :: a in attempts && a.intent == i ==> a.number < n
    {
      n := MaxNumber(attempts, i) + 1;
      forall a | a in attempts && a.intent == i
        ensures a.number < n
      {
        MaxNumberBounds(attempts, a);
      }
    }

    predicate NumberTaken(i: IntentId, n: nat)
      reads this
    {
      exists a | a in attempts :: a.intent == i && a.number == n
    }

    method InsertAttempt(a: Attempt) returns (ok: bool)
      modifies this`attempts
      ensures ok <==>
        !old(NumberTaken(a.intent, a.number)) && (a.payment.Some? ==> !HasAttempt(old(attempts), a.payment.value))
      ensures attempts == if ok then old(attempts) + [a] else old(attempts)
    {
      ok := !NumberTaken(a.intent, a.number) && (a.payment.Some? ==> !HasAttempt(attempts, a.payment.value));
      if ok { attempts := attempts + [a]; }
    }

    /** The arbiter is the payment id; a clash of attempt numbers would still be an error. */
    method UpsertAttempt(i: IntentId, n: nat, p: PaymentId, status: AttemptStatus) returns (ok: bool)
      modifies this`attempts
      ensures !ok <==> !HasAttempt(old(attempts), p) && old(NumberTaken(i, n))
      ensures attempts ==
              if HasAttempt(old(attempts), p) then MarkAttempt(old(attempts), p, status)
              else if ok then old(attempts) + [Attempt(i, n, Some(p), status)]
              else old(attempts)
    {
      ok := true;
      if HasAttempt(attempts, p) {
        attempts := MarkAttempt(attempts, p, status);
      } else if NumberTaken(i, n) {
        ok := false;
      } else {
        attempts := attempts + [Attempt(i, n, Some(p), status)];
      }
    }

    method InsertTransactionIfAbsent(i: IntentId, f: GatewayPayment) returns (created: bool)
      modifies this`transactions
      ensures created <==> f.paymentId !in old(transactions)
      ensures Contents() == AddTransaction(old(Contents()), i, f)
    {
      created := f.paymentId !in transactions;
      if created { transactions := transactions[f.paymentId := Transaction(i, f.amount, f.currency)]; }
    }

    // ----- Pieces of transactions -----

    /** nextAttemptNumber and upsertAttempt, statements 1 and 2; the number is free, so only a fault can stop it. */
    method Record(i: IntentId, p: PaymentId, status: AttemptStatus, faults: Faults) returns (ok: bool)
      modifies this`attempts
      ensures ok <==> !Throws(faults, 1, 3)
      ensures ok ==> Contents() == RecordAttempt(old(Contents()), i, p, status)
    {
      if faults.statement(1) { return false; }
      var n := NextAttemptNumber(i);
      if faults.statement(2) { return false; }
      ok := UpsertAttempt(i, n, p, status);
    }

    /** A status update and its history row, statements k and k + 1. */
    method Shift(i: IntentId, from: State, to: State, now: int, faults: Faults, k: nat) returns (ok: bool)
      requires i in intents
      modifies this`intents, this`history
      ensures ok <==> !Throws(faults, k, k + 2)
      ensures ok ==> Contents() == Move(old(Contents()), i, from, to, now)
      ensures i in intents
    {
      if faults.statement(k) { return false; }
      UpdateIntentStatus(i, to, now);
      if faults.statement(k + 1) { return false; }
      ok := InsertStateHistory(i, Some(from), to);
    }

    /** Attempt, status and history, statements 1 to 4; for a success the settlement too, statements 5 to 7. */
    method Progress(i: IntentId, from: State, f: GatewayPayment, to: State, now: int, faults: Faults) returns (ok: bool)
      requires i in intents && intents[i].status == from && Decide(intents[i], f) == Advance(to)
      modifies this`intents, this`attempts, this`transactions, this`history
      ensures ok <==> !Throws(faults, 1, if to == SUCCEEDED then 8 else 5)
      ensures ok ==> Contents() == ApplyOutcome(old(Contents()), i, f, now)
    {
      ok := Record(i, f.paymentId, Reached(to), faults);
      if !ok { return; }
      ok := Shift(i, from, to, now, faults, 3);
      if !ok || to != SUCCEEDED { return; }
      if faults.statement(5) { return false; }
      var created := InsertTransactionIfAbsent(i, f);
      ok := Shift(i, SUCCEEDED, COMPLETED, now, faults, 6);
    }

    // ----- Service operations -----

    /** The value tells whether the fact was applied. */
    method ApplyGatewayOutcome(i: IntentId, f: GatewayPayment, now: int, faults: Faults) returns (r: Result<bool>)
      modifies this
      ensures Contents() ==
              if i in old(intents) && TakesEffect(faults, Statements(old(intents), i, f))
              then ApplyOutcome(old(Contents()), i, f, now)
              else old(Contents())
      ensures r.Ok? <==> i in old(intents) && Succeeds(faults, Statements(old(intents), i, f))
      ensures r.Ok? ==> (r.value <==> Decide(old(intents)[i], f).Advance?)
      ensures r.NotFound? <==> i !in old(intents) && !faults.statement(0)
      ensures r.Ok? || r.NotFound? || r.DatabaseError?
      ensures i in old(intents) && (forall k :: !faults.statement(k)) && faults.commit.Heard? ==> r.Ok?
    {
      Begin();
      if faults.statement(0) {
        Rollback();
        return DatabaseError;
      }
      var row := LockIntentById(i);
      if row.None? {
        Rollback();
        return NotFound;
      }
      var decision := Decide(row.value, f);
      var ok := true;
      if decision.Mismatch? {
        ok := Record(i, f.paymentId, Mismatched, faults);
      } else if decision.Advance? {
        assert ValidTransition(row.value.status, decision.to) by { TransitionTable(row.value.status, decision.to); }
        ok := Progress(i, row.value.status, f, decision.to, now, faults);
      }
      if !ok {
        Rollback();
        return DatabaseError;
      }
      ok := EndTransaction(faults.commit);
      return if ok then Ok(decision.Advance?) else DatabaseError;
    }

    method ExpireStalePayment(i: IntentId, now: int, faults: Faults) returns (r: Result<bool>)
      modifies this
      ensures var n := if i in old(intents) && MayExpire(old(intents)[i].status) then 3 else 1;
        && Contents() ==
           (if i in old(intents) && TakesEffect(faults, n) then Expire(old(Contents()), i, now) else old(Contents()))
        && (r.Ok? <==> i in old(intents) && Succeeds(faults, n))
      ensures r.Ok? ==> (r.value <==> old(intents)[i].status in {PENDING, PROCESSING})
      ensures r.Ok? ==> i in intents && intents[i].status == if r.value then EXPIRED else old(intents)[i].status
      ensures r.NotFound? <==> i !in old(intents) && !faults.statement(0)
      ensures i in old(intents) && (forall k :: !faults.statement(k)) && faults.commit.Heard? ==> r.Ok?
    {
      Begin();
      if faults.statement(0) {
        Rollback();
        return DatabaseError;
      }
      var row := LockIntentById(i);
      if row.None? {
        Rollback();
        return NotFound;
      }
      var may := MayExpire(row.value.status);
      if may {
        var ok := Shift(i, row.value.status, EXPIRED, now, faults, 1);
        if !ok {
          Rollback();
          return DatabaseError;
        }
      }
      var ended := EndTransaction(faults.commit);
      return if ended then Ok(may) else DatabaseError;
    }

    /** A payment id reported before is answered with the attempt on record, which is always found. The look-up is
        statement 3, after the rollback. */
    method ReportClientFailure(i: IntentId, p: Option<PaymentId>, faults: Faults) returns (r: Result<Attempt>)
      modifies this
      ensures var known := p.Some? && HasAttempt(old(attempts), p.value);
        && Contents() ==
           (if i in old(intents) && !known && TakesEffect(faults, 3) then ReportFailure(old(Contents()), i, p)
            else old(Contents()))
        && (r.Ok? <==> i in old(intents) && if known then !Throws(faults, 0, 4) else Succeeds(faults, 3))
      ensures r.Ok? ==> r.value in attempts && r.value.payment == p
      ensures r.Ok? && !(p.Some? && HasAttempt(old(attempts), p.value)) ==>
        && attempts == old(attempts) + [r.value]
        && r.value.intent == i && r.value.status == ClientReported
        && forall a :: a in old(attempts) && a.intent == i ==> a.number < r.value.number
      ensures intents == old(intents) && orders == old(orders) && transactions == old(transactions)
      ensures history == old(history)
      ensures i in old(intents) && (forall k :: !faults.statement(k)) && faults.commit.Heard? ==> r.Ok?
      ensures r.NotFound? <==> i !in old(intents) && !faults.statement(0)
    {
      Begin();
      if faults.statement(0) {
        Rollback();
        return DatabaseError;
      }
      var row := LockIntentById(i);
      if row.None? {
        Rollback();
        return NotFound;
      }
      if faults.statement(1) {
        Rollback();
        return DatabaseError;
      }
      var n := NextAttemptNumber(i);
      if faults.statement(2) {
        Rollback();
        return DatabaseError;
      }
      var attempt := Attempt(i, n, p, ClientReported);
      var ok := InsertAttempt(attempt);
      if !ok {
        Rollback();
        if faults.statement(3) { return DatabaseError; }
        var known :| known in attempts && known.payment == p;
        return Ok(known);
      }
      assert attempts[|attempts| - 1] == attempt;
      ok := EndTransaction(faults.commit);
      return if ok then Ok(attempt) else DatabaseError;
    }

    /** Everything the client sends is checked against the order row and the gateway before anything is applied.
        `lookup` says which of the two reads before the transaction throws. */
    method VerifyPayment(
      i: IntentId, o: OrderId, signatureValid: bool, fetched: Option<GatewayPayment>, now: int, lookup: nat -> bool,
      faults: Faults)
      returns (r: Result<Intent>)
      modifies this
      ensures var read := i in old(intents) && !lookup(0) && !lookup(1);
        var owned := read && FindOrder(old(orders), o) == Some(i) && signatureValid;
        var proven := owned && fetched.Some? && fetched.value.orderId == o;
        && Contents() ==
           (if proven && TakesEffect(faults, Statements(old(intents), i, fetched.value))
            then ApplyOutcome(old(Contents()), i, fetched.value, now) else old(Contents()))
        && (r.Ok? <==> proven && Succeeds(faults, Statements(old(intents), i, fetched.value)))
        && (r.VerificationFailed? <==> read && (!owned || (fetched.Some? && fetched.value.orderId != o)))
        && (r.GatewayError? <==> owned && fetched.None?)
      ensures r.Ok? ==> i in intents && r.value == intents[i]
      ensures r.NotFound? <==> i !in old(intents) && !lookup(0)
    {
      if lookup(0) { return DatabaseError; }
      if i !in intents { return NotFound; }
      if lookup(1) { return DatabaseError; }
      if FindOrder(orders, o) != Some(i) { return VerificationFailed; }
      if !signatureValid { return VerificationFailed; }
      if fetched.None? { return GatewayError; }
      if fetched.value.orderId != o { return VerificationFailed; }
      var applied := ApplyGatewayOutcome(i, fetched.value, now, faults);
      if !applied.Ok? { return DatabaseError; }
      ApplyRow(old(Contents()), i, fetched.value, now);
      return Ok(intents[i]);
    }

    /** The opening transaction of createPayment: four statements. */
    method OpenIntent(i: IntentId, amount: int, currency: string, now: int, faults: Faults) returns (ok: bool)
      modifies this
      ensures ok <==> i !in old(intents) && amount > 0 && Succeeds(faults, 4)
      ensures Contents() ==
              if i !in old(intents) && amount > 0 && TakesEffect(faults, 4)
              then CreateIntent(old(Contents()), i, amount, currency, now)
              else old(Contents())
      ensures orders == old(orders) && attempts == old(attempts) && transactions == old(transactions)
      ensures intents ==
              if i !in old(intents) && amount > 0 && TakesEffect(faults, 4)
              then old(intents)[i := Intent(amount, currency, PENDING, now)]
              else old(intents)
    {
      Begin();
      ok := !faults.statement(0);
      if ok { ok := InsertIntent(i, Intent(amount, currency, CREATED, now)); }
      if ok { ok := !faults.statement(1); }
      if ok { ok := InsertStateHistory(i, None, CREATED); }
      if ok { ok := Shift(i, CREATED, PENDING, now, faults, 2); }
      if ok { ok := EndTransaction(faults.commit); } else { Rollback(); }
    }

    /** The unguarded transaction that gives an intent up: two statements. */
    method GiveUp(i: IntentId, now: int, faults: Faults) returns (ok: bool)
      requires i in intents
      modifies this
      ensures ok <==> Succeeds(faults, 2)
      ensures Contents() == if TakesEffect(faults, 2) then FailCreation(old(Contents()), i, now) else old(Contents())
      ensures orders == old(orders) && attempts == old(attempts) && transactions == old(transactions)
      ensures intents ==
              if TakesEffect(faults, 2) then old(intents)[i := old(intents)[i].(status := FAILED, updatedAt := now)]
              else old(intents)
    {
      Begin();
      ok := Shift(i, PENDING, FAILED, now, faults, 0);
      if ok { ok := EndTransaction(faults.commit); } else { Rollback(); }
    }

    /** The retried persist: attempt k commits if `committed(k)`, is acknowledged if also `acknowledged(k)`, and its
        error is permanent if `permanent(k)`. A commit whose acknowledgement is lost looks like a failed attempt. */
    method PersistWithRetry(
      i: IntentId, o: OrderId, committed: nat -> bool, acknowledged: nat -> bool, permanent: nat -> bool)
      returns (row: Option<Order>, ghost commits: nat)
      requires i in intents
      modifies this`orders
      ensures Contents() == RunAll(old(Contents()), Persists(i, o, commits)) && commits <= 3
      ensures row.Some? <==> SomePersistAnswers(committed, acknowledged, permanent)
      ensures row.Some? ==> commits > 0 && row.value.id == o && FindOrder(orders, o) == Some(row.value.intent)
      ensures row.None? && (forall k :: committed(k) ==> acknowledged(k)) ==> commits == 0
      ensures orders ==
        if FindOrder(old(orders), o).None?
           && exists k :: 1 <= k <= 3 && committed(k)
                && forall j :: 1 <= j < k ==> !(committed(j) && acknowledged(j)) && !permanent(j)
        then old(orders) + [Order(o, i)] else old(orders)
    {
      commits, row := 0, None;
      var attempt: nat := 1;
      while true
        decreases 3 - attempt
        invariant 1 <= attempt <= 3 && commits < attempt && i in intents && row == None
        invariant Contents() == RunAll(old(Contents()), Persists(i, o, commits))
        invariant PersistFailsBefore(attempt, committed, acknowledged, permanent)
        invariant (forall k :: committed(k) ==> acknowledged(k)) ==> commits == 0
        invariant orders == OrdersAfter(old(orders), i, o, CommittedBefore(attempt, committed))
      {
        if committed(attempt) {
          OnePersistMore(old(Contents()), i, o, commits);
          StoredOnce(old(orders), i, o, CommittedBefore(attempt, committed));
          row := InsertOrder(i, o);
          commits := commits + 1;
          if acknowledged(attempt) {
            assert PersistAnswers(attempt, committed, acknowledged, permanent);
            StoredIff(attempt, committed, acknowledged, permanent);
            return;
          }
          row := None;
        }
        if permanent(attempt) || attempt == 3 {
          NobodyAnswers(attempt, committed, acknowledged, permanent);
          StoredIff(attempt, committed, acknowledged, permanent);
          return;
        }
        attempt := attempt + 1;
      }
    }

    /** createPayment run with nobody else on the store. `answer` is the gateway's reply once its retries are over;
        `opening` and `failing` say what goes wrong in those transactions, `readFails` whether the last look-up throws.
        What it commits is the opening transaction, the persists that took effect, and the FAILED write if it gave
        up. */
    method CreatePayment(
      i: IntentId, amount: int, currency: string, now: int, answer: Option<OrderId>, opening: Faults, failing: Faults,
      committed: nat -> bool, acknowledged: nat -> bool, permanent: nat -> bool, readFails: bool)
      returns (r: Result<Order>, ghost persists: nat)
      modifies this
      ensures var fresh' := i !in old(intents) && amount > 0;
        var opened' := fresh' && TakesEffect(opening, 4); var went := fresh' && Succeeds(opening, 4);
        var stored := went && answer.Some? && SomePersistAnswers(committed, acknowledged, permanent);
        && (r.Ok? <==> stored && !readFails)
        && Contents() == RunAll(old(Contents()),
             if !opened' then []
             else CreationLog(
               i, amount, currency, now, answer, persists, went && !stored && TakesEffect(failing, 2)))
        && persists <= (if went && answer.Some? then 3 else 0)
        && (stored ==> persists > 0 && FindOrder(orders, answer.value).Some?)
        && (!stored && (forall k :: committed(k) ==> acknowledged(k)) ==> persists == 0)
      ensures r.Ok? ==> answer == Some(r.value.id) && FindOrder(orders, r.value.id) == Some(r.value.intent)
      ensures orders ==
        if i !in old(intents) && amount > 0 && Succeeds(opening, 4)
           && answer.Some? && FindOrder(old(orders), answer.value).None?
           && exists k :: 1 <= k <= 3 && committed(k)
                && forall j :: 1 <= j < k ==> !(committed(j) && acknowledged(j)) && !permanent(j)
        then old(orders) + [Order(answer.value, i)] else old(orders)
      ensures i !in old(intents) && i in intents ==>
        && intents[i].amount == amount && intents[i].currency == currency
        && intents[i].status ==
           (if Succeeds(opening, 4) && TakesEffect(failing, 2)
               && !(answer.Some? && SomePersistAnswers(committed, acknowledged, permanent))
            then FAILED else PENDING)
    {
      persists := 0;
      var created := OpenIntent(i, amount, currency, now, opening);
      if !created {
        CreationInSteps(old(Contents()), i, amount, currency, now, answer, persists);
        return DatabaseError, persists;
      }
      r := GatewayError;
      if answer.Some? {
        var row;
        row, persists := PersistWithRetry(i, answer.value, committed, acknowledged, permanent);
        CreationInSteps(old(Contents()), i, amount, currency, now, answer, persists);
        if row.Some? { return if readFails then DatabaseError else Ok(row.value), persists; }
        r := DatabaseError;
      }
      CreationInSteps(old(Contents()), i, amount, currency, now, answer, persists);
      var failed := GiveUp(i, now, failing);
    }
  }

  ghost function Persists(i: IntentId, o: OrderId, n: nat): seq<Tx> {
    seq(n, _ => TxPersist(i, o))
  }

  lemma OnePersistMore(db: Db, i: IntentId, o: OrderId, n: nat)
    ensures RunAll(db, Persists(i, o, n + 1)) == PersistOrder(RunAll(db, Persists(i, o, n)), i, o)
  {
    assert Persists(i, o, n + 1)[..n] == Persists(i, o, n);
  }

  /** What so many committed attempts leave in the table. */
  function OrdersAfter(orders: seq<Order>, i: IntentId, o: OrderId, stored: bool): seq<Order> {
    if stored && FindOrder(orders, o).None? then orders + [Order(o, i)] else orders
  }

  predicate CommittedBefore(attempt: nat, committed: nat -> bool) {
    exists k :: 1 <= k < attempt && committed(k)
  }

  lemma StoredOnce(orders: seq<Order>, i: IntentId, o: OrderId, stored: bool)
    ensures FindOrder(OrdersAfter(orders, i, o, stored), o).Some? <==> stored || FindOrder(orders, o).Some?
  {
    FindOrderAppend(orders, Order(o, i), o);
  }

  /** The last attempt made is the first that is acknowledged or permanent, or the third. */
  lemma StoredIff(last: nat, committed: nat -> bool, acknowledged: nat -> bool, permanent: nat -> bool)
    requires 1 <= last <= 3 && PersistFailsBefore(last, committed, acknowledged, permanent)
    requires (committed(last) && acknowledged(last)) || permanent(last) || last == 3
    ensures CommittedBefore(last + 1, committed) <==>
            exists k :: 1 <= k <= 3 && committed(k)
              && forall j :: 1 <= j < k ==> !(committed(j) && acknowledged(j)) && !permanent(j)
  {
    if CommittedBefore(last + 1, committed) {
      var k :| 1 <= k < last + 1 && committed(k);
      assert forall j :: 1 <= j < k ==> !(committed(j) && acknowledged(j)) && !permanent(j);
    }
  }

  lemma NobodyAnswers(attempt: nat, committed: nat -> bool, acknowledged: nat -> bool, permanent: nat -> bool)
    requires attempt >= 1 && PersistFailsBefore(attempt, committed, acknowledged, permanent)
    requires !(committed(attempt) && acknowledged(attempt)) && (permanent(attempt) || attempt == 3)
    ensures !SomePersistAnswers(committed, acknowledged, permanent)
  {
  }

  /** What a creation commits: the opening, the persists that took effect, the FAILED write if it gave up. */
  ghost function CreationLog(
    i: IntentId, amount: int, currency: string, now: int, answer: Option<OrderId>, persists: nat, gaveUp: bool): seq<Tx>
  {
    [TxCreate(i, amount, currency, now)]
    + (if answer.Some? then Persists(i, answer.value, persists) else [])
    + (if gaveUp then [TxFail(i, now)] else [])
  }

  lemma CreationInSteps(
    db: Db, i: IntentId, amount: int, currency: string, now: int, answer: Option<OrderId>, persists: nat)
    ensures var opened' := RunTx(db, TxCreate(i, amount, currency, now));
      var persisted := if answer.Some? then RunAll(opened', Persists(i, answer.value, persists)) else opened';
      && RunAll(db, CreationLog(i, amount, currency, now, answer, persists, false)) == persisted
      && RunAll(db, CreationLog(i, amount, currency, now, answer, persists, true)) == RunTx(persisted, TxFail(i, now))
  {
    var create, fail := TxCreate(i, amount, currency, now), TxFail(i, now);
    RunOne(db, create);
    var both := ExtendAll(db, [create], if answer.Some? then Persists(i, answer.value, persists) else []);
    var all := Extend(db, both, fail);
    assert CreationLog(i, amount, currency, now, answer, persists, false) == both;
    assert CreationLog(i, amount, currency, now, answer, persists, true) == all;
  }

  lemma RunOne(db: Db, tx: Tx)
    ensures RunAll(db, [tx]) == RunTx(db, tx)
  {
  }

  /** No earlier attempt was acknowledged, and none failed permanently. */
  predicate PersistFailsBefore(k: nat, committed: nat -> bool, acknowledged: nat -> bool, permanent: nat -> bool) {
    forall j :: 1 <= j < k ==> !(committed(j) && acknowledged(j)) && !permanent(j)
  }

  predicate PersistAnswers(k: nat, committed: nat -> bool, acknowledged: nat -> bool, permanent: nat -> bool) {
    1 <= k <= 3 && committed(k) && acknowledged(k) && PersistFailsBefore(k, committed, acknowledged, permanent)
  }

  ghost predicate SomePersistAnswers(committed: nat -> bool, acknowledged: nat -> bool, permanent: nat -> bool) {
    exists k :: PersistAnswers(k, committed, acknowledged, permanent)
  }

  ghost function Extend(db: Db, log: seq<Tx>, tx: Tx): (longer: seq<Tx>)
    ensures longer == log + [tx] && RunAll(db, longer) == RunTx(RunAll(db, log), tx)
  {
    assert (log + [tx])[..|log|] == log;
    log + [tx]
  }

  ghost function ExtendAll(db: Db, log: seq<Tx>, more: seq<Tx>): (longer: seq<Tx>)
    ensures longer == log + more && RunAll(db, longer) == RunAll(RunAll(db, log), more)
  {
    if more == [] then log
    else
      var n := |more| - 1;
      assert (log + more)[..|log + more| - 1] == log + more[..n];
      assert ExtendAll(db, log, more[..n]) == log + more[..n];
      log + more
  }
}
