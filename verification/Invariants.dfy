/** What every committed store satisfies, and that each transaction keeps it. */
module Invariants {
  import opened Options
  import opened Lifecycle
  import opened Ledger

  /** The gateway, as far as it is trusted: the one order it answers each creation with, and the one
      order each payment id belongs to. */
  datatype Env = Env(orderFor: IntentId -> OrderId, orderOf: PaymentId -> OrderId)

  ghost predicate FreshOrders(env: Env) {
    forall i, j :: env.orderFor(i) == env.orderFor(j) ==> i == j
  }

  ghost predicate AllLive(db: Db) {
    forall i :: i in db.intents ==> Live(db.intents[i].status)
  }

  /** Money, intent by intent: a transaction for it exists exactly if it is completed, only one, and for its amount. */
  ghost predicate Paid(db: Db, i: IntentId) {
    && (forall p :: p in db.transactions && db.transactions[p].intent == i ==>
          && i in db.intents && db.intents[i].status == COMPLETED
          && db.transactions[p] == Transaction(i, db.intents[i].amount, db.intents[i].currency))
    && (i in db.intents && db.intents[i].status == COMPLETED ==>
          exists p :: p in db.transactions && db.transactions[p].intent == i)
    && (forall p, q ::
          p in db.transactions && q in db.transactions
          && db.transactions[p].intent == i == db.transactions[q].intent ==>
            p == q)
  }

  /** Every transaction is booked on the intent whose order its payment belongs to. */
  ghost predicate BookedOk(env: Env, db: Db) {
    forall p :: p in db.transactions ==> env.orderOf(p) == env.orderFor(db.transactions[p].intent)
  }

  ghost predicate LedgerOk(env: Env, db: Db) {
    AllLive(db) && BookedOk(env, db) && forall i :: Paid(db, i)
  }

  /** Audit, intent by intent: its history is a legal path ending at its status. */
  ghost predicate Audited(db: Db, i: IntentId) {
    var h := HistoryOf(db.history, i);
    if i in db.intents then Chain(h) && h[|h| - 1].to == db.intents[i].status else h == []
  }

  ghost predicate AuditOk(db: Db) {
    forall i :: Audited(db, i)
  }

  /** Orders: each row carries the order the gateway issued for its intent, so no intent has two. */
  ghost predicate OrdersOk(env: Env, db: Db) {
    && (forall r :: r in db.orders ==> r.intent in db.intents && r.id == env.orderFor(r.intent))
    && (forall a, b :: 0 <= a < b < |db.orders| ==> db.orders[a].id != db.orders[b].id)
  }

  function NumbersOf(attempts: seq<Attempt>, i: IntentId): seq<nat> {
    if attempts == [] then []
    else
      var rest := NumbersOf(attempts[..|attempts| - 1], i);
      if attempts[|attempts| - 1].intent == i then rest + [attempts[|attempts| - 1].number] else rest
  }

  function UpTo(n: nat): seq<nat> {
    seq(n, k => k + 1)
  }

  /** Attempts: numbers run 1..n per intent, and no payment id occurs twice. */
  ghost predicate AttemptsOk(db: Db) {
    && (forall i :: NumbersOf(db.attempts, i) == UpTo(MaxNumber(db.attempts, i)))
    && (forall a, b :: 0 <= a < b < |db.attempts| && db.attempts[a].payment.Some? ==>
          db.attempts[a].payment != db.attempts[b].payment)
  }

  /** The payment has an attempt row, and that row says SUCCEEDED. */
  ghost predicate SettledPayment(db: Db, p: PaymentId) {
    HasAttempt(db.attempts, p)
    && forall a :: a in db.attempts && a.payment == Some(p) ==> a.status == Reached(SUCCEEDED)
  }

  ghost predicate SettledOk(db: Db) {
    forall p :: p in db.transactions ==> SettledPayment(db, p)
  }

  ghost predicate DbOk(env: Env, db: Db) {
    LedgerOk(env, db) && AuditOk(db) && OrdersOk(env, db) && AttemptsOk(db) && SettledOk(db)
  }

  // ----- What transactions bring along -----

  /** What the gateway and the code around a transaction guarantee of it, whatever the store. */
  ghost predicate Routed(env: Env, tx: Tx) {
    match tx
    case TxApply(i, f, _) => env.orderOf(f.paymentId) == env.orderFor(i)
    case TxPersist(i, o) => o == env.orderFor(i)
    case _ => true
  }

  const PAID: set<State> := {COMPLETED}
  const TERMINAL: set<State> := {CANCELLED, EXPIRED, COMPLETED}
  const UNEXPECTED: set<State> := {CREATED, PROCESSING, SUCCEEDED, FAILED, CANCELLED, EXPIRED, COMPLETED}

  /** The FAILED write of the intent's creation finds its row in one of these states. */
  predicate Hits(db: Db, tx: Tx, i: IntentId, states: set<State>) {
    tx.TxFail? && tx.i == i && i in db.intents && db.intents[i].status in states
  }

  /** No FAILED write of this intent in the log finds its row in one of these states. */
  predicate Spares(db: Db, log: seq<Tx>, i: IntentId, states: set<State>) {
    log == []
    || (Spares(db, log[..|log| - 1], i, states) && !Hits(RunAll(db, log[..|log| - 1]), log[|log| - 1], i, states))
  }

  lemma {:induction false} SparesFewer(db: Db, log: seq<Tx>, i: IntentId, states: set<State>, fewer: set<State>)
    requires Spares(db, log, i, states) && fewer <= states
    ensures Spares(db, log, i, fewer)
    decreases |log|
  {
    if log != [] { SparesFewer(db, log[..|log| - 1], i, states, fewer); }
  }

  /** A FAILED write of createPayment finds the status it assumes. */
  predicate OverPending(db: Db, tx: Tx) {
    !Hits(db, tx, tx.i, UNEXPECTED)
  }

  // ----- Statuses -----

  /** No transaction whatsoever leaves a status between transactions that only occurs within one. */
  lemma KeepsLive(db: Db, tx: Tx)
    requires AllLive(db)
    ensures AllLive(RunTx(db, tx))
  {
    TxTouchesOneIntent(db, tx);
    if tx.i in db.intents { TxKeepsRowLive(db, tx); }
  }

  lemma TxKeepsRowLive(db: Db, tx: Tx)
    requires tx.i in db.intents && Live(db.intents[tx.i].status)
    ensures tx.i in RunTx(db, tx).intents && Live(RunTx(db, tx).intents[tx.i].status)
  {
    if tx.TxApply? { ApplyRow(db, tx.i, tx.f, tx.now); }
  }

  /** Climbing the ladder, or staying put. */
  predicate Climbs(s: State, s': State) {
    s' == s || (!IsTerminal(s) && Rank(s) < Rank(s'))
  }

  /** A status only ever climbs the ladder and never leaves a terminal state, except by exactly a FAILED write over a
      terminal row. */
  lemma TxClimbs(db: Db, tx: Tx, i: IntentId)
    requires i in db.intents && Live(db.intents[i].status)
    ensures i in RunTx(db, tx).intents
    ensures Climbs(db.intents[i].status, RunTx(db, tx).intents[i].status) <==> !Hits(db, tx, i, TERMINAL)
  {
    if tx.i != i || tx.TxReport? || tx.TxPersist? || tx.TxCreate? {
      TxTouchesOneIntent(db, tx);
    } else if tx.TxApply? {
      ApplyClimbs(db, i, tx.f, tx.now);
    }
  }

  lemma ApplyClimbs(db: Db, i: IntentId, f: GatewayPayment, now: int)
    requires i in db.intents && Live(db.intents[i].status)
    ensures i in ApplyOutcome(db, i, f, now).intents
    ensures Climbs(db.intents[i].status, ApplyOutcome(db, i, f, now).intents[i].status)
  {
    ApplyRow(db, i, f, now);
  }

  // ----- Money -----

  /** A payment routed to an intent that is paid up and not completed has no transaction yet. */
  lemma UnsettledPayment(env: Env, db: Db, i: IntentId, p: PaymentId)
    requires FreshOrders(env) && BookedOk(env, db) && Paid(db, i) && i in db.intents
    requires env.orderOf(p) == env.orderFor(i) && db.intents[i].status != COMPLETED
    ensures p !in db.transactions
  {
  }

  /** What an applied fact does to the bookings of one intent. */
  lemma ApplyKeepsPaid(env: Env, db: Db, i: IntentId, f: GatewayPayment, now: int, j: IntentId)
    requires FreshOrders(env) && BookedOk(env, db) && env.orderOf(f.paymentId) == env.orderFor(i) && i in db.intents
    requires Paid(db, j)
    ensures Paid(ApplyOutcome(db, i, f, now), j)
  {
    ApplyTouchesOneIntent(db, i, f, now);
    ApplyRow(db, i, f, now);
    ApplyMoney(db, i, f, now);
    if Decide(db.intents[i], f) == Advance(SUCCEEDED) && j == i {
      UnsettledPayment(env, db, i, f.paymentId);
      SettlingIsPaid(db, ApplyOutcome(db, i, f, now), i, f.paymentId);
    } else {
      PaidFrame(db, ApplyOutcome(db, i, f, now), j);
    }
  }

  /** A payment row and intent settled together. */
  lemma SettlingIsPaid(db: Db, db': Db, i: IntentId, p: PaymentId)
    requires Paid(db, i) && i in db.intents && db.intents[i].status != COMPLETED && p !in db.transactions
    requires i in db'.intents && db'.intents[i].status == COMPLETED
    requires db'.transactions == db.transactions[p := Transaction(i, db'.intents[i].amount, db'.intents[i].currency)]
    ensures Paid(db', i)
  {
    assert db'.transactions[p].intent == i;
  }

  /** Bookings and completion of this intent are as they were. */
  lemma PaidFrame(db: Db, db': Db, j: IntentId)
    requires Paid(db, j)
    requires j in db.intents ==> j in db'.intents
    requires j in db'.intents ==>
      if j in db.intents && db.intents[j].status == COMPLETED then db'.intents[j] == db.intents[j]
      else db'.intents[j].status != COMPLETED
    requires forall p :: p in db.transactions ==> p in db'.transactions && db'.transactions[p] == db.transactions[p]
    requires forall p :: p in db'.transactions && db'.transactions[p].intent == j ==> p in db.transactions
    ensures Paid(db', j)
  {
    if j in db'.intents && db'.intents[j].status == COMPLETED {
      var p :| p in db.transactions && db.transactions[p].intent == j;
      assert p in db'.transactions && db'.transactions[p].intent == j;
    }
  }

  /** Apart from applied facts and FAILED writes over it, nothing enters or leaves COMPLETED; no money is booked. */
  lemma OthersMoveNoMoney(db: Db, tx: Tx, j: IntentId)
    requires !tx.TxApply? && !Hits(db, tx, j, PAID)
    ensures RunTx(db, tx).transactions == db.transactions
    ensures j in db.intents ==> j in RunTx(db, tx).intents
    ensures j in RunTx(db, tx).intents ==>
      var row := RunTx(db, tx).intents[j];
      if j in db.intents
      then row == db.intents[j] || (db.intents[j].status != COMPLETED && row.status in {FAILED, EXPIRED})
      else row.status == PENDING
  {
  }

  lemma KeepsBooked(env: Env, db: Db, tx: Tx)
    requires BookedOk(env, db) && Routed(env, tx)
    ensures BookedOk(env, RunTx(db, tx))
  {
    if tx.TxApply? && tx.i in db.intents { ApplyMoney(db, tx.i, tx.f, tx.now); }
  }

  lemma {:induction false} LogKeepsBooked(env: Env, db: Db, log: seq<Tx>)
    requires BookedOk(env, db) && forall tx :: tx in log ==> Routed(env, tx)
    ensures BookedOk(env, RunAll(db, log))
    decreases |log|
  {
    if log != [] {
      var rest, tx := log[..|log| - 1], log[|log| - 1];
      assert tx in log && forall x :: x in rest ==> x in log;
      LogKeepsBooked(env, db, rest);
      KeepsBooked(env, RunAll(db, rest), tx);
    }
  }

  /** The money of one intent stays in order under every routed transaction, except for exactly a FAILED write over its
      COMPLETED row. */
  lemma TxKeepsPaid(env: Env, db: Db, tx: Tx, i: IntentId)
    requires FreshOrders(env) && BookedOk(env, db) && Routed(env, tx) && Paid(db, i)
    ensures Paid(RunTx(db, tx), i) <==> !Hits(db, tx, i, PAID)
  {
    if tx.TxApply? {
      if tx.i in db.intents { ApplyKeepsPaid(env, db, tx.i, tx.f, tx.now, i); }
    } else if !Hits(db, tx, i, PAID) {
      OthersMoveNoMoney(db, tx, i);
      PaidFrame(db, RunTx(db, tx), i);
    } else {
      var p :| p in db.transactions && db.transactions[p].intent == i;
      assert p in RunTx(db, tx).transactions && RunTx(db, tx).intents[i].status == FAILED;
    }
  }

  lemma {:induction false} LogKeepsPaid(env: Env, db: Db, log: seq<Tx>, i: IntentId)
    requires FreshOrders(env) && BookedOk(env, db) && Paid(db, i) && forall tx :: tx in log ==> Routed(env, tx)
    requires Spares(db, log, i, PAID)
    ensures Paid(RunAll(db, log), i)
    decreases |log|
  {
    if log != [] {
      var rest, tx := log[..|log| - 1], log[|log| - 1];
      assert tx in log && forall x :: x in rest ==> x in log;
      LogKeepsPaid(env, db, rest, i);
      LogKeepsBooked(env, db, rest);
      TxKeepsPaid(env, RunAll(db, rest), tx, i);
    }
  }

  lemma KeepsLedger(env: Env, db: Db, tx: Tx)
    requires FreshOrders(env) && LedgerOk(env, db) && Routed(env, tx)
    ensures LedgerOk(env, RunTx(db, tx)) <==> !Hits(db, tx, tx.i, PAID)
  {
    KeepsLive(db, tx);
    KeepsBooked(env, db, tx);
    forall i
      ensures Paid(RunTx(db, tx), i) <==> !Hits(db, tx, i, PAID)
    {
      TxKeepsPaid(env, db, tx, i);
    }
  }

  // ----- Audit -----

  /** One more history row along a table edge, with the status moved along; other intents do not see it. */
  lemma MoveKeepsAudited(db: Db, i: IntentId, from: State, to: State, now: int, j: IntentId)
    requires Audited(db, j) && i in db.intents
    requires j == i ==> from == db.intents[i].status && CanTransition(from, to)
    ensures Audited(Move(db, i, from, to, now), j)
  {
    HistoryAppend(db.history, HistoryRow(i, Change(Some(from), to)), j);
  }

  /** Audit looks at statuses and history only. */
  lemma AuditFrame(db: Db, db': Db, j: IntentId)
    requires Audited(db, j) && db'.intents == db.intents && db'.history == db.history
    ensures Audited(db', j)
  {
  }

  lemma ApplyKeepsAudited(db: Db, i: IntentId, f: GatewayPayment, now: int, j: IntentId)
    requires Audited(db, j)
    ensures Audited(ApplyOutcome(db, i, f, now), j)
  {
    if i in db.intents {
      match Decide(db.intents[i], f)
      case Mismatch => AuditFrame(db, RecordAttempt(db, i, f.paymentId, Mismatched), j);
      case Advance(to) =>
        var recorded := RecordAttempt(db, i, f.paymentId, Reached(to));
        AuditFrame(db, recorded, j);
        MoveKeepsAudited(recorded, i, db.intents[i].status, to, now, j);
        if to == SUCCEEDED {
          var moved := Move(recorded, i, db.intents[i].status, to, now);
          AuditFrame(moved, AddTransaction(moved, i, f), j);
          MoveKeepsAudited(AddTransaction(moved, i, f), i, SUCCEEDED, COMPLETED, now, j);
        }
      case _ =>
    }
  }

  /** The first row of a new intent's history. */
  lemma OpeningIsAudited(db: Db, i: IntentId, row: Intent, j: IntentId)
    requires Audited(db, j) && i !in db.intents && row.status == CREATED
    ensures Audited(AddHistory(db.(intents := db.intents[i := row]), i, None, CREATED), j)
  {
    HistoryAppend(db.history, HistoryRow(i, Change(None, CREATED)), j);
  }

  lemma CreateKeepsAudited(db: Db, i: IntentId, amount: int, currency: string, now: int, j: IntentId)
    requires Audited(db, j)
    ensures Audited(CreateIntent(db, i, amount, currency, now), j)
  {
    if i !in db.intents && amount > 0 {
      var row := Intent(amount, currency, CREATED, now);
      OpeningIsAudited(db, i, row, j);
      MoveKeepsAudited(AddHistory(db.(intents := db.intents[i := row]), i, None, CREATED), i, CREATED, PENDING, now, j);
    }
  }

  lemma KeepsAudited(db: Db, tx: Tx, j: IntentId)
    requires Audited(db, j) && !Hits(db, tx, j, UNEXPECTED)
    ensures Audited(RunTx(db, tx), j)
  {
    match tx
    case TxApply(i, f, now) => ApplyKeepsAudited(db, i, f, now, j);
    case TxExpire(i, now) =>
      if i in db.intents && MayExpire(db.intents[i].status) {
        MoveKeepsAudited(db, i, db.intents[i].status, EXPIRED, now, j);
      }
    case TxReport(i, p) => AuditFrame(db, ReportFailure(db, i, p), j);
    case TxCreate(i, amount, currency, now) => CreateKeepsAudited(db, i, amount, currency, now, j);
    case TxPersist(i, o) => AuditFrame(db, PersistOrder(db, i, o), j);
    case TxFail(i, now) => if i in db.intents { MoveKeepsAudited(db, i, PENDING, FAILED, now, j); }
  }

  /** A history that is no legal path. */
  ghost predicate BrokenAt(db: Db, i: IntentId) {
    HistoryOf(db.history, i) != [] && !Chain(HistoryOf(db.history, i))
  }

  lemma BrokenIsNotAudited(db: Db, i: IntentId)
    requires BrokenAt(db, i)
    ensures !Audited(db, i)
  {
  }

  /** History is append-only, so a broken one is never mended. */
  lemma BrokenStays(db: Db, tx: Tx, i: IntentId)
    requires BrokenAt(db, i)
    ensures BrokenAt(RunTx(db, tx), i)
  {
    HistoryGrows(db, tx, i);
    var h, h' := HistoryOf(db.history, i), HistoryOf(RunTx(db, tx).history, i);
    assert Chain(h') ==> Chain(h) by {
      assert forall k :: 0 <= k < |h| ==> h[k] == h'[k];
    }
  }

  lemma UnexpectedWriteBreaks(db: Db, tx: Tx, i: IntentId)
    requires Audited(db, i) && Hits(db, tx, i, UNEXPECTED)
    ensures BrokenAt(RunTx(db, tx), i)
  {
    var h, c := HistoryOf(db.history, i), Change(Some(PENDING), FAILED);
    HistoryAppend(db.history, HistoryRow(i, c), i);
    assert (h + [c])[|h|].from != Some((h + [c])[|h| - 1].to);
  }

  /** Either in order or broken: whichever transaction runs, a history is broken by exactly a FAILED write of its intent
      over a row no longer PENDING, and for good. */
  lemma TxKeepsAudited(db: Db, tx: Tx, i: IntentId)
    requires Audited(db, i) || BrokenAt(db, i)
    ensures if Audited(db, i) && !Hits(db, tx, i, UNEXPECTED) then Audited(RunTx(db, tx), i)
            else BrokenAt(RunTx(db, tx), i)
  {
    if BrokenAt(db, i) {
      BrokenIsNotAudited(db, i);
      BrokenStays(db, tx, i);
    } else if Hits(db, tx, i, UNEXPECTED) {
      UnexpectedWriteBreaks(db, tx, i);
    } else {
      KeepsAudited(db, tx, i);
    }
  }

  // ----- Orders and attempts -----

  lemma {:induction false} FindOrderSome(orders: seq<Order>, o: OrderId)
    ensures FindOrder(orders, o).Some? ==> Order(o, FindOrder(orders, o).value) in orders
    ensures FindOrder(orders, o).None? ==> forall r :: r in orders ==> r.id != o
    decreases |orders|
  {
    if orders != [] {
      FindOrderSome(orders[..|orders| - 1], o);
    }
  }

  lemma {:induction false} LatestOrderSome(orders: seq<Order>, i: IntentId)
    ensures LatestOrder(orders, i).Some? ==> Order(LatestOrder(orders, i).value, i) in orders
    ensures LatestOrder(orders, i).None? ==> forall r :: r in orders ==> r.intent != i
    decreases |orders|
  {
    if orders != [] {
      LatestOrderSome(orders[..|orders| - 1], i);
    }
  }

  /** No later order row has this intent. */
  ghost predicate IsLatest(orders: seq<Order>, i: IntentId, o: OrderId) {
    exists k :: 0 <= k < |orders| && orders[k] == Order(o, i) && forall j :: k < j < |orders| ==> orders[j].intent != i
  }

  lemma {:induction false} LatestOrderIsLast(orders: seq<Order>, i: IntentId, o: OrderId)
    ensures LatestOrder(orders, i) == Some(o) <==> IsLatest(orders, i, o)
    decreases |orders|
  {
    if orders != [] {
      var n := |orders| - 1;
      LatestOrderIsLast(orders[..n], i, o);
      if orders[n].intent == i {
        if orders[n].id == o { assert orders[n] == Order(o, i); }
      } else {
        assert forall k :: 0 <= k < n ==> orders[..n][k] == orders[k];
        if IsLatest(orders[..n], i, o) {
          var k :| 0 <= k < n && orders[k] == Order(o, i) && forall j :: k < j < n ==> orders[j].intent != i;
          assert forall j :: k < j < |orders| ==> orders[j].intent != i;
        }
        if IsLatest(orders, i, o) {
          var k :| 0 <= k < |orders| && orders[k] == Order(o, i)
                   && forall j :: k < j < |orders| ==> orders[j].intent != i;
          assert orders[..n][k] == Order(o, i) && forall j :: k < j < n ==> orders[..n][j].intent != i;
        }
      }
    }
  }

  lemma PersistKeepsOrders(env: Env, db: Db, i: IntentId, o: OrderId)
    requires OrdersOk(env, db) && o == env.orderFor(i)
    ensures OrdersOk(env, PersistOrder(db, i, o))
  {
    FindOrderSome(db.orders, o);
  }

  lemma OrdersFrame(env: Env, db: Db, db': Db)
    requires OrdersOk(env, db) && db'.orders == db.orders && db.intents.Keys <= db'.intents.Keys
    ensures OrdersOk(env, db')
  {
  }

  lemma KeepsOrders(env: Env, db: Db, tx: Tx)
    requires OrdersOk(env, db) && Routed(env, tx)
    ensures OrdersOk(env, RunTx(db, tx))
  {
    if tx.TxPersist? {
      PersistKeepsOrders(env, db, tx.i, tx.o);
    } else {
      TxTouchesOneIntent(db, tx);
      TxAddsOrders(db, tx);
      OrdersFrame(env, db, RunTx(db, tx));
    }
  }

  lemma {:induction false} NumbersMark(attempts: seq<Attempt>, p: PaymentId, status: AttemptStatus, i: IntentId)
    ensures NumbersOf(MarkAttempt(attempts, p, status), i) == NumbersOf(attempts, i)
    decreases |attempts|
  {
    if attempts != [] {
      var rest := attempts[..|attempts| - 1];
      NumbersMark(rest, p, status, i);
      assert MarkAttempt(attempts, p, status)[..|attempts| - 1] == MarkAttempt(rest, p, status);
    }
  }

  lemma AppendKeepsAttempts(db: Db, i: IntentId, p: Option<PaymentId>, status: AttemptStatus)
    requires AttemptsOk(db) && (p.Some? ==> !HasAttempt(db.attempts, p.value))
    ensures AttemptsOk(db.(attempts := db.attempts + [Attempt(i, MaxNumber(db.attempts, i) + 1, p, status)]))
  {
    var a := Attempt(i, MaxNumber(db.attempts, i) + 1, p, status);
    forall j
      ensures NumbersOf(db.attempts + [a], j) == UpTo(MaxNumber(db.attempts + [a], j))
    {
      assert (db.attempts + [a])[..|db.attempts|] == db.attempts;
      MaxNumberAppend(db.attempts, a, j);
      assert NumbersOf(db.attempts, j) == UpTo(MaxNumber(db.attempts, j));
    }
    var s := db.attempts + [a];
    forall x, y | 0 <= x < y < |s| && s[x].payment.Some?
      ensures s[x].payment != s[y].payment
    {
      assert s[x] == db.attempts[x] && s[x] in db.attempts;
    }
  }

  lemma RecordKeepsAttempts(db: Db, i: IntentId, p: PaymentId, status: AttemptStatus)
    requires AttemptsOk(db)
    ensures AttemptsOk(RecordAttempt(db, i, p, status))
  {
    if HasAttempt(db.attempts, p) {
      forall j
        ensures NumbersOf(MarkAttempt(db.attempts, p, status), j)
                == UpTo(MaxNumber(MarkAttempt(db.attempts, p, status), j))
      {
        NumbersMark(db.attempts, p, status, j);
        MaxNumberMark(db.attempts, p, status, j);
      }
    } else {
      AppendKeepsAttempts(db, i, Some(p), status);
    }
  }

  lemma AttemptsFrame(db: Db, db': Db)
    requires AttemptsOk(db) && db'.attempts == db.attempts
    ensures AttemptsOk(db')
  {
  }

  lemma KeepsAttempts(db: Db, tx: Tx)
    requires AttemptsOk(db)
    ensures AttemptsOk(RunTx(db, tx))
  {
    match tx
    case TxApply(i, f, now) =>
      if i in db.intents {
        var d := Decide(db.intents[i], f);
        if d.Mismatch? { RecordKeepsAttempts(db, i, f.paymentId, Mismatched); }
        if d.Advance? {
          RecordKeepsAttempts(db, i, f.paymentId, Reached(d.to));
          AttemptsFrame(RecordAttempt(db, i, f.paymentId, Reached(d.to)), RunTx(db, tx));
        }
      }
    case TxReport(i, p) =>
      if i in db.intents && (p.Some? ==> !HasAttempt(db.attempts, p.value)) {
        AppendKeepsAttempts(db, i, p, ClientReported);
      }
    case _ => AttemptsFrame(db, RunTx(db, tx));
  }

  // ----- Settled attempts -----

  /** Recording an attempt leaves one row for its payment, with the new status; other payments' rows stay. */
  lemma RecordAttemptRows(db: Db, i: IntentId, p: PaymentId, status: AttemptStatus)
    ensures HasAttempt(RecordAttempt(db, i, p, status).attempts, p)
    ensures forall a :: a in RecordAttempt(db, i, p, status).attempts && a.payment == Some(p) ==> a.status == status
    ensures forall a: Attempt :: a.payment != Some(p) ==>
              (a in RecordAttempt(db, i, p, status).attempts <==> a in db.attempts)
  {
    var s := RecordAttempt(db, i, p, status).attempts;
    if HasAttempt(db.attempts, p) {
      var k :| 0 <= k < |db.attempts| && db.attempts[k].payment == Some(p);
      assert s[k] in s && s[k].payment == Some(p);
      forall a: Attempt | a.payment != Some(p) && a in db.attempts
        ensures a in s
      {
        var m :| 0 <= m < |db.attempts| && db.attempts[m] == a;
        assert s[m] == a;
      }
    } else {
      assert s[|db.attempts|] in s;
    }
  }

  /** The payment's attempt is on record with this status. */
  predicate OnRecord(attempts: seq<Attempt>, p: PaymentId, status: AttemptStatus) {
    HasAttempt(attempts, p) && forall a :: a in attempts && a.payment == Some(p) ==> a.status == status
  }

  /** What a fact leaves on record: how far it took its intent, or that a capture's amount or currency was not the
      intent's, which changes nothing else; a fact that comes too late or says nothing leaves everything as it was. */
  lemma FactOnRecord(db: Db, i: IntentId, f: GatewayPayment, now: int)
    requires i in db.intents && Live(db.intents[i].status)
    ensures var row, db' := db.intents[i], ApplyOutcome(db, i, f, now);
      if f.status == Captured && row.status !in {COMPLETED, EXPIRED} then
        if f.amount == row.amount && f.currency == row.currency
        then OnRecord(db'.attempts, f.paymentId, Reached(SUCCEEDED))
        else OnRecord(db'.attempts, f.paymentId, Mismatched) && db' == db.(attempts := db'.attempts)
      else if f.status == GatewayStatus.Failed && row.status in {PENDING, PROCESSING} then
        OnRecord(db'.attempts, f.paymentId, Reached(FAILED))
      else if f.status == Authorized && row.status == PENDING then
        OnRecord(db'.attempts, f.paymentId, Reached(PROCESSING))
      else db' == db
  {
    ApplyAttempts(db, i, f, now);
    var d := Decide(db.intents[i], f);
    if d.Mismatch? { RecordAttemptRows(db, i, f.paymentId, Mismatched); }
    if d.Advance? { RecordAttemptRows(db, i, f.paymentId, Reached(d.to)); }
  }

  /** Recording an attempt for another payment leaves a settled one alone. */
  lemma RecordKeepsSettled(db: Db, i: IntentId, p: PaymentId, status: AttemptStatus, q: PaymentId)
    requires SettledPayment(db, q) && q != p
    ensures SettledPayment(RecordAttempt(db, i, p, status), q)
  {
    RecordAttemptRows(db, i, p, status);
    var a :| a in db.attempts && a.payment == Some(q);
    assert a in RecordAttempt(db, i, p, status).attempts;
  }

  lemma SettledFrame(db: Db, db': Db, q: PaymentId)
    requires SettledPayment(db, q) && db'.attempts == db.attempts
    ensures SettledPayment(db', q)
  {
  }

  lemma ReportKeepsSettled(db: Db, i: IntentId, p: Option<PaymentId>, q: PaymentId)
    requires SettledPayment(db, q)
    ensures SettledPayment(ReportFailure(db, i, p), q)
  {
    var a :| a in db.attempts && a.payment == Some(q);
    assert a in ReportFailure(db, i, p).attempts;
  }

  /** A routed fact touches the attempt of a settled payment only if its intent is no longer completed. */
  lemma ApplyKeepsSettled(env: Env, db: Db, i: IntentId, f: GatewayPayment, now: int, q: PaymentId)
    requires FreshOrders(env) && BookedOk(env, db) && env.orderOf(f.paymentId) == env.orderFor(i) && i in db.intents
    requires q in db.transactions && Paid(db, db.transactions[q].intent) && SettledPayment(db, q)
    ensures SettledPayment(ApplyOutcome(db, i, f, now), q)
  {
    ApplyAttempts(db, i, f, now);
    var d := Decide(db.intents[i], f);
    if d.Mismatch? || d.Advance? {
      var recorded := RecordAttempt(db, i, f.paymentId, if d.Mismatch? then Mismatched else Reached(d.to));
      RecordKeepsSettled(db, i, f.paymentId, if d.Mismatch? then Mismatched else Reached(d.to), q);
      SettledFrame(recorded, ApplyOutcome(db, i, f, now), q);
    } else {
      SettledFrame(db, ApplyOutcome(db, i, f, now), q);
    }
  }

  lemma KeepsSettledPayment(env: Env, db: Db, tx: Tx, q: PaymentId)
    requires FreshOrders(env) && BookedOk(env, db) && Routed(env, tx)
    requires q in db.transactions && Paid(db, db.transactions[q].intent) && SettledPayment(db, q)
    ensures SettledPayment(RunTx(db, tx), q)
  {
    if tx.TxApply? {
      if tx.i in db.intents { ApplyKeepsSettled(env, db, tx.i, tx.f, tx.now, q); }
    } else if tx.TxReport? {
      ReportKeepsSettled(db, tx.i, tx.p, q);
    } else {
      SettledFrame(db, RunTx(db, tx), q);
    }
  }

  /** The transaction that books a payment also records its attempt as SUCCEEDED. */
  lemma BookingSettles(db: Db, tx: Tx, q: PaymentId)
    requires q !in db.transactions && q in RunTx(db, tx).transactions
    ensures SettledPayment(RunTx(db, tx), q) && tx.i == RunTx(db, tx).transactions[q].intent
  {
    if tx.TxApply? && tx.i in db.intents {
      ApplyMoney(db, tx.i, tx.f, tx.now);
      ApplyAttempts(db, tx.i, tx.f, tx.now);
      RecordAttemptRows(db, tx.i, q, Reached(SUCCEEDED));
    }
  }

  /** While no FAILED write of the log meets the intent COMPLETED, the transaction for it has a SUCCEEDED attempt. */
  lemma {:induction false} LogSettles(env: Env, log: seq<Tx>, i: IntentId, q: PaymentId)
    requires FreshOrders(env) && (forall tx :: tx in log ==> Routed(env, tx)) && Spares(EMPTY, log, i, PAID)
    requires q in RunAll(EMPTY, log).transactions && RunAll(EMPTY, log).transactions[q].intent == i
    ensures SettledPayment(RunAll(EMPTY, log), q)
    decreases |log|
  {
    if log != [] {
      var rest, tx := log[..|log| - 1], log[|log| - 1];
      var db := RunAll(EMPTY, rest);
      assert tx in log && forall x :: x in rest ==> x in log;
      if q in db.transactions {
        TransactionsStay(db, tx, q);
        LogSettles(env, rest, i, q);
        LogKeepsBooked(env, EMPTY, rest);
        LogKeepsPaid(env, EMPTY, rest, i);
        KeepsSettledPayment(env, db, tx, q);
      } else {
        BookingSettles(db, tx, q);
      }
    }
  }

  lemma KeepsSettled(env: Env, db: Db, tx: Tx)
    requires FreshOrders(env) && LedgerOk(env, db) && SettledOk(db) && Routed(env, tx)
    ensures SettledOk(RunTx(db, tx))
  {
    forall q | q in RunTx(db, tx).transactions
      ensures SettledPayment(RunTx(db, tx), q)
    {
      if q in db.transactions { KeepsSettledPayment(env, db, tx, q); } else { BookingSettles(db, tx, q); }
    }
  }

  /** The attempt row behind a transaction keeps its status as well as its place while its intent is paid up. */
  lemma SettledAttemptStays(env: Env, db: Db, tx: Tx, k: nat)
    requires FreshOrders(env) && BookedOk(env, db) && Routed(env, tx) && k < |db.attempts|
    requires db.attempts[k].payment.Some? && db.attempts[k].payment.value in db.transactions
    requires Paid(db, db.transactions[db.attempts[k].payment.value].intent)
    ensures k < |RunTx(db, tx).attempts| && RunTx(db, tx).attempts[k] == db.attempts[k]
  {
    AttemptKeepsPlace(db, tx, k);
    if tx.TxApply? && tx.i in db.intents { ApplyAttempts(db, tx.i, tx.f, tx.now); }
  }

  // ----- The whole invariant -----

  lemma KeepsDbOk(env: Env, db: Db, tx: Tx)
    requires FreshOrders(env) && DbOk(env, db) && Routed(env, tx) && OverPending(db, tx)
    ensures DbOk(env, RunTx(db, tx))
  {
    KeepsLedger(env, db, tx);
    forall i
      ensures Audited(RunTx(db, tx), i)
    {
      KeepsAudited(db, tx, i);
    }
    KeepsOrders(env, db, tx);
    KeepsAttempts(db, tx);
    KeepsSettled(env, db, tx);
  }

  lemma EmptyOk(env: Env)
    ensures DbOk(env, EMPTY)
  {
  }

  ghost predicate Broken(db: Db) {
    exists i :: BrokenAt(db, i)
  }

  lemma BrokenIsNotOk(env: Env, db: Db)
    requires Broken(db)
    ensures !DbOk(env, db)
  {
    var i :| BrokenAt(db, i);
    BrokenIsNotAudited(db, i);
  }

  lemma SomeBrokenStays(db: Db, tx: Tx)
    requires Broken(db)
    ensures Broken(RunTx(db, tx))
  {
    var i :| BrokenAt(db, i);
    BrokenStays(db, tx, i);
  }

  lemma UnguardedWriteBreaks(db: Db, tx: Tx)
    requires AuditOk(db) && !OverPending(db, tx)
    ensures Broken(RunTx(db, tx))
  {
    UnexpectedWriteBreaks(db, tx, tx.i);
  }

  /** Every routed transaction keeps the invariant, except for exactly the FAILED write over a row no longer PENDING. */
  lemma TxKeepsDbOk(env: Env, db: Db, tx: Tx)
    requires FreshOrders(env) && DbOk(env, db) && Routed(env, tx)
    ensures DbOk(env, RunTx(db, tx)) <==> OverPending(db, tx)
  {
    if OverPending(db, tx) {
      KeepsDbOk(env, db, tx);
    } else {
      UnguardedWriteBreaks(db, tx);
      BrokenIsNotOk(env, RunTx(db, tx));
    }
  }

  /** Each FAILED write of the log finds its row PENDING. */
  predicate OverPendingLog(db: Db, log: seq<Tx>) {
    log == []
    || (OverPendingLog(db, log[..|log| - 1]) && OverPending(RunAll(db, log[..|log| - 1]), log[|log| - 1]))
  }

  /** After any log the store is sound if and only if each FAILED write in it found its row PENDING; nothing that
      comes later makes up for one that did not. */
  lemma {:induction false} LogKeepsDbOk(env: Env, db: Db, log: seq<Tx>)
    requires FreshOrders(env) && DbOk(env, db) && forall tx :: tx in log ==> Routed(env, tx)
    ensures DbOk(env, RunAll(db, log)) <==> OverPendingLog(db, log)
    ensures !OverPendingLog(db, log) ==> Broken(RunAll(db, log))
    decreases |log|
  {
    if log != [] {
      var rest, tx := log[..|log| - 1], log[|log| - 1];
      assert tx in log && forall x :: x in rest ==> x in log;
      LogKeepsDbOk(env, db, rest);
      if OverPendingLog(db, rest) {
        TxKeepsDbOk(env, RunAll(db, rest), tx);
        if !OverPending(RunAll(db, rest), tx) { UnguardedWriteBreaks(RunAll(db, rest), tx); }
      } else {
        SomeBrokenStays(RunAll(db, rest), tx);
        BrokenIsNotOk(env, RunAll(db, log));
      }
    }
  }

  /** The number a new attempt takes is free, so (intent, attempt_number) is never violated. */
  lemma NextNumberIsFree(db: Db, i: IntentId)
    ensures forall a :: a in db.attempts && a.intent == i ==> a.number != MaxNumber(db.attempts, i) + 1
  {
    forall a | a in db.attempts && a.intent == i
      ensures a.number != MaxNumber(db.attempts, i) + 1
    {
      MaxNumberBounds(db.attempts, a);
    }
  }
}
