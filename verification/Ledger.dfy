/** The payment tables and the transactions that change them, each as a function from store to store. */
module Ledger {
  import opened Options
  import opened Lifecycle

  datatype IntentId = IntentId(raw: string)
  datatype OrderId = OrderId(raw: string)
  datatype PaymentId = PaymentId(raw: string)

  datatype Intent = Intent(amount: int, currency: string, status: State, updatedAt: int)
  datatype Order = Order(id: OrderId, intent: IntentId)
  datatype AttemptStatus = Reached(state: State) | Mismatched | ClientReported
  datatype Attempt = Attempt(intent: IntentId, number: nat, payment: Option<PaymentId>, status: AttemptStatus)
  datatype Transaction = Transaction(intent: IntentId, amount: int, currency: string)
  datatype HistoryRow = HistoryRow(intent: IntentId, change: Change)

  /** Committed contents. Orders, attempts and history are kept in insertion (commit) order. */
  datatype Db = Db(
    intents: map<IntentId, Intent>,
    orders: seq<Order>,
    attempts: seq<Attempt>,
    transactions: map<PaymentId, Transaction>,
    history: seq<HistoryRow>)

  const EMPTY: Db := Db(map[], [], [], map[], [])

  /** A payment as the gateway reports it. */
  datatype GatewayPayment = GatewayPayment(
    paymentId: PaymentId, orderId: OrderId, status: GatewayStatus, amount: int, currency: string)

  // ----- Queries -----

  /** The intent a gateway order belongs to. */
  function FindOrder(orders: seq<Order>, o: OrderId): Option<IntentId> {
    if orders == [] then None
    else if orders[|orders| - 1].id == o then Some(orders[|orders| - 1].intent)
    else FindOrder(orders[..|orders| - 1], o)
  }

  /** The most recent order of an intent. */
  function LatestOrder(orders: seq<Order>, i: IntentId): Option<OrderId> {
    if orders == [] then None
    else if orders[|orders| - 1].intent == i then Some(orders[|orders| - 1].id)
    else LatestOrder(orders[..|orders| - 1], i)
  }

  predicate HasAttempt(attempts: seq<Attempt>, p: PaymentId) {
    exists a | a in attempts :: a.payment == Some(p)
  }

  /** COALESCE(MAX(attempt_number), 0) over one intent. */
  function MaxNumber(attempts: seq<Attempt>, i: IntentId): nat {
    if attempts == [] then 0
    else
      var rest := MaxNumber(attempts[..|attempts| - 1], i);
      var a := attempts[|attempts| - 1];
      if a.intent == i && a.number > rest then a.number else rest
  }

  function HistoryOf(history: seq<HistoryRow>, i: IntentId): seq<Change> {
    if history == [] then []
    else
      var rest := HistoryOf(history[..|history| - 1], i);
      if history[|history| - 1].intent == i then rest + [history[|history| - 1].change] else rest
  }

  // ----- Single statements -----

  function MarkAttempt(attempts: seq<Attempt>, p: PaymentId, status: AttemptStatus): seq<Attempt> {
    seq(|attempts|, k requires 0 <= k < |attempts| =>
      if attempts[k].payment == Some(p) then attempts[k].(status := status) else attempts[k])
  }

  /** nextAttemptNumber followed by the upsert: a known payment keeps its row and number. */
  function RecordAttempt(db: Db, i: IntentId, p: PaymentId, status: AttemptStatus): Db {
    if HasAttempt(db.attempts, p) then db.(attempts := MarkAttempt(db.attempts, p, status))
    else db.(attempts := db.attempts + [Attempt(i, MaxNumber(db.attempts, i) + 1, Some(p), status)])
  }

  function SetStatus(db: Db, i: IntentId, s: State, now: int): Db {
    if i in db.intents then db.(intents := db.intents[i := db.intents[i].(status := s, updatedAt := now)]) else db
  }

  function AddHistory(db: Db, i: IntentId, from: Option<State>, to: State): Db {
    db.(history := db.history + [HistoryRow(i, Change(from, to))])
  }

  function AddTransaction(db: Db, i: IntentId, f: GatewayPayment): Db {
    if f.paymentId in db.transactions then db
    else db.(transactions := db.transactions[f.paymentId := Transaction(i, f.amount, f.currency)])
  }

  /** A status update with its history row. */
  function Move(db: Db, i: IntentId, from: State, to: State, now: int): Db {
    AddHistory(SetStatus(db, i, to, now), i, Some(from), to)
  }

  // ----- Transactions -----

  datatype Decision = Unmapped | Duplicate | OutOfOrder | Mismatch | Advance(to: State)

  /** The branch applyGatewayOutcome takes for a locked row. */
  function Decide(row: Intent, f: GatewayPayment): Decision {
    match TargetState(f.status)
    case None => Unmapped
    case Some(to) =>
      if IsTerminal(row.status) || row.status == to then Duplicate
      else if !CanTransition(row.status, to) then OutOfOrder
      else if to == SUCCEEDED && (f.amount != row.amount || f.currency != row.currency) then Mismatch
      else Advance(to)
  }

  function ApplyOutcome(db: Db, i: IntentId, f: GatewayPayment, now: int): Db {
    if i !in db.intents then db
    else
      match Decide(db.intents[i], f)
      case Unmapped => db
      case Duplicate => db
      case OutOfOrder => db
      case Mismatch => RecordAttempt(db, i, f.paymentId, Mismatched)
      case Advance(to) =>
        var moved := Move(RecordAttempt(db, i, f.paymentId, Reached(to)), i, db.intents[i].status, to, now);
        if to == SUCCEEDED then Move(AddTransaction(moved, i, f), i, SUCCEEDED, COMPLETED, now) else moved
  }

  predicate MayExpire(s: State) {
    !IsTerminal(s) && CanTransition(s, EXPIRED)
  }

  function Expire(db: Db, i: IntentId, now: int): Db {
    if i in db.intents && MayExpire(db.intents[i].status) then Move(db, i, db.intents[i].status, EXPIRED, now) else db
  }

  /** A duplicate payment id violates the unique index and rolls the transaction back. */
  function ReportFailure(db: Db, i: IntentId, p: Option<PaymentId>): Db {
    if i !in db.intents || (p.Some? && HasAttempt(db.attempts, p.value)) then db
    else db.(attempts := db.attempts + [Attempt(i, MaxNumber(db.attempts, i) + 1, p, ClientReported)])
  }

  /** Intent row with both opening history rows; a taken id or a non-positive amount rolls back. */
  function CreateIntent(db: Db, i: IntentId, amount: int, currency: string, now: int): Db {
    if i in db.intents || amount <= 0 then db
    else
      var inserted := db.(intents := db.intents[i := Intent(amount, currency, CREATED, now)]);
      Move(AddHistory(inserted, i, None, CREATED), i, CREATED, PENDING, now)
  }

  /** ON CONFLICT DO NOTHING on the gateway order id; the foreign key needs the intent. */
  function PersistOrder(db: Db, i: IntentId, o: OrderId): Db {
    if i !in db.intents || FindOrder(db.orders, o).Some? then db else db.(orders := db.orders + [Order(o, i)])
  }

  /** The status write of a failed creation: no lock taken first, no legality check, PENDING assumed. The
      history row references the intent, so an unknown id rolls back. */
  function FailCreation(db: Db, i: IntentId, now: int): Db {
    if i !in db.intents then db else Move(db, i, PENDING, FAILED, now)
  }

  datatype Tx =
    | TxApply(i: IntentId, f: GatewayPayment, now: int)
    | TxExpire(i: IntentId, now: int)
    | TxReport(i: IntentId, p: Option<PaymentId>)
    | TxCreate(i: IntentId, amount: int, currency: string, now: int)
    | TxPersist(i: IntentId, o: OrderId)
    | TxFail(i: IntentId, now: int)

  /** One transaction run alone. */
  function RunTx(db: Db, tx: Tx): Db {
    match tx
    case TxApply(i, f, now) => ApplyOutcome(db, i, f, now)
    case TxExpire(i, now) => Expire(db, i, now)
    case TxReport(i, p) => ReportFailure(db, i, p)
    case TxCreate(i, amount, currency, now) => CreateIntent(db, i, amount, currency, now)
    case TxPersist(i, o) => PersistOrder(db, i, o)
    case TxFail(i, now) => FailCreation(db, i, now)
  }

  /** Transactions run one after another. */
  function RunAll(db: Db, log: seq<Tx>): Db {
    if log == [] then db else RunTx(RunAll(db, log[..|log| - 1]), log[|log| - 1])
  }

  /** The transactions that throw and roll back: a known id created again or for no amount, any other on an unknown
      intent, a payment id reported twice. */
  predicate Rejected(db: Db, tx: Tx) {
    match tx
    case TxCreate(i, amount, _, _) => i in db.intents || amount <= 0
    case TxReport(i, p) => i !in db.intents || (p.Some? && HasAttempt(db.attempts, p.value))
    case _ => tx.i !in db.intents
  }

  lemma RejectedChangesNothing(db: Db, tx: Tx)
    requires Rejected(db, tx)
    ensures RunTx(db, tx) == db
  {
  }

  /** No transaction of the log throws. */
  predicate NoneRejected(db: Db, log: seq<Tx>) {
    log == [] || (NoneRejected(db, log[..|log| - 1]) && !Rejected(RunAll(db, log[..|log| - 1]), log[|log| - 1]))
  }

  // ----- What one transaction can reach -----

  /** No transaction touches another intent's row, drops a row, or invents one except by creating it. */
  lemma TxTouchesOneIntent(db: Db, tx: Tx)
    ensures RunTx(db, tx).intents.Keys ==
            if tx.TxCreate? && tx.amount > 0 then db.intents.Keys + {tx.i} else db.intents.Keys
    ensures forall j :: j in db.intents && j != tx.i ==> RunTx(db, tx).intents[j] == db.intents[j]
    ensures tx.TxReport? || tx.TxPersist? || tx.TxCreate? ==>
              forall j :: j in db.intents ==> RunTx(db, tx).intents[j] == db.intents[j]
  {
    if tx.TxApply? { ApplyTouchesOneIntent(db, tx.i, tx.f, tx.now); }
  }

  lemma ApplyTouchesOneIntent(db: Db, i: IntentId, f: GatewayPayment, now: int)
    ensures var db' := ApplyOutcome(db, i, f, now);
      && db'.intents.Keys == db.intents.Keys
      && db'.orders == db.orders
      && forall j :: j in db.intents && j != i ==> db'.intents[j] == db.intents[j]
  {
    if i in db.intents {
      match Decide(db.intents[i], f)
      case Advance(to) =>
        var moved := Move(RecordAttempt(db, i, f.paymentId, Reached(to)), i, db.intents[i].status, to, now);
        assert moved.intents.Keys == db.intents.Keys && moved.orders == db.orders;
      case _ =>
    }
  }

  /** Money moves only with the status: a transaction row appears just when the row goes to COMPLETED. */
  lemma ApplyMoney(db: Db, i: IntentId, f: GatewayPayment, now: int)
    requires i in db.intents
    ensures var db' := ApplyOutcome(db, i, f, now);
      db'.transactions ==
        if Decide(db.intents[i], f) == Advance(SUCCEEDED) && f.paymentId !in db.transactions
        then db.transactions[f.paymentId := Transaction(i, db.intents[i].amount, db.intents[i].currency)]
        else db.transactions
  {
  }

  /** The row applyGatewayOutcome leaves behind. */
  lemma ApplyRow(db: Db, i: IntentId, f: GatewayPayment, now: int)
    requires i in db.intents
    ensures var row := db.intents[i]; var d := Decide(row, f); var db' := ApplyOutcome(db, i, f, now);
      && i in db'.intents
      && db'.intents[i] ==
         if d == Advance(SUCCEEDED) then row.(status := COMPLETED, updatedAt := now)
         else if d.Advance? then row.(status := d.to, updatedAt := now)
         else row
  {
  }

  /** Order rows are only ever added, by the transaction that persists one. */
  lemma TxAddsOrders(db: Db, tx: Tx)
    ensures RunTx(db, tx).orders ==
            if tx.TxPersist? && tx.i in db.intents && FindOrder(db.orders, tx.o).None?
            then db.orders + [Order(tx.o, tx.i)]
            else db.orders
  {
  }

  /** Attempt rows keep their place, number, intent and payment id for good, whatever runs. */
  lemma AttemptKeepsPlace(db: Db, tx: Tx, k: nat)
    requires k < |db.attempts|
    ensures k < |RunTx(db, tx).attempts|
    ensures var a, b := db.attempts[k], RunTx(db, tx).attempts[k];
      b.number == a.number && b.intent == a.intent && b.payment == a.payment
  {
    if tx.TxApply? { ApplyAttempts(db, tx.i, tx.f, tx.now); }
  }

  lemma ApplyAttempts(db: Db, i: IntentId, f: GatewayPayment, now: int)
    ensures ApplyOutcome(db, i, f, now).attempts ==
      if i !in db.intents then db.attempts
      else
        match Decide(db.intents[i], f)
        case Mismatch => RecordAttempt(db, i, f.paymentId, Mismatched).attempts
        case Advance(to) => RecordAttempt(db, i, f.paymentId, Reached(to)).attempts
        case _ => db.attempts
  {
  }

  /** History is append-only. */
  lemma HistoryGrows(db: Db, tx: Tx, i: IntentId)
    ensures var h, h' := HistoryOf(db.history, i), HistoryOf(RunTx(db, tx).history, i);
      |h| <= |h'| && h'[..|h|] == h
  {
    HistoryAppends(db, tx);
    HistoryPrefix(db.history, RunTx(db, tx).history[|db.history|..], i);
  }

  lemma {:induction false} HistoryPrefix(a: seq<HistoryRow>, b: seq<HistoryRow>, i: IntentId)
    ensures |HistoryOf(a, i)| <= |HistoryOf(a + b, i)| && HistoryOf(a + b, i)[..|HistoryOf(a, i)|] == HistoryOf(a, i)
    decreases |b|
  {
    if b == [] {
      assert a + b == a;
    } else {
      HistoryPrefix(a, b[..|b| - 1], i);
      assert (a + b)[..|a + b| - 1] == a + b[..|b| - 1];
    }
  }

  lemma HistoryAppends(db: Db, tx: Tx)
    ensures var history := RunTx(db, tx).history;
      |db.history| <= |history| && history == db.history + history[|db.history|..]
  {
  }

  // ----- Facts about the queries -----

  lemma FindOrderAppend(orders: seq<Order>, x: Order, o: OrderId)
    ensures FindOrder(orders + [x], o) == if x.id == o then Some(x.intent) else FindOrder(orders, o)
  {
  }

  /** An order id never changes its intent. */
  lemma FindOrderStays(db: Db, tx: Tx, o: OrderId)
    requires FindOrder(db.orders, o).Some?
    ensures FindOrder(RunTx(db, tx).orders, o) == FindOrder(db.orders, o)
  {
  }

  /** A transaction row, once written, stays as it is. */
  lemma TransactionsStay(db: Db, tx: Tx, p: PaymentId)
    requires p in db.transactions
    ensures p in RunTx(db, tx).transactions && RunTx(db, tx).transactions[p] == db.transactions[p]
  {
  }

  lemma HistoryAppend(history: seq<HistoryRow>, r: HistoryRow, i: IntentId)
    ensures HistoryOf(history + [r], i) ==
            if r.intent == i then HistoryOf(history, i) + [r.change] else HistoryOf(history, i)
  {
  }

  lemma MaxNumberAppend(attempts: seq<Attempt>, a: Attempt, i: IntentId)
    ensures MaxNumber(attempts + [a], i) ==
            if a.intent == i && a.number > MaxNumber(attempts, i) then a.number else MaxNumber(attempts, i)
  {
  }

  lemma {:induction false} MaxNumberMark(attempts: seq<Attempt>, p: PaymentId, status: AttemptStatus, i: IntentId)
    ensures MaxNumber(MarkAttempt(attempts, p, status), i) == MaxNumber(attempts, i)
    decreases |attempts|
  {
    if attempts != [] {
      var rest := attempts[..|attempts| - 1];
      MaxNumberMark(rest, p, status, i);
      assert MarkAttempt(attempts, p, status)[..|attempts| - 1] == MarkAttempt(rest, p, status);
    }
  }

  lemma {:induction false} MaxNumberBounds(attempts: seq<Attempt>, a: Attempt)
    requires a in attempts
    ensures a.number <= MaxNumber(attempts, a.intent)
    decreases |attempts|
  {
    var rest := attempts[..|attempts| - 1];
    if a != attempts[|attempts| - 1] {
      assert a in rest;
      MaxNumberBounds(rest, a);
    }
  }
}
