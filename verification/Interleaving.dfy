/** Transactions run statement by statement, interleaved, against one committed store: each statement sees
    what is committed when it runs, writes go to a private redo log, row and key locks are held to the end. */
module Interleaving {
  import opened Options
  import opened Lifecycle
  import opened Ledger
  import opened Invariants

  /** What a statement writes once its conflicts are resolved. */
  datatype Op =
    | PutIntent(i: IntentId, row: Intent)
    | PutStatus(i: IntentId, s: State, now: int)
    | PutHistory(entry: HistoryRow)
    | PutAttempt(a: Attempt)
    | PutMark(p: PaymentId, status: AttemptStatus)
    | PutTransaction(p: PaymentId, t: Transaction)
    | PutOrder(order: Order)

  function Perform(db: Db, op: Op): Db {
    match op
    case PutIntent(i, row) => db.(intents := db.intents[i := row])
    case PutStatus(i, s, now) => SetStatus(db, i, s, now)
    case PutHistory(entry) => db.(history := db.history + [entry])
    case PutAttempt(a) => db.(attempts := db.attempts + [a])
    case PutMark(p, status) => db.(attempts := MarkAttempt(db.attempts, p, status))
    case PutTransaction(p, t) => db.(transactions := db.transactions[p := t])
    case PutOrder(order) => db.(orders := db.orders + [order])
  }

  function PerformAll(db: Db, ops: seq<Op>): Db {
    if ops == [] then db else Perform(PerformAll(db, ops[..|ops| - 1]), ops[|ops| - 1])
  }

  datatype Key = RowKey(i: IntentId) | AttemptKey(p: PaymentId) | OrderKey(o: OrderId)

  datatype Stmt =
    | ReadNumber
    | Upsert(status: AttemptStatus)
    | InsertAttempt
    | InsertIntent
    | InsertOrder
    | InsertTransaction
    | Update(s: State)
    | Record(from: Option<State>, to: State)

  /** A transaction in progress: statements still to run, the attempt number it read, its redo log, its
      locks, and whether a statement raised an error. */
  datatype Cursor = Cursor(todo: seq<Stmt>, number: nat, ops: seq<Op>, held: set<Key>, failed: bool)

  /** The statements that follow the first one, given the row it read. */
  function Plan(tx: Tx, row: Option<Intent>): seq<Stmt> {
    match tx
    case TxApply(i, f, _) =>
      if row.None? then []
      else (
        match Decide(row.value, f)
        case Mismatch => [ReadNumber, Upsert(Mismatched)]
        case Advance(to) =>
          [ReadNumber, Upsert(Reached(to)), Update(to), Record(Some(row.value.status), to)]
          + if to == SUCCEEDED then [InsertTransaction, Update(COMPLETED), Record(Some(SUCCEEDED), COMPLETED)] else []
        case _ => [])
    case TxExpire(_, _) =>
      if row.Some? && MayExpire(row.value.status) then [Update(EXPIRED), Record(Some(row.value.status), EXPIRED)]
      else []
    case TxReport(_, _) => [ReadNumber, InsertAttempt]
    case TxCreate(_, _, _, _) => [InsertIntent, Record(None, CREATED), Update(PENDING), Record(Some(CREATED), PENDING)]
    case TxPersist(_, _) => [InsertOrder]
    case TxFail(_, _) => [Update(FAILED), Record(Some(PENDING), FAILED)]
  }

  /** Persisting an order locks no intent row; everything else does, before reading it. */
  function FirstLock(tx: Tx): set<Key> {
    if tx.TxPersist? then {} else {RowKey(tx.i)}
  }

  function ReadRow(db: Db, i: IntentId): Option<Intent> {
    if i in db.intents then Some(db.intents[i]) else None
  }

  function Start(db: Db, tx: Tx): Cursor {
    var row := ReadRow(db, tx.i);
    Cursor(Plan(tx, row), 0, [], FirstLock(tx), if tx.TxCreate? then row.Some? || tx.amount <= 0 else row.None?)
  }

  /** Locks the next statement must get before it runs. */
  function Wants(tx: Tx, s: Stmt): set<Key> {
    match s
    case Upsert(_) => if tx.TxApply? then {AttemptKey(tx.f.paymentId)} else {}
    case InsertTransaction => if tx.TxApply? then {AttemptKey(tx.f.paymentId)} else {}
    case InsertAttempt => if tx.TxReport? && tx.p.Some? then {AttemptKey(tx.p.value)} else {}
    case InsertOrder => if tx.TxPersist? then {OrderKey(tx.o)} else {}
    case _ => {}
  }

  /** What a statement adds to the redo log; None is a unique violation. */
  function Effect(db: Db, tx: Tx, number: nat, s: Stmt): Option<seq<Op>> {
    match s
    case ReadNumber => Some([])
    case Upsert(status) =>
      if !tx.TxApply? then None
      else if HasAttempt(db.attempts, tx.f.paymentId) then Some([PutMark(tx.f.paymentId, status)])
      else Some([PutAttempt(Attempt(tx.i, number, Some(tx.f.paymentId), status))])
    case InsertAttempt =>
      if !tx.TxReport? || (tx.p.Some? && HasAttempt(db.attempts, tx.p.value)) then None
      else Some([PutAttempt(Attempt(tx.i, number, tx.p, ClientReported))])
    case InsertIntent =>
      if !tx.TxCreate? then None else Some([PutIntent(tx.i, Intent(tx.amount, tx.currency, CREATED, tx.now))])
    case InsertOrder =>
      if !tx.TxPersist? then None
      else if FindOrder(db.orders, tx.o).Some? then Some([]) else Some([PutOrder(Order(tx.o, tx.i))])
    case InsertTransaction =>
      if !tx.TxApply? then None
      else if tx.f.paymentId in db.transactions then Some([])
      else Some([PutTransaction(tx.f.paymentId, Transaction(tx.i, tx.f.amount, tx.f.currency))])
    case Update(to) => if tx.TxReport? || tx.TxPersist? then None else Some([PutStatus(tx.i, to, tx.now)])
    case Record(from, to) => Some([PutHistory(HistoryRow(tx.i, Change(from, to)))])
  }

  function Advance(db: Db, tx: Tx, c: Cursor): Cursor
    requires c.todo != []
  {
    var s := c.todo[0];
    var effect := Effect(db, tx, c.number, s);
    Cursor(
      c.todo[1..],
      if s.ReadNumber? then MaxNumber(db.attempts, tx.i) + 1 else c.number,
      if effect.Some? then c.ops + effect.value else c.ops,
      c.held + Wants(tx, s),
      c.failed || effect.None?)
  }

  // ----- The concurrent system -----

  datatype Running = Running(tx: Tx, ghost steps: nat, c: Cursor)

  /** The committed store, the transactions in progress, and the log of those committed, in commit order. */
  datatype Sys = Sys(db: Db, active: map<nat, Running>, log: seq<Tx>)

  datatype Event = Begin(t: nat, tx: Tx) | Execute(t: nat) | Commit(t: nat) | Rollback(t: nat)

  /** No other transaction in progress holds any of these keys. */
  ghost predicate Free(s: Sys, t: nat, keys: set<Key>) {
    forall u :: u in s.active && u != t ==> s.active[u].c.held !! keys
  }

  ghost predicate Enabled(s: Sys, e: Event) {
    match e
    case Begin(t, tx) => t !in s.active && Free(s, t, FirstLock(tx))
    case Execute(t) =>
      t in s.active && !s.active[t].c.failed && s.active[t].c.todo != []
      && Free(s, t, Wants(s.active[t].tx, s.active[t].c.todo[0]))
    case Commit(t) => t in s.active && !s.active[t].c.failed && s.active[t].c.todo == []
    case Rollback(t) => t in s.active
  }

  ghost function Next(s: Sys, e: Event): Sys
    requires Enabled(s, e)
  {
    match e
    case Begin(t, tx) => s.(active := s.active[t := Running(tx, 0, Start(s.db, tx))])
    case Execute(t) =>
      var r := s.active[t];
      s.(active := s.active[t := Running(r.tx, r.steps + 1, Advance(s.db, r.tx, r.c))])
    case Commit(t) =>
      Sys(PerformAll(s.db, s.active[t].c.ops), s.active - {t}, s.log + [s.active[t].tx])
    case Rollback(t) => s.(active := s.active - {t})
  }

  ghost predicate Possible(s: Sys, es: seq<Event>)
    decreases |es|, 0
  {
    if es == [] then true
    else Possible(s, es[..|es| - 1]) && Enabled(Exec(s, es[..|es| - 1]), es[|es| - 1])
  }

  ghost function Exec(s: Sys, es: seq<Event>): Sys
    requires Possible(s, es)
    decreases |es|, 1
  {
    if es == [] then s else Next(Exec(s, es[..|es| - 1]), es[|es| - 1])
  }

  // ----- A transaction that meets no interference -----

  /** The cursor after k statements against one fixed store. */
  ghost function Reach(db: Db, tx: Tx, k: nat): Cursor {
    if k == 0 then Start(db, tx)
    else
      var c := Reach(db, tx, k - 1);
      if c.todo == [] then c else Advance(db, tx, c)
  }

  /** The cursor run to its end against one fixed store. */
  ghost function Finish(db: Db, tx: Tx, c: Cursor): Cursor
    decreases |c.todo|
  {
    if c.todo == [] then c else Finish(db, tx, Advance(db, tx, c))
  }

  lemma {:induction false} FinishReach(db: Db, tx: Tx, k: nat)
    ensures Finish(db, tx, Reach(db, tx, k)) == Finish(db, tx, Reach(db, tx, 0))
  {
    if k > 0 {
      var c := Reach(db, tx, k - 1);
      FinishReach(db, tx, k - 1);
      if c.todo == [] {
        assert Reach(db, tx, k) == c;
      } else {
        FinishAdvance(db, tx, c);
        assert Reach(db, tx, k) == Advance(db, tx, c);
      }
    }
  }

  lemma FinishAdvance(db: Db, tx: Tx, c: Cursor)
    ensures c.todo != [] ==> Finish(db, tx, Advance(db, tx, c)) == Finish(db, tx, c)
  {
  }

  /** One statement later: the rest of the plan leads to the same end. */
  ghost predicate Follows(db: Db, tx: Tx, c: Cursor, c': Cursor, statements: nat) {
    && Finish(db, tx, c') == Finish(db, tx, c)
    && statements <= |c.todo| && c'.todo == c.todo[statements..] && !c'.failed
  }

  /** A statement that writes one thing. */
  lemma WriteAlone(db: Db, tx: Tx, c: Cursor, op: Op) returns (c': Cursor)
    requires !c.failed && c.todo != [] && Effect(db, tx, c.number, c.todo[0]) == Some([op])
    ensures Follows(db, tx, c, c', 1) && PerformAll(db, c'.ops) == Perform(PerformAll(db, c.ops), op)
  {
    c' := Advance(db, tx, c);
    assert c'.ops == c.ops + [op] && c'.ops[..|c.ops|] == c.ops;
  }

  /** A statement that only reads, or finds its row already there. */
  lemma ReadAlone(db: Db, tx: Tx, c: Cursor) returns (c': Cursor)
    requires !c.failed && c.todo != [] && Effect(db, tx, c.number, c.todo[0]) == Some([])
    ensures Follows(db, tx, c, c', 1) && c'.ops == c.ops
    ensures c.todo[0].ReadNumber? ==> c'.number == MaxNumber(db.attempts, tx.i) + 1
  {
    c' := Advance(db, tx, c);
  }

  lemma MovedAlone(db: Db, tx: Tx, c: Cursor, from: State, to: State) returns (c': Cursor)
    requires tx.TxApply? || tx.TxExpire? || tx.TxFail? || tx.TxCreate?
    requires !c.failed && |c.todo| >= 2 && c.todo[0] == Update(to) && c.todo[1] == Record(Some(from), to)
    ensures Follows(db, tx, c, c', 2)
    ensures PerformAll(db, c'.ops) == Move(PerformAll(db, c.ops), tx.i, from, to, tx.now)
  {
    var c1 := WriteAlone(db, tx, c, PutStatus(tx.i, to, tx.now));
    assert c1.todo[0] == Record(Some(from), to);
    c' := WriteAlone(db, tx, c1, PutHistory(HistoryRow(tx.i, Change(Some(from), to))));
    assert c'.todo == c.todo[2..];
  }

  function RecordOp(db: Db, tx: Tx, number: nat, status: AttemptStatus): (op: Op)
    requires tx.TxApply?
    ensures Effect(db, tx, number, Upsert(status)) == Some([op])
    ensures number == MaxNumber(db.attempts, tx.i) + 1 ==>
              Perform(db, op) == RecordAttempt(db, tx.i, tx.f.paymentId, status)
  {
    if HasAttempt(db.attempts, tx.f.paymentId) then PutMark(tx.f.paymentId, status)
    else PutAttempt(Attempt(tx.i, number, Some(tx.f.paymentId), status))
  }

  lemma RecordedAlone(db: Db, tx: Tx, c: Cursor, status: AttemptStatus) returns (c': Cursor)
    requires tx.TxApply? && !c.failed && c.ops == []
    requires |c.todo| >= 2 && c.todo[0] == ReadNumber && c.todo[1] == Upsert(status)
    ensures Follows(db, tx, c, c', 2)
    ensures PerformAll(db, c'.ops) == RecordAttempt(db, tx.i, tx.f.paymentId, status)
  {
    var c1 := ReadAlone(db, tx, c);
    assert c1.todo[0] == Upsert(status) && PerformAll(db, c1.ops) == db;
    var op := RecordOp(db, tx, c1.number, status);
    c' := WriteAlone(db, tx, c1, op);
    assert c'.todo == c.todo[2..];
  }

  lemma SettledAlone(db: Db, tx: Tx, c: Cursor) returns (c': Cursor)
    requires tx.TxApply? && !c.failed && |c.todo| >= 1 && c.todo[0] == InsertTransaction
    requires PerformAll(db, c.ops).transactions == db.transactions
    ensures Follows(db, tx, c, c', 1)
    ensures PerformAll(db, c'.ops) == AddTransaction(PerformAll(db, c.ops), tx.i, tx.f)
  {
    var before := PerformAll(db, c.ops);
    if tx.f.paymentId in db.transactions {
      c' := ReadAlone(db, tx, c);
      assert AddTransaction(before, tx.i, tx.f) == before;
    } else {
      var op := PutTransaction(tx.f.paymentId, Transaction(tx.i, tx.f.amount, tx.f.currency));
      c' := WriteAlone(db, tx, c, op);
      assert AddTransaction(before, tx.i, tx.f) == Perform(before, op);
    }
  }

  lemma ApplyAlone(db: Db, tx: Tx)
    requires tx.TxApply? && tx.i in db.intents
    ensures var end := Finish(db, tx, Start(db, tx)); !end.failed && PerformAll(db, end.ops) == RunTx(db, tx)
  {
    var c := Start(db, tx);
    var status, d := db.intents[tx.i].status, Decide(db.intents[tx.i], tx.f);
    if d.Mismatch? {
      var c1 := RecordedAlone(db, tx, c, Mismatched);
    } else if d.Advance? {
      var c1 := RecordedAlone(db, tx, c, Reached(d.to));
      assert c1.todo[0] == Update(d.to) && c1.todo[1] == Record(Some(status), d.to);
      var c2 := MovedAlone(db, tx, c1, status, d.to);
      if d.to == SUCCEEDED {
        assert c2.todo == [InsertTransaction, Update(COMPLETED), Record(Some(SUCCEEDED), COMPLETED)];
        var c3 := SettledAlone(db, tx, c2);
        var c4 := MovedAlone(db, tx, c3, SUCCEEDED, COMPLETED);
      }
    }
  }

  lemma CreateAlone(db: Db, tx: Tx)
    requires tx.TxCreate? && tx.i !in db.intents && tx.amount > 0
    ensures var end := Finish(db, tx, Start(db, tx)); !end.failed && PerformAll(db, end.ops) == RunTx(db, tx)
  {
    var c := Start(db, tx);
    var c1 := WriteAlone(db, tx, c, PutIntent(tx.i, Intent(tx.amount, tx.currency, CREATED, tx.now)));
    assert c1.todo == [Record(None, CREATED), Update(PENDING), Record(Some(CREATED), PENDING)];
    var c2 := WriteAlone(db, tx, c1, PutHistory(HistoryRow(tx.i, Change(None, CREATED))));
    assert c2.todo == [Update(PENDING), Record(Some(CREATED), PENDING)];
    var c3 := MovedAlone(db, tx, c2, CREATED, PENDING);
  }

  lemma ReportAlone(db: Db, tx: Tx)
    requires tx.TxReport? && tx.i in db.intents
    ensures var end := Finish(db, tx, Start(db, tx));
      (end.failed <==> Rejected(db, tx)) && (!end.failed ==> PerformAll(db, end.ops) == RunTx(db, tx))
  {
    var c1 := ReadAlone(db, tx, Start(db, tx));
    assert c1.todo == [InsertAttempt];
    if tx.p.Some? && HasAttempt(db.attempts, tx.p.value) {
      FailureSticks(db, tx, Advance(db, tx, c1));
    } else {
      var c2 := WriteAlone(db, tx, c1, PutAttempt(Attempt(tx.i, c1.number, tx.p, ClientReported)));
    }
  }

  lemma PersistAlone(db: Db, tx: Tx)
    requires tx.TxPersist? && tx.i in db.intents
    ensures var end := Finish(db, tx, Start(db, tx)); !end.failed && PerformAll(db, end.ops) == RunTx(db, tx)
  {
    var c := Start(db, tx);
    if FindOrder(db.orders, tx.o).Some? {
      var c1 := ReadAlone(db, tx, c);
    } else {
      var c1 := WriteAlone(db, tx, c, PutOrder(Order(tx.o, tx.i)));
    }
  }

  lemma MoveOnlyAlone(db: Db, tx: Tx)
    requires (tx.TxExpire? || tx.TxFail?) && tx.i in db.intents
    ensures var end := Finish(db, tx, Start(db, tx)); !end.failed && PerformAll(db, end.ops) == RunTx(db, tx)
  {
    var status := db.intents[tx.i].status;
    if tx.TxFail? {
      var c := MovedAlone(db, tx, Start(db, tx), PENDING, FAILED);
    } else if MayExpire(status) {
      var c := MovedAlone(db, tx, Start(db, tx), status, EXPIRED);
    }
  }

  /** Statement by statement or in one step, a transaction alone does the same, and throws in the same cases. */
  lemma AloneIsAtomic(db: Db, tx: Tx)
    ensures var end := Finish(db, tx, Start(db, tx));
      (end.failed <==> Rejected(db, tx)) && (!end.failed ==> PerformAll(db, end.ops) == RunTx(db, tx))
  {
    if Start(db, tx).failed {
      FailureSticks(db, tx, Start(db, tx));
    } else {
      match tx
      case TxApply(_, _, _) => ApplyAlone(db, tx);
      case TxReport(_, _) => ReportAlone(db, tx);
      case TxCreate(_, _, _, _) => CreateAlone(db, tx);
      case TxPersist(_, _) => PersistAlone(db, tx);
      case _ => MoveOnlyAlone(db, tx);
    }
  }

  lemma {:induction false} FailureSticks(db: Db, tx: Tx, c: Cursor)
    requires c.failed
    ensures Finish(db, tx, c).failed
    decreases |c.todo|
  {
    if c.todo != [] { FailureSticks(db, tx, Advance(db, tx, c)); }
  }

  // ----- Interference -----

  /** Two stores that look the same through a set of locks; intents are never deleted. */
  ghost predicate Agree(db: Db, db': Db, tx: Tx, held: set<Key>) {
    && db.intents.Keys <= db'.intents.Keys
    && (RowKey(tx.i) in held ==>
          ReadRow(db, tx.i) == ReadRow(db', tx.i) && MaxNumber(db.attempts, tx.i) == MaxNumber(db'.attempts, tx.i))
    && (forall p :: AttemptKey(p) in held ==>
          && HasAttempt(db.attempts, p) == HasAttempt(db'.attempts, p)
          && (p in db.transactions <==> p in db'.transactions))
    && (forall o :: OrderKey(o) in held ==> FindOrder(db.orders, o).Some? == FindOrder(db'.orders, o).Some?)
  }

  lemma {:induction false} RowHeld(db: Db, tx: Tx, k: nat)
    ensures FirstLock(tx) <= Reach(db, tx, k).held
    ensures tx.TxPersist? ==> Reach(db, tx, k).todo == if k == 0 then [InsertOrder] else []
  {
    if k > 0 { RowHeld(db, tx, k - 1); }
  }

  lemma AdvanceAgrees(db: Db, db': Db, tx: Tx, c: Cursor)
    requires c.todo != [] && Agree(db, db', tx, c.held + Wants(tx, c.todo[0]))
    requires c.todo[0].ReadNumber? ==> RowKey(tx.i) in c.held
    ensures Advance(db', tx, c) == Advance(db, tx, c)
  {
  }

  /** The locks a cursor holds determine everything it has read. */
  lemma {:induction false} ReachAgrees(db: Db, db': Db, tx: Tx, k: nat)
    requires !Reach(db, tx, k).failed && Agree(db, db', tx, Reach(db, tx, k).held)
    ensures Reach(db', tx, k) == Reach(db, tx, k)
  {
    if k > 0 {
      var c := Reach(db, tx, k - 1);
      ReachAgrees(db, db', tx, k - 1);
      RowHeld(db, tx, k - 1);
      if c.todo != [] { AdvanceAgrees(db, db', tx, c); }
    }
  }

  /** A write is covered by locks on everything another transaction could read through it. */
  ghost predicate Covered(op: Op, held: set<Key>) {
    match op
    case PutIntent(i, _) => RowKey(i) in held
    case PutStatus(i, _, _) => RowKey(i) in held
    case PutHistory(_) => true
    case PutAttempt(a) => RowKey(a.intent) in held && (a.payment.Some? ==> AttemptKey(a.payment.value) in held)
    case PutMark(p, _) => AttemptKey(p) in held
    case PutTransaction(p, _) => AttemptKey(p) in held
    case PutOrder(order) => OrderKey(order.id) in held
  }

  lemma EffectIsCovered(db: Db, tx: Tx, number: nat, s: Stmt, held: set<Key>)
    requires FirstLock(tx) <= held
    ensures var effect := Effect(db, tx, number, s);
      effect.Some? ==> forall op :: op in effect.value ==> Covered(op, held + Wants(tx, s))
  {
  }

  lemma HeldCovers(ops: seq<Op>, held: set<Key>, more: set<Key>)
    requires forall op :: op in ops ==> Covered(op, held)
    ensures forall op :: op in ops ==> Covered(op, held + more)
  {
  }

  lemma {:induction false} WritesAreCovered(db: Db, tx: Tx, k: nat)
    ensures forall op :: op in Reach(db, tx, k).ops ==> Covered(op, Reach(db, tx, k).held)
  {
    if k > 0 {
      var c := Reach(db, tx, k - 1);
      WritesAreCovered(db, tx, k - 1);
      RowHeld(db, tx, k - 1);
      if c.todo != [] {
        EffectIsCovered(db, tx, c.number, c.todo[0], c.held);
        HeldCovers(c.ops, c.held, Wants(tx, c.todo[0]));
      }
    }
  }

  lemma HasAttemptMark(attempts: seq<Attempt>, p: PaymentId, status: AttemptStatus, q: PaymentId)
    ensures HasAttempt(MarkAttempt(attempts, p, status), q) == HasAttempt(attempts, q)
  {
    var marked := MarkAttempt(attempts, p, status);
    if HasAttempt(attempts, q) {
      var k :| 0 <= k < |attempts| && attempts[k].payment == Some(q);
      assert marked[k] in marked;
    }
  }

  lemma AttemptAgrees(db: Db, a: Attempt, held: set<Key>, tx: Tx, others: set<Key>)
    requires Covered(PutAttempt(a), held) && held !! others
    ensures Agree(db, Perform(db, PutAttempt(a)), tx, others)
  {
  }

  /** A covered write is invisible through any disjoint set of locks. */
  lemma PerformAgrees(db: Db, op: Op, held: set<Key>, tx: Tx, others: set<Key>)
    requires Covered(op, held) && held !! others
    ensures Agree(db, Perform(db, op), tx, others)
  {
    match op
    case PutAttempt(a) => AttemptAgrees(db, a, held, tx, others);
    case PutMark(p, status) =>
      MaxNumberMark(db.attempts, p, status, tx.i);
      forall q { HasAttemptMark(db.attempts, p, status, q); }
    case PutOrder(order) =>
      forall o { FindOrderAppend(db.orders, order, o); }
    case _ =>
  }

  lemma AgreeTransitive(a: Db, b: Db, c: Db, tx: Tx, held: set<Key>)
    requires Agree(a, b, tx, held) && Agree(b, c, tx, held)
    ensures Agree(a, c, tx, held)
  {
  }

  lemma {:induction false} CommitAgrees(db: Db, ops: seq<Op>, held: set<Key>, tx: Tx, others: set<Key>)
    requires (forall op :: op in ops ==> Covered(op, held)) && held !! others
    ensures Agree(db, PerformAll(db, ops), tx, others)
    decreases |ops|
  {
    if ops != [] {
      var rest := ops[..|ops| - 1];
      CommitAgrees(db, rest, held, tx, others);
      PerformAgrees(PerformAll(db, rest), ops[|ops| - 1], held, tx, others);
      AgreeTransitive(db, PerformAll(db, rest), PerformAll(db, ops), tx, others);
    }
  }

  // ----- Refinement -----

  /** What holds of the running system: locks are exclusive, every healthy transaction is where it would be
      had it run undisturbed on the current store, and the store is the serial outcome of the commit log. */
  ghost predicate SysOk(initial: Db, s: Sys) {
    && (forall t, u :: t in s.active && u in s.active && t != u ==> s.active[t].c.held !! s.active[u].c.held)
    && (forall t :: t in s.active && !s.active[t].c.failed ==>
          s.active[t].c == Reach(s.db, s.active[t].tx, s.active[t].steps))
    && s.db == RunAll(initial, s.log)
  }

  lemma CommitIsAtomic(initial: Db, s: Sys, t: nat)
    requires SysOk(initial, s) && Enabled(s, Commit(t))
    ensures Next(s, Commit(t)).db == RunTx(s.db, s.active[t].tx)
    ensures !Rejected(s.db, s.active[t].tx)
  {
    var r := s.active[t];
    FinishReach(s.db, r.tx, r.steps);
    AloneIsAtomic(s.db, r.tx);
  }

  lemma CommitKeepsOthers(initial: Db, s: Sys, t: nat, u: nat)
    requires SysOk(initial, s) && Enabled(s, Commit(t)) && u in s.active && u != t && !s.active[u].c.failed
    ensures s.active[u].c == Reach(Next(s, Commit(t)).db, s.active[u].tx, s.active[u].steps)
  {
    var r, other := s.active[t], s.active[u];
    WritesAreCovered(s.db, r.tx, r.steps);
    CommitAgrees(s.db, r.c.ops, r.c.held, other.tx, other.c.held);
    ReachAgrees(s.db, Next(s, Commit(t)).db, other.tx, other.steps);
  }

  lemma CommitKeepsSysOk(initial: Db, s: Sys, t: nat)
    requires SysOk(initial, s) && Enabled(s, Commit(t))
    ensures SysOk(initial, Next(s, Commit(t)))
  {
    var s' := Next(s, Commit(t));
    CommitIsAtomic(initial, s, t);
    assert s'.log[..|s'.log| - 1] == s.log;
    forall u | u in s'.active && !s'.active[u].c.failed
      ensures s'.active[u].c == Reach(s'.db, s'.active[u].tx, s'.active[u].steps)
    {
      CommitKeepsOthers(initial, s, t, u);
    }
  }

  lemma ReachAdvances(db: Db, tx: Tx, k: nat)
    requires Reach(db, tx, k).todo != []
    ensures Reach(db, tx, k + 1) == Advance(db, tx, Reach(db, tx, k))
  {
  }

  /** A transaction moves on, taking only free locks, to where it would be alone. */
  lemma StepKeepsSysOk(initial: Db, s: Sys, t: nat, r: Running, wants: set<Key>)
    requires SysOk(initial, s) && t in s.active && Free(s, t, wants) && r.c.held == s.active[t].c.held + wants
    requires !r.c.failed ==> r.c == Reach(s.db, r.tx, r.steps)
    ensures SysOk(initial, s.(active := s.active[t := r]))
  {
  }

  lemma ExecuteKeepsSysOk(initial: Db, s: Sys, t: nat)
    requires SysOk(initial, s) && Enabled(s, Execute(t))
    ensures SysOk(initial, Next(s, Execute(t)))
  {
    var r := s.active[t];
    ReachAdvances(s.db, r.tx, r.steps);
    StepKeepsSysOk(initial, s, t, Running(r.tx, r.steps + 1, Advance(s.db, r.tx, r.c)), Wants(r.tx, r.c.todo[0]));
  }

  lemma EventKeepsSysOk(initial: Db, s: Sys, e: Event)
    requires SysOk(initial, s) && Enabled(s, e)
    ensures SysOk(initial, Next(s, e))
  {
    match e
    case Commit(t) => CommitKeepsSysOk(initial, s, t);
    case Execute(t) => ExecuteKeepsSysOk(initial, s, t);
    case _ =>
  }

  lemma {:induction false} RunsKeepSysOk(initial: Db, es: seq<Event>)
    requires Possible(Sys(initial, map[], []), es)
    ensures SysOk(initial, Exec(Sys(initial, map[], []), es))
    decreases |es|
  {
    if es != [] {
      RunsKeepSysOk(initial, es[..|es| - 1]);
      EventKeepsSysOk(initial, Exec(Sys(initial, map[], []), es[..|es| - 1]), es[|es| - 1]);
    }
  }

  /** Refinement: however statements interleave, the committed store is the one its commit log produces when the
      transactions run one at a time; rolled-back transactions leave no trace. */
  lemma InterleavingRefinesSerial(initial: Db, es: seq<Event>)
    requires Possible(Sys(initial, map[], []), es)
    ensures var s := Exec(Sys(initial, map[], []), es); s.db == RunAll(initial, s.log)
  {
    RunsKeepSysOk(initial, es);
  }

  // ----- Every serial run is one of the schedules -----

  lemma OneMore(initial: Sys, es: seq<Event>, e: Event)
    requires Possible(initial, es) && Enabled(Exec(initial, es), e)
    ensures Possible(initial, es + [e]) && Exec(initial, es + [e]) == Next(Exec(initial, es), e)
  {
    assert (es + [e])[..|es|] == es;
  }

  /** The only transaction in progress can be taken to its commit. */
  lemma RunToCommit(initial: Sys, es: seq<Event>, t: nat) returns (longer: seq<Event>)
    requires Possible(initial, es) && Exec(initial, es).active.Keys == {t}
    requires var s := Exec(initial, es); !Finish(s.db, s.active[t].tx, s.active[t].c).failed
    ensures Possible(initial, longer)
    ensures Exec(initial, longer).active == map[]
    ensures Exec(initial, longer).log == Exec(initial, es).log + [Exec(initial, es).active[t].tx]
    decreases |Exec(initial, es).active[t].c.todo|
  {
    var s := Exec(initial, es);
    var r := s.active[t];
    if r.c.failed { FailureSticks(s.db, r.tx, r.c); }
    var e := if r.c.todo == [] then Commit(t) else Execute(t);
    OneMore(initial, es, e);
    longer := es + [e];
    if e.Execute? { longer := RunToCommit(initial, longer, t); }
  }

  lemma RunOneMore(initial: Sys, es: seq<Event>, tx: Tx) returns (longer: seq<Event>)
    requires Possible(initial, es) && Exec(initial, es).active == map[] && !Rejected(Exec(initial, es).db, tx)
    ensures Possible(initial, longer) && Exec(initial, longer).active == map[]
    ensures Exec(initial, longer).log == Exec(initial, es).log + [tx]
  {
    AloneIsAtomic(Exec(initial, es).db, tx);
    OneMore(initial, es, Begin(0, tx));
    longer := RunToCommit(initial, es + [Begin(0, tx)], 0);
  }

  lemma ExtendSchedule(initial: Db, shorter: seq<Event>, log: seq<Tx>, tx: Tx) returns (es: seq<Event>)
    requires Possible(Sys(initial, map[], []), shorter)
    requires Exec(Sys(initial, map[], []), shorter).log == log && Exec(Sys(initial, map[], []), shorter).active == map[]
    requires !Rejected(RunAll(initial, log), tx)
    ensures Possible(Sys(initial, map[], []), es)
    ensures Exec(Sys(initial, map[], []), es).log == log + [tx] && Exec(Sys(initial, map[], []), es).active == map[]
  {
    InterleavingRefinesSerial(initial, shorter);
    es := RunOneMore(Sys(initial, map[], []), shorter, tx);
  }

  /** Every sequence of transactions none of which throws is the commit log of some schedule. */
  lemma {:induction false} SerialSchedule(initial: Db, log: seq<Tx>) returns (es: seq<Event>)
    requires NoneRejected(initial, log)
    ensures Possible(Sys(initial, map[], []), es)
    ensures Exec(Sys(initial, map[], []), es).log == log && Exec(Sys(initial, map[], []), es).active == map[]
    decreases |log|
  {
    if log == [] {
      es := [];
    } else {
      var rest, tx := log[..|log| - 1], log[|log| - 1];
      var shorter := SerialSchedule(initial, rest);
      es := ExtendSchedule(initial, shorter, rest, tx);
      assert log == rest + [tx];
    }
  }

  // ----- Transactions that lock different things overlap -----

  /** Every lock a transaction can take. */
  function Footprint(tx: Tx): set<Key> {
    FirstLock(tx)
    + match tx
      case TxApply(_, f, _) => {AttemptKey(f.paymentId)}
      case TxReport(_, p) => if p.Some? then {AttemptKey(p.value)} else {}
      case TxPersist(_, o) => {OrderKey(o)}
      case _ => {}
  }

  /** Nobody else holds what it may still need, and no statement of it will fail. */
  ghost predicate Undisturbed(s: Sys, t: nat) {
    && t in s.active && !Finish(s.db, s.active[t].tx, s.active[t].c).failed
    && s.active[t].c.held <= Footprint(s.active[t].tx)
    && Free(s, t, Footprint(s.active[t].tx))
  }

  /** It has moved on and nothing else has happened. */
  ghost predicate MovedOn(s: Sys, s': Sys, t: nat) {
    && s'.db == s.db && s'.log == s.log && s'.active.Keys == s.active.Keys
    && (forall u :: u in s.active && u != t ==> s'.active[u] == s.active[u])
    && t in s.active && s'.active[t].tx == s.active[t].tx && s'.active[t].c.held <= Footprint(s.active[t].tx)
  }

  /** To the end of its statements. */
  ghost predicate RanOn(s: Sys, s': Sys, t: nat) {
    MovedOn(s, s', t) && Enabled(s', Commit(t))
  }

  lemma StepOn(s: Sys, t: nat)
    requires Undisturbed(s, t) && s.active[t].c.todo != []
    ensures Enabled(s, Execute(t))
    ensures var s' := Next(s, Execute(t));
      MovedOn(s, s', t) && Undisturbed(s', t) && s'.active[t].c.todo == s.active[t].c.todo[1..]
  {
    var r := s.active[t];
    if r.c.failed { FailureSticks(s.db, r.tx, r.c); }
    assert Wants(r.tx, r.c.todo[0]) <= Footprint(r.tx);
    FinishAdvance(s.db, r.tx, r.c);
  }

  lemma RunToEnd(initial: Sys, es: seq<Event>, t: nat) returns (longer: seq<Event>)
    requires Possible(initial, es) && Undisturbed(Exec(initial, es), t)
    ensures Possible(initial, longer) && RanOn(Exec(initial, es), Exec(initial, longer), t)
    decreases |Exec(initial, es).active[t].c.todo|
  {
    var s := Exec(initial, es);
    if s.active[t].c.todo == [] {
      longer := es;
    } else {
      StepOn(s, t);
      OneMore(initial, es, Execute(t));
      longer := RunToEnd(initial, es + [Execute(t)], t);
    }
  }

  lemma BegunUndisturbed(s: Sys, t: nat, tx: Tx)
    requires t !in s.active && Free(s, t, Footprint(tx)) && !Rejected(s.db, tx)
    ensures Enabled(s, Begin(t, tx)) && Undisturbed(Next(s, Begin(t, tx)), t)
  {
    AloneIsAtomic(s.db, tx);
  }

  lemma BeginUndisturbed(initial: Sys, es: seq<Event>, t: nat, tx: Tx) returns (longer: seq<Event>)
    requires Possible(initial, es)
    requires var s := Exec(initial, es); t !in s.active && Free(s, t, Footprint(tx)) && !Rejected(s.db, tx)
    ensures Possible(initial, longer)
    ensures var s := Exec(initial, es);
      RanOn(s.(active := s.active[t := Running(tx, 0, Start(s.db, tx))]), Exec(initial, longer), t)
  {
    BegunUndisturbed(Exec(initial, es), t, tx);
    OneMore(initial, es, Begin(t, tx));
    longer := RunToEnd(initial, es + [Begin(t, tx)], t);
  }

  /** Any two transactions that lock different things can be in progress at once, with all the statements of both run
      before either commits, and then commit in either order. */
  lemma DisjointOverlap(initial: Db, a: Tx, b: Tx) returns (es: seq<Event>)
    requires Footprint(a) !! Footprint(b) && !Rejected(initial, a) && !Rejected(initial, b)
    ensures Possible(Sys(initial, map[], []), es)
    ensures var s := Exec(Sys(initial, map[], []), es);
      && s.db == initial && s.log == [] && s.active.Keys == {0, 1} && s.active[0].tx == a && s.active[1].tx == b
      && Enabled(s, Commit(0)) && Enabled(Next(s, Commit(0)), Commit(1))
      && Enabled(s, Commit(1)) && Enabled(Next(s, Commit(1)), Commit(0))
  {
    var start := Sys(initial, map[], []);
    var one := BeginUndisturbed(start, [], 0, a);
    es := BeginUndisturbed(start, one, 1, b);
  }

  lemma EventIsNotRejected(initial: Db, s: Sys, e: Event)
    requires SysOk(initial, s) && Enabled(s, e) && NoneRejected(initial, s.log)
    ensures NoneRejected(initial, Next(s, e).log)
  {
    if e.Commit? {
      CommitIsAtomic(initial, s, e.t);
      assert (s.log + [s.active[e.t].tx])[..|s.log|] == s.log;
    }
  }

  lemma {:induction false} CommitLogIsNotRejected(initial: Db, es: seq<Event>)
    requires Possible(Sys(initial, map[], []), es)
    ensures NoneRejected(initial, Exec(Sys(initial, map[], []), es).log)
    decreases |es|
  {
    if es != [] {
      var n := |es| - 1;
      CommitLogIsNotRejected(initial, es[..n]);
      RunsKeepSysOk(initial, es[..n]);
      EventIsNotRejected(initial, Exec(Sys(initial, map[], []), es[..n]), es[n]);
    }
  }

  // ----- What schedules make of the invariant -----

  ghost predicate RoutedRun(env: Env, es: seq<Event>) {
    forall e :: e in es && e.Begin? ==> Routed(env, e.tx)
  }

  ghost predicate AllRouted(env: Env, s: Sys) {
    && (forall t :: t in s.active ==> Routed(env, s.active[t].tx))
    && (forall tx :: tx in s.log ==> Routed(env, tx))
  }

  lemma EventStaysRouted(env: Env, s: Sys, e: Event)
    requires AllRouted(env, s) && Enabled(s, e) && (e.Begin? ==> Routed(env, e.tx))
    ensures AllRouted(env, Next(s, e))
  {
  }

  lemma {:induction false} RunsStayRouted(env: Env, initial: Db, es: seq<Event>)
    requires Possible(Sys(initial, map[], []), es) && RoutedRun(env, es)
    ensures AllRouted(env, Exec(Sys(initial, map[], []), es))
    decreases |es|
  {
    if es != [] {
      var n := |es| - 1;
      assert forall e :: e in es[..n] ==> e in es;
      assert es[n] in es;
      RunsStayRouted(env, initial, es[..n]);
      EventStaysRouted(env, Exec(Sys(initial, map[], []), es[..n]), es[n]);
    }
  }

  /** However routed transactions interleave, the committed store is sound if and only if each FAILED write that
      committed found its row PENDING. */
  lemma InterleavedStoreIsSoundIff(env: Env, initial: Db, es: seq<Event>)
    requires FreshOrders(env) && DbOk(env, initial) && Possible(Sys(initial, map[], []), es) && RoutedRun(env, es)
    ensures var s := Exec(Sys(initial, map[], []), es); DbOk(env, s.db) <==> OverPendingLog(initial, s.log)
  {
    var s := Exec(Sys(initial, map[], []), es);
    InterleavingRefinesSerial(initial, es);
    RunsStayRouted(env, initial, es);
    LogKeepsDbOk(env, initial, s.log);
  }

  /** Each FAILED write finds its row PENDING when it takes the row lock. */
  ghost predicate FailsBeginPending(initial: Sys, es: seq<Event>)
    requires Possible(initial, es)
    decreases |es|
  {
    es == []
    || (FailsBeginPending(initial, es[..|es| - 1])
        && (es[|es| - 1].Begin? ==> OverPending(Exec(initial, es[..|es| - 1]).db, es[|es| - 1].tx)))
  }

  /** What was PENDING under a lock still is. */
  ghost predicate StillPending(initial: Db, s: Sys) {
    && OverPendingLog(initial, s.log)
    && forall t :: t in s.active && !s.active[t].c.failed ==> OverPending(s.db, s.active[t].tx)
  }

  lemma CommitKeepsPending(initial: Db, s: Sys, t: nat, u: nat)
    requires SysOk(initial, s) && Enabled(s, Commit(t)) && u in s.active && u != t && !s.active[u].c.failed
    requires OverPending(s.db, s.active[u].tx)
    ensures OverPending(Next(s, Commit(t)).db, s.active[u].tx)
  {
    var r, other := s.active[t], s.active[u];
    WritesAreCovered(s.db, r.tx, r.steps);
    RowHeld(s.db, other.tx, other.steps);
    CommitAgrees(s.db, r.c.ops, r.c.held, other.tx, other.c.held);
    if other.tx.TxFail? {
      assert RowKey(other.tx.i) in other.c.held;
      assert ReadRow(s.db, other.tx.i) == ReadRow(Next(s, Commit(t)).db, other.tx.i);
    }
  }

  lemma EventKeepsPending(initial: Db, s: Sys, e: Event)
    requires SysOk(initial, s) && StillPending(initial, s) && Enabled(s, e)
    requires e.Begin? ==> OverPending(s.db, e.tx)
    ensures StillPending(initial, Next(s, e))
  {
    if e.Commit? {
      var s' := Next(s, e);
      assert s'.log[..|s'.log| - 1] == s.log;
      forall u | u in s'.active && !s'.active[u].c.failed
        ensures OverPending(s'.db, s'.active[u].tx)
      {
        CommitKeepsPending(initial, s, e.t, u);
      }
    }
  }

  lemma {:induction false} RunsKeepPending(initial: Db, es: seq<Event>)
    requires Possible(Sys(initial, map[], []), es) && FailsBeginPending(Sys(initial, map[], []), es)
    ensures StillPending(initial, Exec(Sys(initial, map[], []), es))
    decreases |es|
  {
    if es != [] {
      var n := |es| - 1;
      RunsKeepPending(initial, es[..n]);
      RunsKeepSysOk(initial, es[..n]);
      EventKeepsPending(initial, Exec(Sys(initial, map[], []), es[..n]), es[n]);
    }
  }

  /** A look at the row under its lock is enough: if every FAILED write begins on a PENDING row, every store the
      interleaved system commits is sound. */
  lemma InterleavedStoreIsSound(env: Env, initial: Db, es: seq<Event>)
    requires FreshOrders(env) && DbOk(env, initial) && Possible(Sys(initial, map[], []), es) && RoutedRun(env, es)
    requires FailsBeginPending(Sys(initial, map[], []), es)
    ensures DbOk(env, Exec(Sys(initial, map[], []), es).db)
  {
    RunsKeepPending(initial, es);
    InterleavedStoreIsSoundIff(env, initial, es);
  }
}
