/** Capture wins: where an intent ends up depends on which gateway facts arrived, not on their order or repetition. */
module Confluence {
  import opened Options
  import opened Lifecycle
  import opened Ledger
  import opened Invariants
  import opened Conservation

  /** How far up PENDING < PROCESSING < FAILED < COMPLETED one fact alone can take an intent. */
  function Ladder(row: Intent, f: GatewayPayment): State {
    match f.status
    case Authorized => PROCESSING
    case Failed => FAILED
    case Captured => if f.amount == row.amount && f.currency == row.currency then COMPLETED else PENDING
    case _ => PENDING
  }

  /** What can move an intent up: a gateway fact, or its own creation given up. */
  datatype Cause = Fact(f: GatewayPayment) | GivenUp

  function Rung(row: Intent, c: Cause): State {
    match c
    case Fact(f) => Ladder(row, f)
    case GivenUp => FAILED
  }

  function CauseOf(tx: Tx, i: IntentId): Option<Cause> {
    if tx.i != i then None
    else
      match tx
      case TxApply(_, f, _) => Some(Fact(f))
      case TxFail(_, _) => Some(GivenUp)
      case _ => None
  }

  function CausesOf(log: seq<Tx>, i: IntentId): set<Cause> {
    set tx | tx in log && CauseOf(tx, i).Some? :: CauseOf(tx, i).value
  }

  predicate OnLadder(s: State) {
    s in {PENDING, PROCESSING, FAILED, COMPLETED}
  }

  /** The greatest ladder value among where an intent starts and what reached it. */
  function Top(row: Intent, log: seq<Tx>, i: IntentId): State {
    if log == [] then row.status
    else
      var rest, c := Top(row, log[..|log| - 1], i), CauseOf(log[|log| - 1], i);
      if c.Some? && Rank(Rung(row, c.value)) > Rank(rest) then Rung(row, c.value) else rest
  }

  /** An expiry that comes while nothing above PROCESSING has arrived. */
  predicate ExpiresAt(row: Intent, log: seq<Tx>, i: IntentId, k: nat)
    requires k < |log|
  {
    log[k].TxExpire? && log[k].i == i && Rank(Top(row, log[..k], i)) <= Rank(PROCESSING)
  }

  ghost predicate Expires(row: Intent, log: seq<Tx>, i: IntentId) {
    exists k :: 0 <= k < |log| && ExpiresAt(row, log, i, k)
  }

  lemma ExpiresExtends(row: Intent, log: seq<Tx>, i: IntentId)
    requires log != []
    ensures Expires(row, log, i) <==> Expires(row, log[..|log| - 1], i) || ExpiresAt(row, log, i, |log| - 1)
  {
    var n := |log| - 1;
    forall k | 0 <= k < n
      ensures ExpiresAt(row, log, i, k) == ExpiresAt(row, log[..n], i, k)
    {
      assert log[..n][..k] == log[..k];
    }
    if Expires(row, log[..n], i) {
      var k :| 0 <= k < n && ExpiresAt(row, log[..n], i, k);
      assert ExpiresAt(row, log, i, k);
    }
    if Expires(row, log, i) && !ExpiresAt(row, log, i, n) {
      var k :| 0 <= k < |log| && ExpiresAt(row, log, i, k);
      assert ExpiresAt(row, log[..n], i, k);
    }
  }

  lemma LadderOfDecision(row: Intent, f: GatewayPayment)
    requires Live(row.status)
    ensures var d := Decide(row, f);
      (if d == Advance(SUCCEEDED) then COMPLETED else if d.Advance? then d.to else row.status)
      == if row.status != EXPIRED && Rank(Ladder(row, f)) > Rank(row.status) then Ladder(row, f) else row.status
  {
  }

  lemma ApplyMove(db: Db, i: IntentId, f: GatewayPayment, now: int)
    requires i in db.intents && Live(db.intents[i].status)
    ensures i in ApplyOutcome(db, i, f, now).intents
    ensures var row, row' := db.intents[i], ApplyOutcome(db, i, f, now).intents[i];
      && row'.amount == row.amount && row'.currency == row.currency
      && row'.status ==
         if row.status != EXPIRED && Rank(Ladder(row, f)) > Rank(row.status) then Ladder(row, f) else row.status
  {
    ApplyRow(db, i, f, now);
    LadderOfDecision(db.intents[i], f);
  }

  /** The outcome of one transaction for one intent, as a move on the ladder. */
  lemma OneMove(db: Db, tx: Tx, i: IntentId)
    requires i in db.intents && Live(db.intents[i].status) && !Hits(db, tx, i, TERMINAL)
    ensures i in RunTx(db, tx).intents
    ensures var row, row' := db.intents[i], RunTx(db, tx).intents[i]; var c := CauseOf(tx, i);
      && row'.amount == row.amount && row'.currency == row.currency
      && row'.status ==
         if c.Some? && row.status != EXPIRED && Rank(Rung(row, c.value)) > Rank(row.status) then Rung(row, c.value)
         else if tx.i == i && tx.TxExpire? && Rank(row.status) <= Rank(PROCESSING) then EXPIRED
         else row.status
  {
    if tx.i != i || tx.TxReport? || tx.TxPersist? || tx.TxCreate? {
      TxTouchesOneIntent(db, tx);
    } else if tx.TxApply? {
      ApplyMove(db, i, tx.f, tx.now);
    }
  }

  lemma RungIsAmountOnly(a: Intent, b: Intent, c: Cause)
    requires a.amount == b.amount && a.currency == b.currency
    ensures Rung(a, c) == Rung(b, c)
  {
  }

  lemma {:induction false} TopIsOnLadder(row: Intent, log: seq<Tx>, i: IntentId)
    requires OnLadder(row.status)
    ensures OnLadder(Top(row, log, i))
    decreases |log|
  {
    if log != [] { TopIsOnLadder(row, log[..|log| - 1], i); }
  }

  ghost predicate Ends(db: Db, db': Db, log: seq<Tx>, i: IntentId)
    requires i in db.intents
  {
    i in db'.intents
    && var row, row' := db.intents[i], db'.intents[i];
       && row'.amount == row.amount && row'.currency == row.currency
       && row'.status == if Expires(row, log, i) then EXPIRED else Top(row, log, i)
  }

  lemma OneMoreRung(db: Db, mid: Db, log: seq<Tx>, i: IntentId)
    requires log != [] && i in db.intents && OnLadder(db.intents[i].status) && Ends(db, mid, log[..|log| - 1], i)
    requires !Hits(mid, log[|log| - 1], i, TERMINAL)
    ensures Ends(db, RunTx(mid, log[|log| - 1]), log, i)
  {
    var row, rest, tx := db.intents[i], log[..|log| - 1], log[|log| - 1];
    TopIsOnLadder(row, rest, i);
    OneMove(mid, tx, i);
    if CauseOf(tx, i).Some? { RungIsAmountOnly(row, mid.intents[i], CauseOf(tx, i).value); }
    ExpiresExtends(row, log, i);
  }

  lemma EndsAtOnce(db: Db, i: IntentId)
    requires i in db.intents
    ensures Ends(db, db, [], i)
  {
  }

  /** Whatever transactions run, an intent ends at the top of the facts applied to it (its own creation given up counts
      as FAILED), unless an expiry caught it at PROCESSING or below: then it is EXPIRED and stays so. All that is asked
      is that the FAILED write of its creation does not meet it terminal. */
  lemma {:induction false} CaptureWins(db: Db, log: seq<Tx>, i: IntentId)
    requires i in db.intents && OnLadder(db.intents[i].status) && Spares(db, log, i, TERMINAL)
    ensures Ends(db, RunAll(db, log), log, i)
    decreases |log|
  {
    if log == [] {
      EndsAtOnce(db, i);
    } else {
      CaptureWins(db, log[..|log| - 1], i);
      OneMoreRung(db, RunAll(db, log[..|log| - 1]), log, i);
    }
  }

  lemma CausesExtend(log: seq<Tx>, i: IntentId)
    requires log != []
    ensures var c := CauseOf(log[|log| - 1], i);
      CausesOf(log, i) == CausesOf(log[..|log| - 1], i) + if c.Some? then {c.value} else {}
  {
    assert log == log[..|log| - 1] + [log[|log| - 1]];
  }

  /** Top is a maximum: an upper bound, and attained. */
  lemma {:induction false} TopIsMaximum(row: Intent, log: seq<Tx>, i: IntentId)
    ensures forall c :: c in CausesOf(log, i) ==> Rank(Rung(row, c)) <= Rank(Top(row, log, i))
    ensures Rank(row.status) <= Rank(Top(row, log, i))
    ensures Top(row, log, i) == row.status || exists c :: c in CausesOf(log, i) && Rung(row, c) == Top(row, log, i)
    decreases |log|
  {
    if log != [] {
      TopIsMaximum(row, log[..|log| - 1], i);
      CausesExtend(log, i);
    }
  }

  lemma SameCausesSameTop(row: Intent, a: seq<Tx>, b: seq<Tx>, i: IntentId)
    requires CausesOf(a, i) == CausesOf(b, i) && OnLadder(row.status)
    ensures Top(row, a, i) == Top(row, b, i)
  {
    TopIsMaximum(row, a, i);
    TopIsMaximum(row, b, i);
    TopIsOnLadder(row, a, i);
    TopIsOnLadder(row, b, i);
  }

  function TransactionsOf(db: Db, i: IntentId): map<PaymentId, int> {
    map p | p in db.transactions && db.transactions[p].intent == i :: db.transactions[p].amount
  }

  lemma TransactionsFollowStatus(db: Db, i: IntentId)
    requires Paid(db, i) && i in db.intents
    ensures var done := db.intents[i].status == COMPLETED; var ts := TransactionsOf(db, i);
      |ts| == (if done then 1 else 0) && Sum(ts) == if done then db.intents[i].amount else 0
  {
    var ts := TransactionsOf(db, i);
    if db.intents[i].status == COMPLETED {
      var p :| p in db.transactions && db.transactions[p].intent == i;
      assert ts == map[p := db.intents[i].amount];
      SumTakeOut(ts, p);
      assert ts - {p} == map[];
    } else {
      assert ts == map[];
    }
  }

  lemma {:induction false} NoWriteSpares(db: Db, log: seq<Tx>, i: IntentId, states: set<State>)
    requires forall tx :: tx in log ==> !tx.TxFail?
    ensures Spares(db, log, i, states)
    decreases |log|
  {
    if log != [] {
      assert log[|log| - 1] in log && forall x :: x in log[..|log| - 1] ==> x in log;
      NoWriteSpares(db, log[..|log| - 1], i, states);
    }
  }

  lemma NoExpiry(row: Intent, log: seq<Tx>, i: IntentId)
    requires forall tx :: tx in log && tx.i == i ==> !tx.TxExpire?
    ensures !Expires(row, log, i)
  {
    assert forall k :: 0 <= k < |log| ==> log[k] in log;
  }

  /** Two arrival orders of the same facts, repeated however often, among whatever other traffic: same status, same
      number of transactions, same amount settled. */
  lemma ArrivalOrderIsIrrelevant(env: Env, db: Db, a: seq<Tx>, b: seq<Tx>, i: IntentId)
    requires i in db.intents && OnLadder(db.intents[i].status)
    requires Spares(db, a, i, TERMINAL) && Spares(db, b, i, TERMINAL)
    requires FreshOrders(env) && BookedOk(env, db) && Paid(db, i) && forall tx :: tx in a + b ==> Routed(env, tx)
    requires forall tx :: tx in a + b && tx.i == i ==> !tx.TxExpire?
    requires CausesOf(a, i) == CausesOf(b, i)
    ensures var x, y := RunAll(db, a), RunAll(db, b);
      && i in x.intents && i in y.intents && x.intents[i].status == y.intents[i].status
      && |TransactionsOf(x, i)| == |TransactionsOf(y, i)|
      && Sum(TransactionsOf(x, i)) == Sum(TransactionsOf(y, i))
  {
    assert forall tx :: tx in a ==> tx in a + b;
    assert forall tx :: tx in b ==> tx in a + b;
    StatusIgnoresArrival(db, a, b, i);
    TransactionsOfRouted(env, db, a, i);
    TransactionsOfRouted(env, db, b, i);
  }

  /** The status alone depends on nothing else: not on routing, nor on the state of any other row. */
  lemma StatusIgnoresArrival(db: Db, a: seq<Tx>, b: seq<Tx>, i: IntentId)
    requires i in db.intents && OnLadder(db.intents[i].status)
    requires Spares(db, a, i, TERMINAL) && Spares(db, b, i, TERMINAL)
    requires forall tx :: tx in a && tx.i == i ==> !tx.TxExpire?
    requires forall tx :: tx in b && tx.i == i ==> !tx.TxExpire?
    requires CausesOf(a, i) == CausesOf(b, i)
    ensures Ends(db, RunAll(db, a), a, i) && Ends(db, RunAll(db, b), b, i)
    ensures RunAll(db, a).intents[i].status == RunAll(db, b).intents[i].status
  {
    CaptureWins(db, a, i);
    CaptureWins(db, b, i);
    NoExpiry(db.intents[i], a, i);
    NoExpiry(db.intents[i], b, i);
    SameCausesSameTop(db.intents[i], a, b, i);
  }

  lemma TransactionsOfRouted(env: Env, db: Db, log: seq<Tx>, i: IntentId)
    requires i in db.intents && OnLadder(db.intents[i].status) && Spares(db, log, i, TERMINAL)
    requires FreshOrders(env) && BookedOk(env, db) && Paid(db, i) && forall tx :: tx in log ==> Routed(env, tx)
    ensures var db' := RunAll(db, log);
      && i in db'.intents && db'.intents[i].amount == db.intents[i].amount
      && var done := db'.intents[i].status == COMPLETED;
         |TransactionsOf(db', i)| == (if done then 1 else 0)
         && Sum(TransactionsOf(db', i)) == if done then db.intents[i].amount else 0
  {
    CaptureWins(db, log, i);
    SparesFewer(db, log, i, TERMINAL, PAID);
    LogKeepsPaid(env, db, log, i);
    TransactionsFollowStatus(RunAll(db, log), i);
  }
}
