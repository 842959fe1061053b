/** Whose attempt backs a transaction. The gateway's own facts are routed, but a client may report any payment id as
    failed, and the attempt row it opens keeps its intent for good. */
module Ownership {
  import opened Options
  import opened Lifecycle
  import opened Ledger
  import opened Invariants

  ghost predicate OwnPayment(env: Env, i: IntentId, p: Option<PaymentId>) {
    p.Some? ==> env.orderOf(p.value) == env.orderFor(i)
  }

  /** Every attempt row with a payment id hangs under the intent the gateway attributes that payment to. */
  ghost predicate Owned(env: Env, db: Db) {
    forall a :: a in db.attempts ==> OwnPayment(env, a.intent, a.payment)
  }

  /** A client report that opens an attempt row for another intent's payment. */
  ghost predicate ForeignReport(env: Env, db: Db, tx: Tx) {
    tx.TxReport? && tx.i in db.intents && !OwnPayment(env, tx.i, tx.p) && !HasAttempt(db.attempts, tx.p.value)
  }

  lemma MarkKeepsOwned(env: Env, attempts: seq<Attempt>, p: PaymentId, status: AttemptStatus)
    requires forall a :: a in attempts ==> OwnPayment(env, a.intent, a.payment)
    ensures forall a :: a in MarkAttempt(attempts, p, status) ==> OwnPayment(env, a.intent, a.payment)
  {
  }

  /** Ownership is lost exactly by a foreign client report. */
  lemma OwnedUnlessForeign(env: Env, db: Db, tx: Tx)
    requires Owned(env, db) && Routed(env, tx)
    ensures Owned(env, RunTx(db, tx)) <==> !ForeignReport(env, db, tx)
  {
    var db' := RunTx(db, tx);
    if tx.TxApply? {
      ApplyAttempts(db, tx.i, tx.f, tx.now);
      MarkKeepsOwned(env, db.attempts, tx.f.paymentId, Mismatched);
      if tx.i in db.intents && Decide(db.intents[tx.i], tx.f).Advance? {
        MarkKeepsOwned(env, db.attempts, tx.f.paymentId, Reached(Decide(db.intents[tx.i], tx.f).to));
      }
    } else if tx.TxReport? && db'.attempts != db.attempts {
      assert db'.attempts[|db.attempts|] in db'.attempts;
    }
  }

  /** A misfiled row is never put right: attempt rows keep their intent and payment id. */
  lemma ForeignStays(env: Env, db: Db, tx: Tx)
    requires !Owned(env, db)
    ensures !Owned(env, RunTx(db, tx))
  {
    var a :| a in db.attempts && !OwnPayment(env, a.intent, a.payment);
    var k :| 0 <= k < |db.attempts| && db.attempts[k] == a;
    AttemptKeepsPlace(db, tx, k);
    assert RunTx(db, tx).attempts[k] in RunTx(db, tx).attempts;
  }

  ghost predicate NoForeignReport(env: Env, db: Db, log: seq<Tx>) {
    log == []
    || (NoForeignReport(env, db, log[..|log| - 1]) && !ForeignReport(env, RunAll(db, log[..|log| - 1]), log[|log| - 1]))
  }

  /** After any log every attempt row hangs under its own intent if and only if no client report in it was foreign. */
  lemma {:induction false} OwnedIffNoForeignReport(env: Env, db: Db, log: seq<Tx>)
    requires Owned(env, db) && forall tx :: tx in log ==> Routed(env, tx)
    ensures Owned(env, RunAll(db, log)) <==> NoForeignReport(env, db, log)
    decreases |log|
  {
    if log != [] {
      var rest, tx := log[..|log| - 1], log[|log| - 1];
      assert tx in log && forall x :: x in rest ==> x in log;
      OwnedIffNoForeignReport(env, db, rest);
      if Owned(env, RunAll(db, rest)) {
        OwnedUnlessForeign(env, RunAll(db, rest), tx);
      } else {
        ForeignStays(env, RunAll(db, rest), tx);
      }
    }
  }

  /** If no client reports another intent's payment, every settled payment's attempt belongs to the intent the
      transaction settled; and it says SUCCEEDED unless that intent's FAILED write met it COMPLETED. */
  lemma SettledByOwnAttempt(env: Env, log: seq<Tx>, p: PaymentId, a: Attempt)
    requires FreshOrders(env) && (forall tx :: tx in log ==> Routed(env, tx)) && NoForeignReport(env, EMPTY, log)
    requires var db := RunAll(EMPTY, log); p in db.transactions && a in db.attempts && a.payment == Some(p)
    ensures var i := RunAll(EMPTY, log).transactions[p].intent;
      a.intent == i && (Spares(EMPTY, log, i, PAID) ==> a.status == Reached(SUCCEEDED))
  {
    var i := RunAll(EMPTY, log).transactions[p].intent;
    if Spares(EMPTY, log, i, PAID) { LogSettles(env, log, i, p); }
    OwnedIffNoForeignReport(env, EMPTY, log);
    LogKeepsBooked(env, EMPTY, log);
    assert OwnPayment(env, a.intent, a.payment);
  }

  /** Without that, a capture of one intent's payment can settle on an attempt row of another intent: report the payment
      under intent b, then let the gateway capture it for a. */
  lemma ForeignReportMisfiles(db: Db, a: IntentId, b: IntentId, f: GatewayPayment, now: int)
    requires a in db.intents && b in db.intents && !HasAttempt(db.attempts, f.paymentId)
    requires Decide(db.intents[a], f) == Advance(SUCCEEDED) && f.paymentId !in db.transactions
    ensures var row := Attempt(b, MaxNumber(db.attempts, b) + 1, Some(f.paymentId), Reached(SUCCEEDED));
      var db' := ApplyOutcome(ReportFailure(db, b, Some(f.paymentId)), a, f, now);
      row in db'.attempts && f.paymentId in db'.transactions && db'.transactions[f.paymentId].intent == a
  {
    var reported := ReportFailure(db, b, Some(f.paymentId));
    var n := |db.attempts|;
    assert reported.attempts[n] == Attempt(b, MaxNumber(db.attempts, b) + 1, Some(f.paymentId), ClientReported);
    MisfiledRow(reported, a, f, now, n);
  }

  lemma MisfiledRow(db: Db, i: IntentId, f: GatewayPayment, now: int, n: nat)
    requires i in db.intents && Decide(db.intents[i], f) == Advance(SUCCEEDED) && f.paymentId !in db.transactions
    requires n < |db.attempts| && db.attempts[n].payment == Some(f.paymentId)
    ensures db.attempts[n].(status := Reached(SUCCEEDED)) in ApplyOutcome(db, i, f, now).attempts
    ensures f.paymentId in ApplyOutcome(db, i, f, now).transactions
    ensures ApplyOutcome(db, i, f, now).transactions[f.paymentId].intent == i
  {
    assert db.attempts[n] in db.attempts;
    var db' := ApplyOutcome(db, i, f, now);
    assert db'.attempts == MarkAttempt(db.attempts, f.paymentId, Reached(SUCCEEDED));
    assert db'.attempts[n] in db'.attempts;
  }
}
