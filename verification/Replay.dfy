/** Re-applying a gateway fact is absorbed at every later point of a run, so replays can be deleted from it. */
module Replay {
  import opened Options
  import opened Lifecycle
  import opened Ledger
  import opened Invariants

  /** Attempt rows up to their status: place, intent, number and payment id. */
  function Faceless(attempts: seq<Attempt>): seq<Attempt> {
    seq(|attempts|, k requires 0 <= k < |attempts| => attempts[k].(status := ClientReported))
  }

  /** The store up to the statuses of its attempt rows. */
  function Core(db: Db): Db {
    db.(attempts := Faceless(db.attempts))
  }

  lemma FacelessHas(attempts: seq<Attempt>, p: PaymentId)
    ensures HasAttempt(Faceless(attempts), p) <==> HasAttempt(attempts, p)
  {
    if HasAttempt(attempts, p) {
      var k :| 0 <= k < |attempts| && attempts[k].payment == Some(p);
      assert Faceless(attempts)[k] in Faceless(attempts);
    }
  }

  lemma {:induction false} FacelessMax(attempts: seq<Attempt>, i: IntentId)
    ensures MaxNumber(Faceless(attempts), i) == MaxNumber(attempts, i)
    decreases |attempts|
  {
    if attempts != [] {
      FacelessMax(attempts[..|attempts| - 1], i);
      assert Faceless(attempts)[..|attempts| - 1] == Faceless(attempts[..|attempts| - 1]);
    }
  }

  lemma SameFacelessReads(a: seq<Attempt>, b: seq<Attempt>, p: PaymentId, i: IntentId)
    requires Faceless(a) == Faceless(b)
    ensures (HasAttempt(a, p) <==> HasAttempt(b, p)) && MaxNumber(a, i) == MaxNumber(b, i)
  {
    FacelessHas(a, p);
    FacelessHas(b, p);
    FacelessMax(a, i);
    FacelessMax(b, i);
  }

  lemma MarkIsFaceless(attempts: seq<Attempt>, p: PaymentId, status: AttemptStatus)
    ensures Faceless(MarkAttempt(attempts, p, status)) == Faceless(attempts)
  {
  }

  lemma AppendFaceless(attempts: seq<Attempt>, a: Attempt)
    ensures Faceless(attempts + [a]) == Faceless(attempts) + [a.(status := ClientReported)]
  {
  }

  /** Attempt statuses influence nothing but attempt statuses. */
  lemma RecordReadsCore(db: Db, db': Db, i: IntentId, p: PaymentId, status: AttemptStatus)
    requires Core(db) == Core(db')
    ensures Core(RecordAttempt(db, i, p, status)) == Core(RecordAttempt(db', i, p, status))
  {
    SameButAttempts(db, db');
    SameFacelessReads(db.attempts, db'.attempts, p, i);
    MarkIsFaceless(db.attempts, p, status);
    MarkIsFaceless(db'.attempts, p, status);
    var a := Attempt(i, MaxNumber(db.attempts, i) + 1, Some(p), status);
    AppendFaceless(db.attempts, a);
    AppendFaceless(db'.attempts, a);
  }

  lemma SameButAttempts(db: Db, db': Db)
    requires Core(db) == Core(db')
    ensures db' == db.(attempts := db'.attempts) && Faceless(db.attempts) == Faceless(db'.attempts)
  {
    assert Core(db).(attempts := db'.attempts) == db.(attempts := db'.attempts);
    assert Core(db').(attempts := db'.attempts) == db';
    assert Core(db).attempts == Faceless(db.attempts) && Core(db').attempts == Faceless(db'.attempts);
  }

  lemma ApplyReadsCore(db: Db, db': Db, i: IntentId, f: GatewayPayment, now: int)
    requires Core(db) == Core(db')
    ensures Core(ApplyOutcome(db, i, f, now)) == Core(ApplyOutcome(db', i, f, now))
  {
    SameButAttempts(db, db');
    if i in db.intents {
      match Decide(db.intents[i], f)
      case Mismatch => RecordReadsCore(db, db', i, f.paymentId, Mismatched);
      case Advance(to) =>
        var a, b := RecordAttempt(db, i, f.paymentId, Reached(to)), RecordAttempt(db', i, f.paymentId, Reached(to));
        RecordReadsCore(db, db', i, f.paymentId, Reached(to));
        SameButAttempts(a, b);
      case _ =>
    }
  }

  lemma ReportReadsCore(db: Db, db': Db, i: IntentId, p: Option<PaymentId>)
    requires Core(db) == Core(db')
    ensures Core(ReportFailure(db, i, p)) == Core(ReportFailure(db', i, p))
  {
    SameButAttempts(db, db');
    SameFacelessReads(db.attempts, db'.attempts, if p.Some? then p.value else PaymentId(""), i);
    var a := Attempt(i, MaxNumber(db.attempts, i) + 1, p, ClientReported);
    AppendFaceless(db.attempts, a);
    AppendFaceless(db'.attempts, a);
  }

  lemma TxReadsCore(db: Db, db': Db, tx: Tx)
    requires Core(db) == Core(db')
    ensures Core(RunTx(db, tx)) == Core(RunTx(db', tx))
  {
    if tx.TxApply? {
      ApplyReadsCore(db, db', tx.i, tx.f, tx.now);
    } else if tx.TxReport? {
      ReportReadsCore(db, db', tx.i, tx.p);
    } else {
      SameButAttempts(db, db');
    }
  }

  /** Applying the fact now would change no status, order, transaction or history row, and add no attempt row. */
  predicate Absorbed(db: Db, i: IntentId, f: GatewayPayment) {
    i in db.intents
    && !Decide(db.intents[i], f).Advance?
    && (Decide(db.intents[i], f).Mismatch? ==> HasAttempt(db.attempts, f.paymentId))
  }

  lemma AbsorbedChangesNothing(db: Db, i: IntentId, f: GatewayPayment, now: int)
    requires Absorbed(db, i, f)
    ensures Core(ApplyOutcome(db, i, f, now)) == Core(db)
  {
    MarkIsFaceless(db.attempts, f.paymentId, Mismatched);
  }

  /** Climbing absorbs: what advances nothing now advances nothing later, and a mismatch was one before. */
  lemma ClimbingAbsorbs(row: Intent, row': Intent, f: GatewayPayment)
    requires Live(row.status) && Live(row'.status) && Climbs(row.status, row'.status)
    requires row'.amount == row.amount && row'.currency == row.currency && !Decide(row, f).Advance?
    ensures !Decide(row', f).Advance? && (Decide(row', f).Mismatch? ==> Decide(row, f).Mismatch?)
  {
  }

  lemma HasAttemptStays(db: Db, tx: Tx, p: PaymentId)
    requires HasAttempt(db.attempts, p)
    ensures HasAttempt(RunTx(db, tx).attempts, p)
  {
    var k :| 0 <= k < |db.attempts| && db.attempts[k].payment == Some(p);
    AttemptKeepsPlace(db, tx, k);
    assert RunTx(db, tx).attempts[k] in RunTx(db, tx).attempts;
  }

  lemma AppliedIsAbsorbed(db: Db, i: IntentId, f: GatewayPayment, now: int)
    requires i in db.intents && Live(db.intents[i].status)
    ensures Absorbed(ApplyOutcome(db, i, f, now), i, f)
  {
    ApplyRow(db, i, f, now);
    ApplyAttempts(db, i, f, now);
    var d := Decide(db.intents[i], f);
    if d.Mismatch? { RecordAttemptRows(db, i, f.paymentId, Mismatched); }
    if d.Advance? { RecordAttemptRows(db, i, f.paymentId, Reached(d.to)); }
  }

  lemma TxKeepsTerms(db: Db, tx: Tx, i: IntentId)
    requires i in db.intents
    ensures i in RunTx(db, tx).intents
    ensures RunTx(db, tx).intents[i].amount == db.intents[i].amount
    ensures RunTx(db, tx).intents[i].currency == db.intents[i].currency
  {
    TxTouchesOneIntent(db, tx);
    if tx.TxApply? && tx.i == i { ApplyRow(db, i, tx.f, tx.now); }
  }

  /** Once absorbed, a fact stays absorbed, whatever runs, unless a FAILED write meets its intent terminal. */
  lemma AbsorbedStays(db: Db, tx: Tx, i: IntentId, f: GatewayPayment)
    requires AllLive(db) && Absorbed(db, i, f) && !Hits(db, tx, i, TERMINAL)
    ensures Absorbed(RunTx(db, tx), i, f)
  {
    TxClimbs(db, tx, i);
    TxKeepsTerms(db, tx, i);
    KeepsLive(db, tx);
    ClimbingAbsorbs(db.intents[i], RunTx(db, tx).intents[i], f);
    if HasAttempt(db.attempts, f.paymentId) { HasAttemptStays(db, tx, f.paymentId); }
  }

  /** Such a write undoes the absorption of exactly the captures that settle the intent, and of captures for another
      amount that have left no attempt row. */
  lemma AbsorptionLost(db: Db, tx: Tx, i: IntentId, f: GatewayPayment)
    requires AllLive(db) && Absorbed(db, i, f) && Hits(db, tx, i, TERMINAL)
    ensures Absorbed(RunTx(db, tx), i, f) <==>
            f.status != Captured
            || ((f.amount != db.intents[i].amount || f.currency != db.intents[i].currency)
                && HasAttempt(db.attempts, f.paymentId))
  {
  }

  /** The (intent, fact) pairs a log has applied. */
  function Applied(log: seq<Tx>): set<(IntentId, GatewayPayment)> {
    set tx | tx in log && tx.TxApply? :: (tx.i, tx.f)
  }

  /** Those applied to a known intent that no FAILED write has met terminal since. */
  function Standing(db: Db, log: seq<Tx>): set<(IntentId, GatewayPayment)> {
    if log == [] then {}
    else
      var rest, tx := log[..|log| - 1], log[|log| - 1];
      StandingAfter(RunAll(db, rest), Standing(db, rest), tx)
  }

  function StandingAfter(now: Db, standing: set<(IntentId, GatewayPayment)>, tx: Tx): set<(IntentId, GatewayPayment)> {
    if Hits(now, tx, tx.i, TERMINAL) then set pair | pair in standing && pair.0 != tx.i :: pair
    else if tx.TxApply? && tx.i in now.intents then standing + {(tx.i, tx.f)}
    else standing
  }

  /** The log without the re-applications of facts that stand. */
  function Dedup(db: Db, log: seq<Tx>): seq<Tx> {
    if log == [] then []
    else
      var rest, tx := log[..|log| - 1], log[|log| - 1];
      if tx.TxApply? && (tx.i, tx.f) in Standing(db, rest) then Dedup(db, rest) else Dedup(db, rest) + [tx]
  }

  ghost predicate AllAbsorbed(db: Db, applied: set<(IntentId, GatewayPayment)>) {
    forall i, f :: (i, f) in applied ==> Absorbed(db, i, f)
  }

  lemma AbsorbOneMore(db: Db, tx: Tx, standing: set<(IntentId, GatewayPayment)>)
    requires AllLive(db) && AllAbsorbed(db, standing)
    ensures AllAbsorbed(RunTx(db, tx), StandingAfter(db, standing, tx))
  {
    forall i, f | (i, f) in StandingAfter(db, standing, tx)
      ensures Absorbed(RunTx(db, tx), i, f)
    {
      if (i, f) in standing { AbsorbedStays(db, tx, i, f); } else { AppliedIsAbsorbed(db, i, f, tx.now); }
    }
  }

  /** In any log whatsoever, what stands at the end would, applied again, change nothing but an attempt status. */
  lemma {:induction false} StandingIsAbsorbed(db: Db, log: seq<Tx>)
    requires AllLive(db)
    ensures AllLive(RunAll(db, log)) && AllAbsorbed(RunAll(db, log), Standing(db, log))
    decreases |log|
  {
    if log != [] {
      var rest, tx := log[..|log| - 1], log[|log| - 1];
      StandingIsAbsorbed(db, rest);
      KeepsLive(RunAll(db, rest), tx);
      AbsorbOneMore(RunAll(db, rest), tx, Standing(db, rest));
    }
  }

  /** Deleting every re-application of a standing fact from any log whatsoever leaves the same statuses, orders,
      transactions and history, and the same attempt rows up to their status. */
  lemma {:induction false} ReplaysCanBeDeleted(db: Db, log: seq<Tx>)
    requires AllLive(db)
    ensures Core(RunAll(db, log)) == Core(RunAll(db, Dedup(db, log)))
    decreases |log|
  {
    if log != [] {
      var rest, tx := log[..|log| - 1], log[|log| - 1];
      ReplaysCanBeDeleted(db, rest);
      if tx.TxApply? && (tx.i, tx.f) in Standing(db, rest) {
        StandingIsAbsorbed(db, rest);
        assert Absorbed(RunAll(db, rest), tx.i, tx.f);
        AbsorbedChangesNothing(RunAll(db, rest), tx.i, tx.f, tx.now);
      } else {
        var d := Dedup(db, rest);
        TxReadsCore(RunAll(db, rest), RunAll(db, d), tx);
        assert (d + [tx])[..|d|] == d;
      }
    }
  }

  // ----- What the shorter log still applies -----

  lemma AppliedExtends(log: seq<Tx>, tx: Tx)
    ensures Applied(log + [tx]) == Applied(log) + if tx.TxApply? then {(tx.i, tx.f)} else {}
  {
  }

  lemma {:induction false} StandingWasApplied(db: Db, log: seq<Tx>)
    ensures Standing(db, log) <= Applied(log)
    decreases |log|
  {
    if log != [] {
      var rest, tx := log[..|log| - 1], log[|log| - 1];
      StandingWasApplied(db, rest);
      AppliedExtends(rest, tx);
      assert log == rest + [tx];
    }
  }

  /** Every fact that was applied still is. */
  lemma {:induction false} DedupKeepsFacts(db: Db, log: seq<Tx>)
    ensures Applied(Dedup(db, log)) == Applied(log)
    decreases |log|
  {
    if log != [] {
      var rest, tx := log[..|log| - 1], log[|log| - 1];
      DedupKeepsFacts(db, rest);
      StandingWasApplied(db, rest);
      AppliedExtends(rest, tx);
      AppliedExtends(Dedup(db, rest), tx);
      assert log == rest + [tx];
    }
  }

  /** Where no FAILED write meets the intent terminal, every fact applied to it stands. */
  lemma {:induction false} SparedStands(db: Db, log: seq<Tx>, i: IntentId, f: GatewayPayment)
    requires NoneRejected(db, log) && Spares(db, log, i, TERMINAL)
    ensures (i, f) in Applied(log) ==> (i, f) in Standing(db, log)
    decreases |log|
  {
    if log != [] {
      var rest, tx := log[..|log| - 1], log[|log| - 1];
      SparedStands(db, rest, i, f);
      AppliedExtends(rest, tx);
      assert log == rest + [tx];
    }
  }

  /** No fact is applied to the intent twice. */
  ghost predicate AppliesOnce(log: seq<Tx>, i: IntentId) {
    forall a, b :: 0 <= a < b < |log| && log[a].TxApply? && log[b].TxApply? && log[a].i == i == log[b].i ==>
      log[a].f != log[b].f
  }

  /** There the shorter log applies no fact twice. */
  lemma {:induction false} DedupAppliesOnce(db: Db, log: seq<Tx>, i: IntentId)
    requires NoneRejected(db, log) && Spares(db, log, i, TERMINAL)
    ensures AppliesOnce(Dedup(db, log), i)
    decreases |log|
  {
    if log != [] {
      var rest, tx := log[..|log| - 1], log[|log| - 1];
      var d := Dedup(db, rest);
      DedupAppliesOnce(db, rest, i);
      if tx.TxApply? && tx.i == i && (i, tx.f) !in Standing(db, rest) {
        SparedStands(db, rest, i, tx.f);
        DedupKeepsFacts(db, rest);
        assert forall a :: 0 <= a < |d| && d[a].TxApply? ==> (d[a].i, d[a].f) in Applied(d);
      }
    }
  }

  // ----- Why a FAILED write matters -----

  /** With such a write in between, applying a fact twice is not applying it once: the capture settles the intent, the
      FAILED write fails it, and the capture applied again settles it again. */
  lemma ReplayAfterFailedWriteMatters(db: Db, i: IntentId, f: GatewayPayment, now: int)
    requires i in db.intents && Live(db.intents[i].status) && Decide(db.intents[i], f) == Advance(SUCCEEDED)
    ensures var failed := FailCreation(ApplyOutcome(db, i, f, now), i, now);
      && i in failed.intents && failed.intents[i].status == FAILED
      && i in ApplyOutcome(failed, i, f, now).intents && ApplyOutcome(failed, i, f, now).intents[i].status == COMPLETED
  {
    ApplyRow(db, i, f, now);
    ApplyRow(FailCreation(ApplyOutcome(db, i, f, now), i, now), i, f, now);
  }
}
