/** What the run invariants mean for an observer of whole runs. What can go wrong is always the unconditional FAILED
    write of a creation that gave up, and each result names the states its row must not be in then. */
module RunProperties {
  import opened Options
  import opened Lifecycle
  import opened Ledger
  import opened Invariants
  import opened Orchestration
  import opened Confluence
  import opened Conservation
  import Interleaving

  // ----- Orchestrated runs and interleaved transactions -----

  lemma LogStep(env: Env, es: seq<Event>, m: nat)
    requires Possible(env, es) && m < |es|
    requires var w := Exec(env, es[..|es| - 1]); var log := LogOf(env, es[..|es| - 1], m);
      var start := Exec(env, es[..m]).db;
      w.db == RunAll(start, log) && NoneRejected(start, log)
    ensures var log := LogOf(env, es, m); var start := Exec(env, es[..m]).db;
      Exec(env, es).db == RunAll(start, log) && NoneRejected(start, log)
  {
    var n := |es| - 1;
    var w, rest, tx := Exec(env, es[..n]), LogOf(env, es[..n], m), TxOf(env, es[n]);
    if tx.Some? {
      if Rejected(w.db, tx.value) {
        RejectedChangesNothing(w.db, tx.value);
      } else {
        assert (rest + [tx.value])[..|rest|] == rest;
      }
    }
  }

  /** From any point of any run on, the store is what its committed transactions make of it one after another. */
  lemma {:induction false} LogReplaysRun(env: Env, es: seq<Event>, m: nat)
    requires Possible(env, es) && m <= |es|
    ensures Exec(env, es).db == RunAll(Exec(env, es[..m]).db, LogOf(env, es, m))
    ensures NoneRejected(Exec(env, es[..m]).db, LogOf(env, es, m))
    decreases |es|
  {
    if m == |es| {
      assert es[..m] == es;
    } else {
      assert es[..|es| - 1][..m] == es[..m];
      LogReplaysRun(env, es[..|es| - 1], m);
      LogStep(env, es, m);
    }
  }

  lemma LogFromStart(env: Env, es: seq<Event>)
    requires Possible(env, es)
    ensures Exec(env, es).db == RunAll(EMPTY, LogOf(env, es, 0)) && NoneRejected(EMPTY, LogOf(env, es, 0))
  {
    assert es[..0] == [];
    LogReplaysRun(env, es, 0);
  }

  /** Statement-level schedules whose commits are those of a run commit exactly that run's store, sound if and only if
      the run is guarded. */
  lemma InterleavedRunsAreSound(env: Env, es: seq<Event>, schedule: seq<Interleaving.Event>)
    requires FreshOrders(env) && Possible(env, es)
    requires Interleaving.Possible(Interleaving.Sys(EMPTY, map[], []), schedule)
    requires Interleaving.Exec(Interleaving.Sys(EMPTY, map[], []), schedule).log == LogOf(env, es, 0)
    ensures var db := Interleaving.Exec(Interleaving.Sys(EMPTY, map[], []), schedule).db;
      db == Exec(env, es).db && (DbOk(env, db) <==> GuardedRun(env, es))
  {
    LogFromStart(env, es);
    Interleaving.InterleavingRefinesSerial(EMPTY, schedule);
    RunsAreSoundIffGuarded(env, es);
  }

  /** And every run has such a schedule. */
  lemma EveryRunHasASchedule(env: Env, es: seq<Event>) returns (schedule: seq<Interleaving.Event>)
    requires Possible(env, es)
    ensures Interleaving.Possible(Interleaving.Sys(EMPTY, map[], []), schedule)
    ensures Interleaving.Exec(Interleaving.Sys(EMPTY, map[], []), schedule).log == LogOf(env, es, 0)
    ensures Interleaving.Exec(Interleaving.Sys(EMPTY, map[], []), schedule).db == Exec(env, es).db
  {
    LogFromStart(env, es);
    schedule := Interleaving.SerialSchedule(EMPTY, LogOf(env, es, 0));
    Interleaving.InterleavingRefinesSerial(EMPTY, schedule);
  }

  // ----- Where an intent ends up -----

  lemma {:induction false} SparedLog(env: Env, es: seq<Event>, m: nat, i: IntentId, states: set<State>)
    requires Possible(env, es) && m <= |es| && SparesRun(env, es, m, i, states)
    ensures Spares(Exec(env, es[..m]).db, LogOf(env, es, m), i, states)
    decreases |es|
  {
    if m < |es| {
      var n := |es| - 1;
      assert es[..n][..m] == es[..m];
      SparedLog(env, es[..n], m, i, states);
      LogReplaysRun(env, es[..n], m);
      var w, tx := Exec(env, es[..n]), TxOf(env, es[n]);
      if tx.Some? && !Rejected(w.db, tx.value) {
        WriteIsTx(env, w, es[n], i, states);
        SparesAppend(Exec(env, es[..m]).db, LogOf(env, es[..n], m), tx.value, i, states);
      }
    }
  }

  lemma SparesAppend(db: Db, log: seq<Tx>, tx: Tx, i: IntentId, states: set<State>)
    requires Spares(db, log, i, states) && !Hits(RunAll(db, log), tx, i, states)
    ensures Spares(db, log + [tx], i, states)
  {
    assert (log + [tx])[..|log|] == log;
  }

  /** From any point of any run on, an intent ends at the top of what reaches it, or EXPIRED if an expiry caught it at
      PROCESSING or below, unless its own FAILED write meets it COMPLETED or EXPIRED; from there it starts anew. */
  lemma RunsEndAtTheTop(env: Env, es: seq<Event>, m: nat, i: IntentId)
    requires Possible(env, es) && m <= |es| && SparesRun(env, es, m, i, TERMINAL)
    requires i in Exec(env, es[..m]).db.intents && OnLadder(Exec(env, es[..m]).db.intents[i].status)
    ensures Ends(Exec(env, es[..m]).db, Exec(env, es).db, LogOf(env, es, m), i)
  {
    LogReplaysRun(env, es, m);
    SparedLog(env, es, m, i, TERMINAL);
    CaptureWins(Exec(env, es[..m]).db, LogOf(env, es, m), i);
  }

  /** Two runs that have an intent alike and then bring it the same facts, in any order and multiplicity and among any
      other traffic, leave it alike unless one of them expires it or its FAILED write meets it terminal. */
  lemma RunsAgreeOnFacts(env: Env, a: seq<Event>, b: seq<Event>, m: nat, n: nat, i: IntentId)
    requires Possible(env, a) && m <= |a| && SparesRun(env, a, m, i, TERMINAL)
    requires Possible(env, b) && n <= |b| && SparesRun(env, b, n, i, TERMINAL)
    requires i in Exec(env, a[..m]).db.intents && OnLadder(Exec(env, a[..m]).db.intents[i].status)
    requires i in Exec(env, b[..n]).db.intents
    requires var x, y := Exec(env, a[..m]).db.intents[i], Exec(env, b[..n]).db.intents[i];
      x.amount == y.amount && x.currency == y.currency && x.status == y.status
    requires CausesOf(LogOf(env, a, m), i) == CausesOf(LogOf(env, b, n), i)
    requires forall tx :: tx in LogOf(env, a, m) + LogOf(env, b, n) && tx.i == i ==> !tx.TxExpire?
    ensures i in Exec(env, a).db.intents && i in Exec(env, b).db.intents
    ensures Exec(env, a).db.intents[i].status == Exec(env, b).db.intents[i].status
  {
    var x, y := Exec(env, a[..m]).db.intents[i], Exec(env, b[..n]).db.intents[i];
    var k, l := LogOf(env, a, m), LogOf(env, b, n);
    RunsEndAtTheTop(env, a, m, i);
    RunsEndAtTheTop(env, b, n, i);
    assert forall tx :: tx in k ==> tx in k + l;
    assert forall tx :: tx in l ==> tx in k + l;
    NoExpiry(x, k, i);
    NoExpiry(y, l, i);
    SameTermsSameTop(x, y, l, i);
    SameCausesSameTop(x, k, l, i);
  }

  lemma {:induction false} SameTermsSameTop(x: Intent, y: Intent, log: seq<Tx>, i: IntentId)
    requires x.amount == y.amount && x.currency == y.currency && x.status == y.status
    ensures Top(x, log, i) == Top(y, log, i)
    decreases |log|
  {
    if log != [] {
      SameTermsSameTop(x, y, log[..|log| - 1], i);
      var c := CauseOf(log[|log| - 1], i);
      if c.Some? { RungIsAmountOnly(x, y, c.value); }
    }
  }

  // ----- Terminal states -----

  lemma {:induction false} RunsAreLive(env: Env, es: seq<Event>)
    ensures AllLive(Exec(env, es).db)
    decreases |es|
  {
    if es != [] {
      RunsAreLive(env, es[..|es| - 1]);
      var tx := TxOf(env, es[|es| - 1]);
      if tx.Some? { KeepsLive(Exec(env, es[..|es| - 1]).db, tx.value); }
    }
  }

  /** An event moves a status up the ladder or leaves it, except by exactly a FAILED write over a terminal row. */
  lemma EventClimbs(env: Env, w: World, e: Event, i: IntentId)
    requires i in w.db.intents && Live(w.db.intents[i].status)
    ensures i in Next(env, w, e).db.intents
    ensures Climbs(w.db.intents[i].status, Next(env, w, e).db.intents[i].status) <==> !WriteHits(w, e, i, TERMINAL)
  {
    WriteIsTx(env, w, e, i, TERMINAL);
    if TxOf(env, e).Some? { TxClimbs(w.db, TxOf(env, e).value, i); }
  }

  ghost predicate EndedAs(db: Db, i: IntentId, s: State) {
    i in db.intents && db.intents[i].status == s
  }

  /** From the m-th event on the intent shows this state after every event. */
  ghost predicate StaysEnded(env: Env, es: seq<Event>, m: nat, i: IntentId, s: State) {
    EndedAs(Exec(env, es).db, i, s) && (m < |es| ==> StaysEnded(env, es[..|es| - 1], m, i, s))
  }

  predicate NoFailedWrite(es: seq<Event>, m: nat, i: IntentId) {
    |es| <= m
    || (NoFailedWrite(es[..|es| - 1], m, i) && !(es[|es| - 1].WriteFailed? && es[|es| - 1].i == i))
  }

  lemma TerminalStep(env: Env, w: World, e: Event, i: IntentId, s: State)
    requires Live(s) && IsTerminal(s) && EndedAs(w.db, i, s)
    ensures EndedAs(Next(env, w, e).db, i, s) <==> !(e.WriteFailed? && e.i == i)
  {
    EventClimbs(env, w, e, i);
  }

  /** Once COMPLETED or EXPIRED, an intent stays so through every later event of any run if and only if none of them is
      its own creation's FAILED write. */
  lemma {:induction false} TerminalIsFinal(env: Env, es: seq<Event>, m: nat, i: IntentId, s: State)
    requires m <= |es| && IsTerminal(s) && EndedAs(Exec(env, es[..m]).db, i, s)
    ensures StaysEnded(env, es, m, i, s) <==> NoFailedWrite(es, m, i)
    decreases |es|
  {
    if m == |es| {
      assert es[..m] == es;
    } else {
      var n := |es| - 1;
      assert es[..n][..m] == es[..m];
      TerminalIsFinal(env, es[..n], m, i, s);
      RunsAreLive(env, es[..n]);
      if EndedAs(Exec(env, es[..n]).db, i, s) { TerminalStep(env, Exec(env, es[..n]), es[n], i, s); }
    }
  }

  // ----- Audit -----

  /** After any run an intent's history is a legal path to its status if and only if each FAILED write of its creation
      found it PENDING; otherwise it is broken, whatever comes after. */
  lemma {:induction false} AuditedIffSpared(env: Env, es: seq<Event>, i: IntentId)
    ensures Audited(Exec(env, es).db, i) <==> SparesRun(env, es, 0, i, UNEXPECTED)
    ensures !SparesRun(env, es, 0, i, UNEXPECTED) ==> BrokenAt(Exec(env, es).db, i)
    decreases |es|
  {
    if es != [] {
      var n := |es| - 1;
      var w, tx := Exec(env, es[..n]), TxOf(env, es[n]);
      AuditedIffSpared(env, es[..n], i);
      WriteIsTx(env, w, es[n], i, UNEXPECTED);
      if tx.Some? { TxKeepsAudited(w.db, tx.value, i); }
      if BrokenAt(Exec(env, es).db, i) { BrokenIsNotAudited(Exec(env, es).db, i); }
    }
  }

  /** How often commits after its creation changed an intent's status. */
  ghost function StatusChanges(env: Env, es: seq<Event>, i: IntentId): nat {
    if es == [] then 0
    else
      var before, after := Exec(env, es[..|es| - 1]).db.intents, Exec(env, es).db.intents;
      StatusChanges(env, es[..|es| - 1], i)
      + if i in before && i in after && before[i].status != after[i].status then 1 else 0
  }

  ghost function Score(db: Db, i: IntentId): nat {
    if i in db.intents then Rank(db.intents[i].status) else 0
  }

  lemma {:induction false} ChangesClimb(env: Env, es: seq<Event>, i: IntentId)
    requires SparesRun(env, es, 0, i, TERMINAL)
    ensures StatusChanges(env, es, i) <= Score(Exec(env, es).db, i) <= 3
    decreases |es|
  {
    if es != [] {
      var n := |es| - 1;
      ChangesClimb(env, es[..n], i);
      RunsAreLive(env, es[..n]);
      var w := Exec(env, es[..n]);
      if i in w.db.intents { EventClimbs(env, w, es[n], i); }
    }
  }

  /** However many facts arrive in whatever order: the history of an intent whose FAILED write, if any, found it PENDING
      is a legal path to its status, at most six rows long, the status is a settled one, and at most three commits
      changed it. */
  lemma AuditTrail(env: Env, es: seq<Event>, i: IntentId)
    requires SparesRun(env, es, 0, i, UNEXPECTED) && i in Exec(env, es).db.intents
    ensures var db := Exec(env, es).db; var h := HistoryOf(db.history, i);
      && Chain(h) && h[|h| - 1].to == db.intents[i].status
      && |h| <= 6
      && Live(db.intents[i].status)
      && StatusChanges(env, es, i) <= 3
  {
    AuditedIffSpared(env, es, i);
    RunsAreLive(env, es);
    ChainIsShort(HistoryOf(Exec(env, es).db.history, i));
    SparesFewerRun(env, es, 0, i, UNEXPECTED, TERMINAL);
    ChangesClimb(env, es, i);
  }

  // ----- Money -----

  lemma EventKeepsPaid(env: Env, w: World, e: Event, i: IntentId)
    requires FreshOrders(env) && WiredOk(env, w) && Enabled(env, w, e) && Paid(w.db, i)
    ensures Paid(Next(env, w, e).db, i) <==> !WriteHits(w, e, i, PAID)
  {
    WriteIsTx(env, w, e, i, PAID);
    if TxOf(env, e).Some? {
      EnabledIsRouted(env, w, e);
      TxKeepsPaid(env, w.db, TxOf(env, e).value, i);
    }
  }

  /** After every event of the run, the money of this intent is in order. */
  ghost predicate AlwaysPaid(env: Env, es: seq<Event>, i: IntentId) {
    Paid(Exec(env, es).db, i) && (es != [] ==> AlwaysPaid(env, es[..|es| - 1], i))
  }

  /** The money of one intent is in order all along any run if and only if its FAILED write never meets it COMPLETED. */
  lemma {:induction false} PaidIffSpared(env: Env, es: seq<Event>, i: IntentId)
    requires FreshOrders(env) && Possible(env, es)
    ensures AlwaysPaid(env, es, i) <==> SparesRun(env, es, 0, i, PAID)
    decreases |es|
  {
    if es != [] {
      var n := |es| - 1;
      PaidIffSpared(env, es[..n], i);
      RunsAreWired(env, es[..n]);
      if Paid(Exec(env, es[..n]).db, i) { EventKeepsPaid(env, Exec(env, es[..n]), es[n], i); }
    }
  }

  /** After every event of the run, the whole ledger is in order. */
  ghost predicate AlwaysLedgerOk(env: Env, es: seq<Event>) {
    LedgerOk(env, Exec(env, es).db) && (es != [] ==> AlwaysLedgerOk(env, es[..|es| - 1]))
  }

  lemma EventKeepsLedger(env: Env, w: World, e: Event)
    requires FreshOrders(env) && WiredOk(env, w) && Enabled(env, w, e) && LedgerOk(env, w.db)
    ensures LedgerOk(env, Next(env, w, e).db) <==> !WriteHits(w, e, e.i, PAID)
  {
    WriteIsTx(env, w, e, e.i, PAID);
    if TxOf(env, e).Some? {
      EnabledIsRouted(env, w, e);
      KeepsLedger(env, w.db, TxOf(env, e).value);
    }
  }

  /** The ledger is in order all along any run if and only if no FAILED write in it meets a COMPLETED row: one look at
      the row before the write. */
  lemma {:induction false} LedgerIffSpared(env: Env, es: seq<Event>)
    requires FreshOrders(env) && Possible(env, es)
    ensures AlwaysLedgerOk(env, es) <==> SparesEach(env, es, PAID)
    decreases |es|
  {
    if es == [] {
      EmptyOk(env);
    } else {
      var n := |es| - 1;
      LedgerIffSpared(env, es[..n]);
      RunsAreWired(env, es[..n]);
      SparesEachStep(env, es, PAID);
      if LedgerOk(env, Exec(env, es[..n]).db) { EventKeepsLedger(env, Exec(env, es[..n]), es[n]); }
    }
  }

  /** In every run whose FAILED writes meet no COMPLETED row: each intent has one transaction for its own amount if it
      is completed and none otherwise, and the totals agree in every currency. */
  lemma MoneyIsConserved(env: Env, es: seq<Event>, currency: string)
    requires FreshOrders(env) && Possible(env, es) && SparesEach(env, es, PAID)
    ensures forall i :: Paid(Exec(env, es).db, i)
    ensures BookedOk(env, Exec(env, es).db)
    ensures Sum(Settled(Exec(env, es).db, currency)) == Sum(Completed(Exec(env, es).db, currency))
  {
    LedgerIffSpared(env, es);
    LedgerBalances(env, Exec(env, es).db, currency);
  }

  // ----- Routing, in every run -----

  /** The order row of an intent: the only one, found either way. */
  ghost predicate SoleOrder(db: Db, i: IntentId, o: OrderId) {
    && FindOrder(db.orders, o) == Some(i)
    && LatestOrder(db.orders, i) == Some(o)
    && forall r :: r in db.orders ==> (r.id == o <==> r.intent == i)
  }

  lemma RowIsSole(env: Env, db: Db, i: IntentId, o: OrderId)
    requires FreshOrders(env) && OrdersOk(env, db) && Order(o, i) in db.orders
    ensures SoleOrder(db, i, o)
  {
    FindOrderSome(db.orders, o);
    LatestOrderSome(db.orders, i);
  }

  lemma CallsStay(env: Env, w: World, e: Event)
    ensures w.calls <= Next(env, w, e).calls
  {
  }

  lemma {:induction false} CallsOnlyGrow(env: Env, es: seq<Event>, m: nat)
    requires m <= |es|
    ensures Exec(env, es[..m]).calls <= Exec(env, es).calls
    decreases |es|
  {
    if m == |es| {
      assert es[..m] == es;
    } else {
      assert es[..|es| - 1][..m] == es[..m];
      CallsOnlyGrow(env, es[..|es| - 1], m);
      CallsStay(env, Exec(env, es[..|es| - 1]), es[|es| - 1]);
    }
  }

  /** In every run, lost orders included: a fact once passed on names the one order of its intent, whichever way that is
      looked up, and this never changes. */
  lemma FactsAreRouted(env: Env, es: seq<Event>, m: nat, i: IntentId, f: GatewayPayment)
    requires FreshOrders(env) && Possible(env, es) && m <= |es| && (i, f) in Exec(env, es[..m]).calls
    ensures f.orderId == env.orderOf(f.paymentId) && SoleOrder(Exec(env, es).db, i, f.orderId)
  {
    CallsOnlyGrow(env, es, m);
    RunsAreWired(env, es);
    assert HasOrderRow(env, Exec(env, es), i);
    RowIsSole(env, Exec(env, es).db, i, f.orderId);
  }

  // ----- Attempts -----

  /** In every run: attempt numbers are 1..n per intent, and no payment id has two attempt rows. */
  lemma AttemptNumbers(env: Env, es: seq<Event>, i: IntentId)
    requires FreshOrders(env) && Possible(env, es)
    ensures var attempts := Exec(env, es).db.attempts;
      && NumbersOf(attempts, i) == UpTo(MaxNumber(attempts, i))
      && forall a, b :: 0 <= a < b < |attempts| && attempts[a].payment.Some? ==>
           attempts[a].payment != attempts[b].payment
  {
    RunsAreWired(env, es);
  }

  // ----- Settled attempts -----

  lemma EventKeepsSettled(env: Env, w: World, e: Event, p: PaymentId)
    requires FreshOrders(env) && WiredOk(env, w) && Enabled(env, w, e)
    requires p in Next(env, w, e).db.transactions
    requires p in w.db.transactions ==> Paid(w.db, w.db.transactions[p].intent) && SettledPayment(w.db, p)
    ensures SettledPayment(Next(env, w, e).db, p)
  {
    if TxOf(env, e).Some? {
      EnabledIsRouted(env, w, e);
      if p in w.db.transactions {
        KeepsSettledPayment(env, w.db, TxOf(env, e).value, p);
      } else {
        BookingSettles(w.db, TxOf(env, e).value, p);
      }
    }
  }

  lemma TransactionComesFrom(env: Env, w: World, e: Event, p: PaymentId)
    requires p in w.db.transactions
    ensures p in Next(env, w, e).db.transactions && Next(env, w, e).db.transactions[p] == w.db.transactions[p]
  {
    if TxOf(env, e).Some? { TransactionsStay(w.db, TxOf(env, e).value, p); }
  }

  /** While an intent's FAILED write never meets it COMPLETED, each of its transactions has a SUCCEEDED attempt. */
  lemma {:induction false} SparedIsSettled(env: Env, es: seq<Event>, i: IntentId, p: PaymentId)
    requires FreshOrders(env) && Possible(env, es) && SparesRun(env, es, 0, i, PAID)
    requires p in Exec(env, es).db.transactions && Exec(env, es).db.transactions[p].intent == i
    ensures Paid(Exec(env, es).db, i) && SettledPayment(Exec(env, es).db, p)
    decreases |es|
  {
    PaidIffSpared(env, es, i);
    if es != [] {
      var n := |es| - 1;
      var w := Exec(env, es[..n]);
      RunsAreWired(env, es[..n]);
      if p in w.db.transactions {
        TransactionComesFrom(env, w, es[n], p);
        SparedIsSettled(env, es[..n], i, p);
      }
      EventKeepsSettled(env, w, es[n], p);
    }
  }

  /** A transaction whose intent's FAILED write never met it COMPLETED has exactly one attempt row, and it says
      SUCCEEDED. */
  lemma SettledHasOneAttempt(env: Env, es: seq<Event>, p: PaymentId)
    requires FreshOrders(env) && Possible(env, es) && p in Exec(env, es).db.transactions
    requires SparesRun(env, es, 0, Exec(env, es).db.transactions[p].intent, PAID)
    ensures var attempts := Exec(env, es).db.attempts;
      exists k :: 0 <= k < |attempts| && attempts[k].payment == Some(p) && attempts[k].status == Reached(SUCCEEDED)
        && forall m :: 0 <= m < |attempts| && m != k ==> attempts[m].payment != Some(p)
  {
    RunsAreWired(env, es);
    SparedIsSettled(env, es, Exec(env, es).db.transactions[p].intent, p);
    var attempts := Exec(env, es).db.attempts;
    var k :| 0 <= k < |attempts| && attempts[k].payment == Some(p);
    assert attempts[k] in attempts;
  }

  /** Row k keeps its place, intent, number and payment id; transactions stay. */
  ghost predicate RowKept(before: Db, after: Db, k: nat) {
    && k < |before.attempts| && k < |after.attempts|
    && (var a, b := before.attempts[k], after.attempts[k];
        b.intent == a.intent && b.number == a.number && b.payment == a.payment)
    && forall p :: p in before.transactions ==>
         p in after.transactions && after.transactions[p] == before.transactions[p]
  }

  lemma EventKeepsRow(env: Env, w: World, e: Event, k: nat)
    requires k < |w.db.attempts|
    ensures RowKept(w.db, Next(env, w, e).db, k)
  {
    var tx := TxOf(env, e);
    if tx.Some? {
      AttemptKeepsPlace(w.db, tx.value, k);
      forall p | p in w.db.transactions
        ensures p in RunTx(w.db, tx.value).transactions && RunTx(w.db, tx.value).transactions[p] == w.db.transactions[p]
      {
        TransactionsStay(w.db, tx.value, p);
      }
    }
  }

  lemma RowKeptOn(a: Db, b: Db, c: Db, k: nat)
    requires RowKept(a, b, k) && RowKept(b, c, k)
    ensures RowKept(a, c, k)
  {
  }

  /** In every run, whatever happens later: an attempt row keeps its place, intent, number and payment id, and a
      transaction row everything. */
  lemma {:induction false} AttemptsKeepTheirPlace(env: Env, es: seq<Event>, m: nat, k: nat)
    requires Possible(env, es) && m <= |es| && k < |Exec(env, es[..m]).db.attempts|
    ensures RowKept(Exec(env, es[..m]).db, Exec(env, es).db, k)
    decreases |es|
  {
    if m == |es| {
      assert es[..m] == es;
    } else {
      var n := |es| - 1;
      assert es[..n][..m] == es[..m];
      AttemptsKeepTheirPlace(env, es[..n], m, k);
      EventKeepsRow(env, Exec(env, es[..n]), es[n], k);
      RowKeptOn(Exec(env, es[..m]).db, Exec(env, es[..n]).db, Exec(env, es).db, k);
    }
  }

  /** The attempt row at k backs a settled payment of intent i. */
  ghost predicate Backs(db: Db, k: nat, a: Attempt, i: IntentId) {
    && k < |db.attempts| && db.attempts[k] == a
    && a.payment.Some? && a.payment.value in db.transactions && db.transactions[a.payment.value].intent == i
  }

  lemma EventKeepsBacking(env: Env, w: World, e: Event, k: nat, a: Attempt, i: IntentId)
    requires FreshOrders(env) && WiredOk(env, w) && Paid(w.db, i) && Enabled(env, w, e) && Backs(w.db, k, a, i)
    ensures Backs(Next(env, w, e).db, k, a, i)
  {
    if TxOf(env, e).Some? {
      EnabledIsRouted(env, w, e);
      SettledAttemptStays(env, w.db, TxOf(env, e).value, k);
      TransactionsStay(w.db, TxOf(env, e).value, a.payment.value);
    }
  }

  /** While the intent's FAILED write never meets it COMPLETED, nothing that happens later, be it a webhook, a
      verification, a repair or a client report, changes the attempt row behind its transaction. */
  lemma {:induction false} SettledAttemptsAreFinal(env: Env, es: seq<Event>, m: nat, k: nat, a: Attempt, i: IntentId)
    requires FreshOrders(env) && Possible(env, es) && m <= |es| && SparesRun(env, es, 0, i, PAID)
    requires Backs(Exec(env, es[..m]).db, k, a, i)
    ensures Backs(Exec(env, es).db, k, a, i)
    decreases |es|
  {
    if m == |es| {
      assert es[..m] == es;
    } else {
      var n := |es| - 1;
      assert es[..n][..m] == es[..m];
      SettledAttemptsAreFinal(env, es[..n], m, k, a, i);
      RunsAreWired(env, es[..n]);
      PaidIffSpared(env, es[..n], i);
      EventKeepsBacking(env, Exec(env, es[..n]), es[n], k, a, i);
    }
  }
  // ----- All of this traffic can happen -----

  lemma Further(env: Env, es: seq<Event>, e: Event) returns (longer: seq<Event>)
    requires Possible(env, es) && Enabled(env, Exec(env, es), e)
    ensures Possible(env, longer) && Exec(env, longer) == Next(env, Exec(env, es), e)
  {
    longer := es + [e];
    assert longer[..|es|] == es;
  }

  /** An intent that has just been created and whose order row is there. */
  ghost predicate Payable(env: Env, w: World, i: IntentId, row: Intent) {
    i in w.db.intents && w.db.intents[i] == row && FindOrder(w.db.orders, env.orderFor(i)) == Some(i)
  }

  lemma CreationOpens(env: Env, es: seq<Event>, i: IntentId, amount: int, currency: string, now: int)
    returns (longer: seq<Event>)
    requires Possible(env, es) && i !in Exec(env, es).db.intents && amount > 0
    ensures Possible(env, longer)
    ensures var w, w' := Exec(env, es), Exec(env, longer);
      && i in w'.phases && w'.phases[i] == Calling && w'.db.orders == w.db.orders
      && i in w'.db.intents && w'.db.intents[i] == Intent(amount, currency, PENDING, now)
  {
    longer := Further(env, es, Begin(i, amount, currency, now));
  }

  lemma CreationSucceeds(env: Env, es: seq<Event>, i: IntentId, amount: int, currency: string, now: int)
    returns (longer: seq<Event>)
    requires FreshOrders(env) && Possible(env, es) && i !in Exec(env, es).db.intents && amount > 0
    ensures Possible(env, longer) && Payable(env, Exec(env, longer), i, Intent(amount, currency, PENDING, now))
  {
    RunsAreWired(env, es);
    FindOrderSome(Exec(env, es).db.orders, env.orderFor(i));
    longer := CreationOpens(env, es, i, amount, currency, now);
    longer := Further(env, longer, OrderIssued(i));
    longer := Further(env, longer, Persist(i, true, true, false));
  }

  lemma PersistUnheard(env: Env, es: seq<Event>, i: IntentId, committed: bool, retry: bool)
    returns (longer: seq<Event>)
    requires Possible(env, es)
    requires var w := Exec(env, es);
      i in w.phases && w.phases[i].Persisting? && i in w.db.intents && (retry ==> w.phases[i].tries < 2)
    ensures Possible(env, longer)
    ensures var w, w' := Exec(env, es), Exec(env, longer);
      && w'.db == (if committed then PersistOrder(w.db, i, env.orderFor(i)) else w.db) && i in w'.db.intents
      && i in w'.phases && w'.phases[i] == if retry then Persisting(w.phases[i].tries + 1) else GivingUp
  {
    longer := Further(env, es, Persist(i, committed, false, retry));
  }

  /** Persist attempts none of which is acknowledged, each committed or not, up to the last one. */
  lemma {:induction false} PersistsUnheard(env: Env, es: seq<Event>, i: IntentId, commits: seq<bool>)
    returns (longer: seq<Event>)
    requires Possible(env, es) && commits != []
    requires var w := Exec(env, es);
      i in w.phases && w.phases[i].Persisting? && w.phases[i].tries + |commits| <= 3 && i in w.db.intents
    ensures Possible(env, longer)
    ensures var w, w' := Exec(env, es), Exec(env, longer);
      && w'.db == (if true in commits then PersistOrder(w.db, i, env.orderFor(i)) else w.db)
      && i in w'.phases && w'.phases[i] == GivingUp
    decreases |commits|
  {
    longer := PersistUnheard(env, es, i, commits[0], |commits| > 1);
    assert commits == [commits[0]] + commits[1..];
    if |commits| > 1 {
      PersistTwice(Exec(env, es).db, i, env.orderFor(i));
      longer := PersistsUnheard(env, longer, i, commits[1..]);
    }
  }

  lemma PersistTwice(db: Db, i: IntentId, o: OrderId)
    ensures PersistOrder(PersistOrder(db, i, o), i, o) == PersistOrder(db, i, o)
  {
    FindOrderAppend(db.orders, Order(o, i), o);
  }

  /** Refused by the gateway, or with its persist attempts unheard, it comes to its FAILED write. */
  lemma CreationGivesUp(env: Env, es: seq<Event>, i: IntentId, commits: seq<bool>) returns (longer: seq<Event>)
    requires Possible(env, es) && |commits| <= 3
    requires var w := Exec(env, es); i in w.phases && w.phases[i] == Calling && i in w.db.intents
    ensures Possible(env, longer)
    ensures var w, w' := Exec(env, es), Exec(env, longer);
      && w'.db == (if true in commits then PersistOrder(w.db, i, env.orderFor(i)) else w.db)
      && i in w'.phases && w'.phases[i] == GivingUp
  {
    if commits == [] {
      longer := Further(env, es, OrderRefused(i));
    } else {
      longer := Further(env, es, OrderIssued(i));
      longer := PersistsUnheard(env, longer, i, commits);
    }
  }

  /** A creation whose order is refused, or whose up to three persist attempts go unheard, can end FAILED, with an order
      row exactly if one of those attempts committed. */
  lemma CreationFails(
    env: Env, es: seq<Event>, i: IntentId, amount: int, currency: string, commits: seq<bool>, now: int, later: int)
    returns (longer: seq<Event>)
    requires FreshOrders(env) && Possible(env, es) && i !in Exec(env, es).db.intents && amount > 0 && |commits| <= 3
    ensures Possible(env, longer)
    ensures var db := Exec(env, longer).db;
      && i in db.intents && db.intents[i] == Intent(amount, currency, FAILED, later)
      && db.orders == Exec(env, es).db.orders + if true in commits then [Order(env.orderFor(i), i)] else []
  {
    RunsAreWired(env, es);
    FindOrderSome(Exec(env, es).db.orders, env.orderFor(i));
    longer := CreationOpens(env, es, i, amount, currency, now);
    longer := CreationGivesUp(env, longer, i, commits);
    longer := Further(env, longer, WriteFailed(i, later));
  }

  /** What can reach an intent once its order row is there: its payments, an expiry, and reports of anything. */
  ghost predicate CanReach(env: Env, i: IntentId, tx: Tx) {
    match tx
    case TxApply(j, f, _) => j == i && f.orderId == env.orderFor(i) == env.orderOf(f.paymentId)
    case TxExpire(j, _) => j == i
    case TxReport(_, _) => true
    case _ => false
  }

  /** The order row is the one found by either lookup. */
  lemma OneOrderEach(env: Env, es: seq<Event>, i: IntentId)
    requires FreshOrders(env) && Possible(env, es)
    requires OrderStored(env, Exec(env, es).db, i)
    ensures LatestOrder(Exec(env, es).db.orders, i) == Some(env.orderFor(i))
  {
    RunsAreWired(env, es);
    FindOrderSome(Exec(env, es).db.orders, env.orderFor(i));
    LatestOrderSome(Exec(env, es).db.orders, i);
  }

  ghost predicate OrderStored(env: Env, db: Db, i: IntentId) {
    FindOrder(db.orders, env.orderFor(i)) == Some(i)
  }

  lemma TxArrives(env: Env, es: seq<Event>, i: IntentId, tx: Tx) returns (longer: seq<Event>)
    requires FreshOrders(env) && Possible(env, es) && CanReach(env, i, tx) && OrderStored(env, Exec(env, es).db, i)
    ensures Possible(env, longer) && Exec(env, longer).db == RunTx(Exec(env, es).db, tx)
    ensures OrderStored(env, Exec(env, longer).db, i)
  {
    OneOrderEach(env, es, i);
    FindOrderStays(Exec(env, es).db, tx, env.orderFor(i));
    match tx
    case TxApply(_, f, now) =>
      longer := Further(env, es, RouteByIntent(i, f));
      longer := Further(env, longer, Deliver(i, f, now));
    case TxExpire(_, now) =>
      longer := Further(env, es, Condemn(i));
      longer := Further(env, longer, ExpireStale(i, now));
    case TxReport(j, p) =>
      longer := Further(env, es, Report(j, p));
  }

  lemma {:induction false} LogArrives(env: Env, es: seq<Event>, i: IntentId, log: seq<Tx>) returns (longer: seq<Event>)
    requires FreshOrders(env) && Possible(env, es) && OrderStored(env, Exec(env, es).db, i)
    requires forall tx :: tx in log ==> CanReach(env, i, tx)
    ensures Possible(env, longer) && Exec(env, longer).db == RunAll(Exec(env, es).db, log)
    ensures OrderStored(env, Exec(env, longer).db, i)
    decreases |log|
  {
    if log == [] {
      longer := es;
    } else {
      var rest, tx := log[..|log| - 1], log[|log| - 1];
      assert tx in log && forall x :: x in rest ==> x in log;
      longer := LogArrives(env, es, i, rest);
      longer := TxArrives(env, longer, i, tx);
    }
  }

  /** Whatever has happened before, a new intent can be created, and then its payments, expiries and reports of anything
      can commit in any order and with any repetition; it ends at the top of what reached it, or EXPIRED. */
  lemma AnyTrafficCanArrive(
    env: Env, es: seq<Event>, i: IntentId, amount: int, currency: string, log: seq<Tx>, now: int)
    returns (opened': Db, longer: seq<Event>)
    requires FreshOrders(env) && Possible(env, es) && i !in Exec(env, es).db.intents && amount > 0
    requires forall tx :: tx in log ==> CanReach(env, i, tx)
    ensures Possible(env, longer) && Exec(env, longer).db == RunAll(opened', log)
    ensures i in opened'.intents && opened'.intents[i] == Intent(amount, currency, PENDING, now)
    ensures Ends(opened', Exec(env, longer).db, log, i)
  {
    longer := CreationSucceeds(env, es, i, amount, currency, now);
    opened' := Exec(env, longer).db;
    NoWriteSpares(opened', log, i, TERMINAL);
    CaptureWins(opened', log, i);
    longer := LogArrives(env, longer, i, log);
  }
}
