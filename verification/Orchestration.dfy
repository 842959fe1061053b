/** Whole runs: createPayment calls in their phases, gateway facts routed in by webhook, verification and
    reconciliation, client reports, crashes, and every transaction an atomic step (Interleaving justifies that). */
module Orchestration {
  import opened Options
  import opened Lifecycle
  import opened Ledger
  import opened Invariants

  /** Where one createPayment call stands. */
  datatype Phase = Calling | Persisting(tries: nat) | GivingUp | Finished

  const PERSIST_ATTEMPTS: nat := 3

  /** The store, the createPayment calls, and the applyGatewayOutcome / expireStalePayment calls decided upon. */
  datatype World = World(
    db: Db,
    phases: map<IntentId, Phase>,
    calls: set<(IntentId, GatewayPayment)>,
    condemned: set<IntentId>)

  const INITIAL: World := World(EMPTY, map[], {}, {})

  datatype Event =
    | Begin(i: IntentId, amount: int, currency: string, now: int)
    | OrderIssued(i: IntentId)
    | OrderRefused(i: IntentId)
    | Persist(i: IntentId, committed: bool, acknowledged: bool, retry: bool)
    | WriteFailed(i: IntentId, now: int)
    | AbandonWrite(i: IntentId)
    | Crash(i: IntentId)
    | RouteByOrder(i: IntentId, f: GatewayPayment)
    | RouteByIntent(i: IntentId, f: GatewayPayment)
    | Deliver(i: IntentId, f: GatewayPayment, now: int)
    | Condemn(i: IntentId)
    | ExpireStale(i: IntentId, now: int)
    | Report(i: IntentId, p: Option<PaymentId>)

  ghost predicate Enabled(env: Env, w: World, e: Event) {
    match e
    case Begin(i, amount, _, _) => i !in w.db.intents && amount > 0
    case OrderIssued(i) => i in w.phases && w.phases[i].Calling?
    case OrderRefused(i) => i in w.phases && w.phases[i].Calling?
    case Persist(i, committed, acknowledged, retry) =>
      i in w.phases && w.phases[i].Persisting?
      && (acknowledged ==> committed)
      && (retry ==> w.phases[i].tries + 1 < PERSIST_ATTEMPTS)
    case WriteFailed(i, _) => i in w.phases && w.phases[i].GivingUp?
    case AbandonWrite(i) => i in w.phases && w.phases[i].GivingUp?
    case Crash(i) => i in w.phases
    // Webhook and verification find the intent through the order row the payment names.
    case RouteByOrder(i, f) => FindOrder(w.db.orders, f.orderId) == Some(i) && f.orderId == env.orderOf(f.paymentId)
    // Reconciliation fetches the payments of the intent's latest order.
    case RouteByIntent(i, f) => LatestOrder(w.db.orders, i) == Some(f.orderId) && f.orderId == env.orderOf(f.paymentId)
    // A routed call may run once, several times (redelivery, replay after a crash) or never.
    case Deliver(i, f, _) => (i, f) in w.calls
    case Condemn(i) => LatestOrder(w.db.orders, i).Some?
    case ExpireStale(i, _) => i in w.condemned
    // A client may report any payment id against any intent.
    case Report(_, _) => true
  }

  /** The transaction an event commits, if any. */
  function TxOf(env: Env, e: Event): Option<Tx> {
    match e
    case Begin(i, amount, currency, now) => Some(TxCreate(i, amount, currency, now))
    case Persist(i, committed, _, _) => if committed then Some(TxPersist(i, env.orderFor(i))) else None
    case WriteFailed(i, now) => Some(TxFail(i, now))
    case Deliver(i, f, now) => Some(TxApply(i, f, now))
    case ExpireStale(i, now) => Some(TxExpire(i, now))
    case Report(i, p) => Some(TxReport(i, p))
    case _ => None
  }

  function NextPhases(w: World, e: Event): map<IntentId, Phase> {
    match e
    case Begin(i, _, _, _) => w.phases[i := Calling]
    case OrderIssued(i) => w.phases[i := Persisting(0)]
    case OrderRefused(i) => w.phases[i := GivingUp]
    case Persist(i, _, acknowledged, retry) =>
      w.phases[i :=
        if acknowledged then Finished
        else if retry && i in w.phases && w.phases[i].Persisting? then Persisting(w.phases[i].tries + 1)
        else GivingUp]
    case WriteFailed(i, _) => w.phases[i := Finished]
    case AbandonWrite(i) => w.phases[i := Finished]
    case Crash(i) => w.phases[i := Finished]
    case _ => w.phases
  }

  function Next(env: Env, w: World, e: Event): World {
    var tx := TxOf(env, e);
    World(
      if tx.Some? then RunTx(w.db, tx.value) else w.db,
      NextPhases(w, e),
      if e.RouteByOrder? || e.RouteByIntent? then w.calls + {(e.i, e.f)} else w.calls,
      if e.Condemn? then w.condemned + {e.i} else w.condemned)
  }

  function Exec(env: Env, es: seq<Event>): World {
    if es == [] then INITIAL else Next(env, Exec(env, es[..|es| - 1]), es[|es| - 1])
  }

  ghost predicate Possible(env: Env, es: seq<Event>) {
    es == [] || (Possible(env, es[..|es| - 1]) && Enabled(env, Exec(env, es[..|es| - 1]), es[|es| - 1]))
  }

  /** The transactions a run commits after its first m events, in order; one that throws commits nothing. */
  function LogOf(env: Env, es: seq<Event>, m: nat): seq<Tx> {
    if |es| <= m then []
    else
      var rest, tx := LogOf(env, es[..|es| - 1], m), TxOf(env, es[|es| - 1]);
      if tx.Some? && !Rejected(Exec(env, es[..|es| - 1]).db, tx.value) then rest + [tx.value] else rest
  }

  // ----- The run invariant -----

  ghost predicate HasOrderRow(env: Env, w: World, i: IntentId) {
    Order(env.orderFor(i), i) in w.db.orders
  }

  /** Fact routing: every call in flight names the order of its own intent, and that order's row is there. */
  ghost predicate RoutingOk(env: Env, w: World) {
    && (forall i, f :: (i, f) in w.calls ==>
          env.orderOf(f.paymentId) == f.orderId == env.orderFor(i) && HasOrderRow(env, w, i))
    && (forall i :: i in w.condemned ==> HasOrderRow(env, w, i))
  }

  /** Without an order row only createPayment itself has touched the status. */
  ghost predicate UntouchedOk(env: Env, w: World) {
    && w.phases.Keys == w.db.intents.Keys
    && (forall i :: i in w.phases && w.phases[i].Calling? ==> !HasOrderRow(env, w, i))
    && (forall i :: i in w.phases && !HasOrderRow(env, w, i) ==>
          w.db.intents[i].status == PENDING || (w.phases[i].Finished? && w.db.intents[i].status == FAILED))
  }

  /** What holds of every run whatsoever: order and attempt rows are in order, facts find their intents, and every
      transaction is booked on the intent its payment belongs to. */
  ghost predicate WiredOk(env: Env, w: World) {
    OrdersOk(env, w.db) && AttemptsOk(w.db) && BookedOk(env, w.db) && RoutingOk(env, w) && UntouchedOk(env, w)
  }

  ghost predicate WorldOk(env: Env, w: World) {
    DbOk(env, w.db) && WiredOk(env, w)
  }

  /** The FAILED write of the intent's creation finds its row in one of these states. */
  predicate WriteHits(w: World, e: Event, i: IntentId, states: set<State>) {
    e.WriteFailed? && e.i == i && i in w.db.intents && w.db.intents[i].status in states
  }

  /** The unguarded write meets the status it assumes. */
  predicate Guarded(w: World, e: Event) {
    !WriteHits(w, e, e.i, UNEXPECTED)
  }

  lemma EnabledIsRouted(env: Env, w: World, e: Event)
    requires RoutingOk(env, w) && Enabled(env, w, e) && TxOf(env, e).Some?
    ensures Routed(env, TxOf(env, e).value)
  {
  }

  lemma WriteIsTx(env: Env, w: World, e: Event, i: IntentId, states: set<State>)
    ensures WriteHits(w, e, i, states) <==> TxOf(env, e).Some? && Hits(w.db, TxOf(env, e).value, i, states)
  {
  }

  lemma OrderRowsStay(db: Db, tx: Tx, r: Order)
    requires r in db.orders
    ensures r in RunTx(db, tx).orders
  {
  }

  lemma EventKeepsRouting(env: Env, w: World, e: Event)
    requires FreshOrders(env) && WiredOk(env, w) && Enabled(env, w, e)
    ensures RoutingOk(env, Next(env, w, e))
  {
    var w' := Next(env, w, e);
    forall i | HasOrderRow(env, w, i)
      ensures HasOrderRow(env, w', i)
    {
      if TxOf(env, e).Some? { OrderRowsStay(w.db, TxOf(env, e).value, Order(env.orderFor(i), i)); }
    }
    if e.RouteByOrder? { FindOrderSome(w.db.orders, e.f.orderId); }
    if e.RouteByIntent? { LatestOrderSome(w.db.orders, e.i); }
    if e.Condemn? { LatestOrderSome(w.db.orders, e.i); }
  }

  /** What an event does to the phases and orders, transaction bodies aside. */
  lemma EventShape(env: Env, w: World, e: Event)
    requires Enabled(env, w, e) && w.phases.Keys == w.db.intents.Keys
    ensures Next(env, w, e).phases.Keys == Next(env, w, e).db.intents.Keys
    ensures Next(env, w, e).db.orders ==
            if e.Persist? && e.committed && FindOrder(w.db.orders, env.orderFor(e.i)).None?
            then w.db.orders + [Order(env.orderFor(e.i), e.i)] else w.db.orders
    ensures forall j :: j in w.db.intents && (e.Begin? || e.Persist? || j != e.i) ==>
              Next(env, w, e).db.intents[j] == w.db.intents[j]
  {
    var tx := TxOf(env, e);
    if tx.Some? {
      TxTouchesOneIntent(w.db, tx.value);
      TxAddsOrders(w.db, tx.value);
    }
  }

  /** Only a call in flight, a condemnation or createPayment itself can move a status. */
  lemma StatusMovers(env: Env, w: World, e: Event, i: IntentId)
    requires i in w.db.intents && !e.Deliver? && !e.ExpireStale? && !e.WriteFailed?
    ensures i in Next(env, w, e).db.intents && Next(env, w, e).db.intents[i] == w.db.intents[i]
  {
  }

  lemma NewcomerIsUntouched(env: Env, w: World, e: Event)
    requires WiredOk(env, w) && Enabled(env, w, e) && e.Begin?
    ensures !HasOrderRow(env, Next(env, w, e), e.i) && Next(env, w, e).db.intents[e.i].status == PENDING
  {
  }

  /** Nothing routed reaches an intent without an order row. */
  lemma OwnEventKeepsUntouched(env: Env, w: World, e: Event)
    requires WiredOk(env, w) && Enabled(env, w, e) && e.i in w.phases && !e.Begin?
    ensures e.i in Next(env, w, e).phases && e.i in Next(env, w, e).db.intents
    ensures Next(env, w, e).phases[e.i].Calling? ==> w.phases[e.i].Calling? && !e.Persist?
    ensures !HasOrderRow(env, w, e.i) ==>
      var row := Next(env, w, e).db.intents[e.i];
      row.status == PENDING || (Next(env, w, e).phases[e.i].Finished? && row.status == FAILED)
  {
    EventShape(env, w, e);
    if e.Deliver? || e.ExpireStale? {
      assert HasOrderRow(env, w, e.i);
    } else if !e.WriteFailed? {
      StatusMovers(env, w, e, e.i);
    }
  }

  lemma EventKeepsUntouched(env: Env, w: World, e: Event)
    requires WiredOk(env, w) && Enabled(env, w, e)
    ensures UntouchedOk(env, Next(env, w, e))
  {
    var w' := Next(env, w, e);
    EventShape(env, w, e);
    if e.Begin? { NewcomerIsUntouched(env, w, e); } else if e.i in w.phases { OwnEventKeepsUntouched(env, w, e); }
    forall i | i in w'.phases
      ensures w'.phases[i].Calling? ==> !HasOrderRow(env, w', i)
      ensures !HasOrderRow(env, w', i) ==>
        w'.db.intents[i].status == PENDING || (w'.phases[i].Finished? && w'.db.intents[i].status == FAILED)
    {
      if i != e.i { assert w'.phases[i] == w.phases[i]; }
    }
  }

  lemma EventKeepsWired(env: Env, w: World, e: Event)
    requires FreshOrders(env) && WiredOk(env, w) && Enabled(env, w, e)
    ensures WiredOk(env, Next(env, w, e))
  {
    if TxOf(env, e).Some? {
      EnabledIsRouted(env, w, e);
      KeepsOrders(env, w.db, TxOf(env, e).value);
      KeepsAttempts(w.db, TxOf(env, e).value);
      KeepsBooked(env, w.db, TxOf(env, e).value);
    }
    EventKeepsRouting(env, w, e);
    EventKeepsUntouched(env, w, e);
  }

  /** A write that is not guarded meets an intent with an order row. */
  lemma OrderlessWriteIsGuarded(env: Env, w: World, e: Event)
    requires WiredOk(env, w) && Enabled(env, w, e) && !HasOrderRow(env, w, e.i)
    ensures Guarded(w, e)
  {
  }

  // ----- Runs -----

  ghost predicate GuardedRun(env: Env, es: seq<Event>) {
    es == [] || (GuardedRun(env, es[..|es| - 1]) && Guarded(Exec(env, es[..|es| - 1]), es[|es| - 1]))
  }

  /** No FAILED write of this intent after the first m events finds its row in one of these states. */
  ghost predicate SparesRun(env: Env, es: seq<Event>, m: nat, i: IntentId, states: set<State>) {
    |es| <= m
    || (SparesRun(env, es[..|es| - 1], m, i, states)
        && !WriteHits(Exec(env, es[..|es| - 1]), es[|es| - 1], i, states))
  }

  lemma {:induction false} SparesFewerRun(
    env: Env, es: seq<Event>, m: nat, i: IntentId, states: set<State>, fewer: set<State>)
    requires SparesRun(env, es, m, i, states) && fewer <= states
    ensures SparesRun(env, es, m, i, fewer)
    decreases |es|
  {
    if m < |es| { SparesFewerRun(env, es[..|es| - 1], m, i, states, fewer); }
  }

  ghost predicate SparesEach(env: Env, es: seq<Event>, states: set<State>) {
    forall i :: SparesRun(env, es, 0, i, states)
  }

  lemma SparesEachStep(env: Env, es: seq<Event>, states: set<State>)
    requires es != []
    ensures SparesEach(env, es, states) <==>
            SparesEach(env, es[..|es| - 1], states)
            && !WriteHits(Exec(env, es[..|es| - 1]), es[|es| - 1], es[|es| - 1].i, states)
  {
    var n := |es| - 1;
    forall i
      ensures SparesRun(env, es, 0, i, states) <==>
              SparesRun(env, es[..n], 0, i, states) && !WriteHits(Exec(env, es[..n]), es[n], i, states)
    {
    }
    if SparesEach(env, es, states) { assert SparesRun(env, es, 0, es[n].i, states); }
  }

  /** A run is guarded if it is for each intent. */
  lemma {:induction false} GuardedIntentByIntent(env: Env, es: seq<Event>)
    ensures GuardedRun(env, es) <==> SparesEach(env, es, UNEXPECTED)
    decreases |es|
  {
    if es != [] {
      GuardedIntentByIntent(env, es[..|es| - 1]);
      SparesEachStep(env, es, UNEXPECTED);
    }
  }

  lemma {:induction false} StepwisePossible(env: Env, es: seq<Event>)
    requires forall k :: 0 <= k < |es| ==> Enabled(env, Exec(env, es[..k]), es[k])
    ensures Possible(env, es)
    decreases |es|
  {
    if es != [] {
      var n := |es| - 1;
      assert forall k :: 0 <= k < n ==> es[..n][..k] == es[..k] && es[..n][k] == es[k];
      StepwisePossible(env, es[..n]);
      assert Enabled(env, Exec(env, es[..n]), es[n]);
    }
  }

  /** Every run, lost orders included. */
  lemma {:induction false} RunsAreWired(env: Env, es: seq<Event>)
    requires FreshOrders(env) && Possible(env, es)
    ensures WiredOk(env, Exec(env, es))
    decreases |es|
  {
    if es == [] {
      EmptyOk(env);
    } else {
      RunsAreWired(env, es[..|es| - 1]);
      EventKeepsWired(env, Exec(env, es[..|es| - 1]), es[|es| - 1]);
    }
  }

  lemma EventKeepsSound(env: Env, w: World, e: Event)
    requires FreshOrders(env) && WiredOk(env, w) && Enabled(env, w, e)
    ensures DbOk(env, w.db) && Guarded(w, e) ==> DbOk(env, Next(env, w, e).db)
    ensures Broken(w.db) || (DbOk(env, w.db) && !Guarded(w, e)) ==> Broken(Next(env, w, e).db)
  {
    if TxOf(env, e).Some? {
      var tx := TxOf(env, e).value;
      EnabledIsRouted(env, w, e);
      WriteIsTx(env, w, e, e.i, UNEXPECTED);
      if Broken(w.db) {
        SomeBrokenStays(w.db, tx);
      } else if DbOk(env, w.db) && !Guarded(w, e) {
        UnguardedWriteBreaks(w.db, tx);
      }
      if DbOk(env, w.db) && Guarded(w, e) { KeepsDbOk(env, w.db, tx); }
    }
  }

  /** After any run the store satisfies the invariant if and only if every unguarded FAILED write in it found its row
      still PENDING: the check createPayment would make if it locked the row and looked. Nothing that happens later
      mends a history once broken. */
  lemma {:induction false} RunsAreSoundIffGuarded(env: Env, es: seq<Event>)
    requires FreshOrders(env) && Possible(env, es)
    ensures DbOk(env, Exec(env, es).db) <==> GuardedRun(env, es)
    ensures !GuardedRun(env, es) ==> Broken(Exec(env, es).db)
    decreases |es|
  {
    if es == [] {
      EmptyOk(env);
    } else {
      var n := |es| - 1;
      RunsAreSoundIffGuarded(env, es[..n]);
      RunsAreWired(env, es[..n]);
      EventKeepsSound(env, Exec(env, es[..n]), es[n]);
      if Broken(Exec(env, es).db) { BrokenIsNotOk(env, Exec(env, es).db); }
    }
  }

  lemma GuardedRunsAreSound(env: Env, es: seq<Event>)
    requires FreshOrders(env) && Possible(env, es) && GuardedRun(env, es)
    ensures WorldOk(env, Exec(env, es))
  {
    RunsAreSoundIffGuarded(env, es);
    RunsAreWired(env, es);
  }

  lemma OneMore(env: Env, es: seq<Event>, k: nat)
    requires k < |es|
    ensures Exec(env, es[..k + 1]) == Next(env, Exec(env, es[..k]), es[k])
  {
    assert es[..k + 1][..k] == es[..k];
  }

  /** No persist attempt of a creation that was given up had committed its row unnoticed. */
  predicate NoLostOrder(es: seq<Event>) {
    forall k, m :: 0 <= m < k < |es| && es[k].WriteFailed? && es[m].Persist? && es[m].i == es[k].i ==> !es[m].committed
  }

  lemma PersistAddsOwnOrder(env: Env, w: World, e: Event, i: IntentId)
    requires forall r :: r in w.db.orders ==> r.intent != i
    requires e.Persist? && e.i == i ==> !e.committed
    ensures forall r :: r in Next(env, w, e).db.orders ==> r.intent != i
  {
    if TxOf(env, e).Some? { TxAddsOrders(w.db, TxOf(env, e).value); }
  }

  /** An order row comes from a persist attempt that committed. */
  lemma {:induction false} OrderRowNeedsCommit(env: Env, es: seq<Event>, i: IntentId)
    requires forall m :: 0 <= m < |es| && es[m].Persist? && es[m].i == i ==> !es[m].committed
    ensures forall r :: r in Exec(env, es).db.orders ==> r.intent != i
    decreases |es|
  {
    if es != [] {
      var n := |es| - 1;
      assert forall m :: 0 <= m < n ==> es[..n][m] == es[m];
      OrderRowNeedsCommit(env, es[..n], i);
      PersistAddsOwnOrder(env, Exec(env, es[..n]), es[n], i);
    }
  }

  /** Non-interference: until its order row exists nothing but createPayment moves an intent, so a creation that
      committed no order row fails from PENDING, whatever else runs meanwhile. */
  lemma {:induction false} NoLostOrderMeansGuarded(env: Env, es: seq<Event>)
    requires FreshOrders(env) && Possible(env, es) && NoLostOrder(es)
    ensures GuardedRun(env, es)
    decreases |es|
  {
    if es != [] {
      var n := |es| - 1;
      NoLostOrderMeansGuarded(env, es[..n]);
      if es[n].WriteFailed? {
        assert forall m :: 0 <= m < n ==> es[..n][m] == es[m];
        RunsAreWired(env, es[..n]);
        OrderRowNeedsCommit(env, es[..n], es[n].i);
        OrderlessWriteIsGuarded(env, Exec(env, es[..n]), es[n]);
      }
    }
  }
}
