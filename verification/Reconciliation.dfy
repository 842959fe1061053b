/** Reconciliation of one intent: the verdict over the gateway's payments, and the one repair it allows. */
module Reconciliation {
  import opened Options
  import opened Lifecycle
  import opened Ledger
  import opened Invariants
  import opened Confluence

  const BATCH: nat := 200

  datatype Verdict =
    | Success(f: GatewayPayment)
    | Inconclusive(f: GatewayPayment)
    | Failure(f: GatewayPayment)
    | NoAttempt

  /** The first payment with a given status. */
  function Find(payments: seq<GatewayPayment>, status: GatewayStatus): Option<GatewayPayment> {
    if payments == [] then None
    else if payments[0].status == status then Some(payments[0])
    else Find(payments[1..], status)
  }

  function PickAuthoritativeOutcome(payments: seq<GatewayPayment>): Verdict {
    var captured, authorized := Find(payments, Captured), Find(payments, Authorized);
    var failed := Find(payments, GatewayStatus.Failed);
    if captured.Some? then Success(captured.value)
    else if authorized.Some? then Inconclusive(authorized.value)
    else if failed.Some? then Failure(failed.value)
    else NoAttempt
  }

  predicate Shows(payments: seq<GatewayPayment>, status: GatewayStatus) {
    exists f | f in payments :: f.status == status
  }

  lemma {:induction false} FindShows(payments: seq<GatewayPayment>, status: GatewayStatus)
    ensures Find(payments, status).Some? <==> Shows(payments, status)
    ensures Find(payments, status).Some? ==>
              Find(payments, status).value in payments && Find(payments, status).value.status == status
    decreases |payments|
  {
    if payments != [] {
      FindShows(payments[1..], status);
      if payments[0].status == status { assert payments[0] in payments; }
    }
  }

  /** The first payment of its status in the list. */
  ghost predicate IsFirst(payments: seq<GatewayPayment>, f: GatewayPayment) {
    exists k :: 0 <= k < |payments| && payments[k] == f && forall j :: 0 <= j < k ==> payments[j].status != f.status
  }

  lemma {:induction false} FindIsFirst(payments: seq<GatewayPayment>, status: GatewayStatus)
    ensures Find(payments, status).Some? ==> IsFirst(payments, Find(payments, status).value)
    decreases |payments|
  {
    if payments != [] && payments[0].status != status && Find(payments, status).Some? {
      var f := Find(payments, status).value;
      FindIsFirst(payments[1..], status);
      FindShows(payments[1..], status);
      var k :| 0 <= k < |payments[1..]| && payments[1..][k] == f
               && forall j :: 0 <= j < k ==> payments[1..][j].status != f.status;
      assert forall j :: 1 <= j < k + 1 ==> payments[j] == payments[1..][j - 1];
      assert payments[k + 1] == f && forall j :: 0 <= j < k + 1 ==> payments[j].status != f.status;
    }
  }

  /** The verdict depends on which statuses occur, not on the order of the list: a capture wins over everything, an
      authorization keeps the matter open, a failure counts if nothing else happened. Which payment stands for its
      status is the first. */
  lemma VerdictByStatus(payments: seq<GatewayPayment>)
    ensures var v := PickAuthoritativeOutcome(payments);
      && (v.Success? <==> Shows(payments, Captured))
      && (v.Inconclusive? <==> !Shows(payments, Captured) && Shows(payments, Authorized))
      && (v.Failure? <==>
            !Shows(payments, Captured) && !Shows(payments, Authorized) && Shows(payments, GatewayStatus.Failed))
      && (!v.NoAttempt? ==> v.f in payments && IsFirst(payments, v.f))
      && (v.Success? ==> v.f.status == Captured)
      && (v.Failure? ==> v.f.status == GatewayStatus.Failed)
  {
    FindShows(payments, Captured);
    FindShows(payments, Authorized);
    FindShows(payments, GatewayStatus.Failed);
    FindIsFirst(payments, Captured);
    FindIsFirst(payments, Authorized);
    FindIsFirst(payments, GatewayStatus.Failed);
  }

  datatype Outcome =
    | NoOrder
    | Error
    | Repaired(success: bool, applied: bool)
    | TooRecentToExpire
    | Expired(applied: bool)
    | Unknown

  /** What the gateway answers for an order; None is a failed fetch. */
  type View = OrderId -> Option<seq<GatewayPayment>>

  /** Whether applyGatewayOutcome would advance the intent, and whether it may expire. */
  predicate Advances(db: Db, i: IntentId, f: GatewayPayment) {
    i in db.intents && Decide(db.intents[i], f).Advance?
  }

  predicate Expirable(db: Db, i: IntentId) {
    i in db.intents && MayExpire(db.intents[i].status)
  }

  /** reconcileIntent: `row` is the intent as the sweep read it, `at` the time it is reached. */
  function ReconcileOutcome(db: Db, view: View, i: IntentId, row: Intent, at: int, abandonedAfter: int): Outcome {
    match LatestOrder(db.orders, i)
    case None => NoOrder
    case Some(o) =>
      match view(o)
      case None => Error
      case Some(payments) =>
        match PickAuthoritativeOutcome(payments)
        case Success(f) => Repaired(true, Advances(db, i, f))
        case Failure(f) => Repaired(false, Advances(db, i, f))
        case Inconclusive(_) => Unknown
        case NoAttempt => if at - row.updatedAt < abandonedAfter then TooRecentToExpire else Expired(Expirable(db, i))
  }

  function Reconcile(db: Db, view: View, i: IntentId, row: Intent, at: int, abandonedAfter: int): Db {
    match LatestOrder(db.orders, i)
    case None => db
    case Some(o) =>
      match view(o)
      case None => db
      case Some(payments) =>
        match PickAuthoritativeOutcome(payments)
        case Success(f) => ApplyOutcome(db, i, f, at)
        case Failure(f) => ApplyOutcome(db, i, f, at)
        case Inconclusive(_) => db
        case NoAttempt => if at - row.updatedAt < abandonedAfter then db else Expire(db, i, at)
  }

  // ----- What the answers mean -----

  ghost predicate ShowsNothing(payments: seq<GatewayPayment>) {
    !Shows(payments, Captured) && !Shows(payments, Authorized) && !Shows(payments, GatewayStatus.Failed)
  }

  /** The intent went from one status to another, or it did not. */
  predicate Went(from: State, to: State, target: State, moved: bool) {
    if moved then from != to && to == target else from == to
  }

  /** What each answer says of the list the gateway gave and of the intent's status before and after. */
  ghost predicate Tells(payments: seq<GatewayPayment>, young: bool, from: State, to: State, outcome: Outcome) {
    match outcome
    case Repaired(success, applied) =>
      && (success <==> Shows(payments, Captured))
      && (!success ==> !Shows(payments, Authorized) && Shows(payments, GatewayStatus.Failed))
      && Went(from, to, if success then COMPLETED else FAILED, applied)
    case Unknown => !Shows(payments, Captured) && Shows(payments, Authorized) && from == to
    case TooRecentToExpire => ShowsNothing(payments) && young && from == to
    case Expired(applied) => ShowsNothing(payments) && !young && Went(from, to, EXPIRED, applied)
    case _ => false
  }

  /** The answer, from an intent's row before and after: no order row names it, or the latest one's payments could not
      be fetched, or it tells of those payments. */
  ghost predicate Means(
    orders: seq<Order>, view: View, i: IntentId, young: bool, from: State, to: State, outcome: Outcome)
  {
    match LatestOrder(orders, i)
    case None => outcome == NoOrder && from == to
    case Some(o) =>
      if view(o).None? then outcome == Error && from == to else Tells(view(o).value, young, from, to, outcome)
  }

  /** What is done about the list: the first capture applied, else nothing if there is an authorization, else the first
      failure applied, else the intent expired unless it is too young. */
  ghost predicate Repairs(db: Db, db': Db, i: IntentId, payments: seq<GatewayPayment>, at: int, young: bool) {
    if Shows(payments, Captured) then AppliesFirst(db, db', i, payments, Captured, at)
    else if Shows(payments, Authorized) then db' == db
    else if Shows(payments, GatewayStatus.Failed) then AppliesFirst(db, db', i, payments, GatewayStatus.Failed, at)
    else db' == if young then db else Expire(db, i, at)
  }

  ghost predicate AppliesFirst(
    db: Db, db': Db, i: IntentId, payments: seq<GatewayPayment>, status: GatewayStatus, at: int)
  {
    exists f | f in payments :: f.status == status && IsFirst(payments, f) && db' == ApplyOutcome(db, i, f, at)
  }

  lemma ReconcileRepairs(db: Db, view: View, i: IntentId, row: Intent, at: int, abandonedAfter: int)
    requires LatestOrder(db.orders, i).Some? && view(LatestOrder(db.orders, i).value).Some?
    ensures Repairs(
      db, Reconcile(db, view, i, row, at, abandonedAfter), i, view(LatestOrder(db.orders, i).value).value, at,
      at - row.updatedAt < abandonedAfter)
  {
    VerdictByStatus(view(LatestOrder(db.orders, i).value).value);
  }

  /** A capture or a failure moves the intent exactly if the transaction says it did. */
  lemma AppliedWent(db: Db, i: IntentId, f: GatewayPayment, at: int)
    requires i in db.intents && f.status in {Captured, GatewayStatus.Failed}
    ensures i in ApplyOutcome(db, i, f, at).intents
    ensures Went(db.intents[i].status, ApplyOutcome(db, i, f, at).intents[i].status,
                 if f.status == Captured then COMPLETED else FAILED, Advances(db, i, f))
  {
    ApplyRow(db, i, f, at);
  }

  /** The answer means what it says, for the list and for what reconciling makes of the intent. */
  lemma OutcomeMeans(db: Db, view: View, i: IntentId, row: Intent, at: int, abandonedAfter: int)
    requires i in db.intents
    ensures var db' := Reconcile(db, view, i, row, at, abandonedAfter);
      && i in db'.intents
      && Means(db.orders, view, i, at - row.updatedAt < abandonedAfter, db.intents[i].status, db'.intents[i].status,
               ReconcileOutcome(db, view, i, row, at, abandonedAfter))
  {
    match LatestOrder(db.orders, i)
    case None =>
    case Some(o) =>
      if view(o).Some? {
        var v := PickAuthoritativeOutcome(view(o).value);
        VerdictByStatus(view(o).value);
        if v.Success? || v.Failure? { AppliedWent(db, i, v.f, at); }
      }
  }

  // ----- The repair against the ladder -----

  /** The whole list of payments, applied one by one. */
  function ApplyEach(payments: seq<GatewayPayment>, i: IntentId, at: int): seq<Tx> {
    seq(|payments|, k requires 0 <= k < |payments| => TxApply(i, payments[k], at))
  }

  lemma ApplyEachCauses(payments: seq<GatewayPayment>, i: IntentId, at: int)
    ensures CausesOf(ApplyEach(payments, i, at), i) == set f | f in payments :: Fact(f)
    ensures forall tx :: tx in ApplyEach(payments, i, at) ==> tx.TxApply?
  {
    var log := ApplyEach(payments, i, at);
    forall f | f in payments
      ensures Fact(f) in CausesOf(log, i)
    {
      var k :| 0 <= k < |payments| && payments[k] == f;
      assert log[k] in log && CauseOf(log[k], i) == Some(Fact(f));
    }
  }

  /** Where a list of matching payments leads, read off its statuses. */
  lemma TopByStatus(row: Intent, payments: seq<GatewayPayment>, log: seq<Tx>, i: IntentId)
    requires row.status in {PENDING, PROCESSING} && CausesOf(log, i) == set f | f in payments :: Fact(f)
    requires forall f :: f in payments ==> f.amount == row.amount && f.currency == row.currency
    ensures Top(row, log, i) ==
            if Shows(payments, Captured) then COMPLETED
            else if Shows(payments, GatewayStatus.Failed) then FAILED
            else if Shows(payments, Authorized) then PROCESSING
            else row.status
  {
    TopIsMaximum(row, log, i);
    TopIsOnLadder(row, log, i);
    forall f | f in payments
      ensures Rank(Ladder(row, f)) <= Rank(Top(row, log, i))
    {
      assert Fact(f) in CausesOf(log, i);
    }
  }

  predicate Matching(row: Intent, payments: seq<GatewayPayment>) {
    forall f :: f in payments ==> f.amount == row.amount && f.currency == row.currency
  }

  lemma WholeListEndsAtTop(db: Db, i: IntentId, payments: seq<GatewayPayment>, at: int)
    requires i in db.intents && db.intents[i].status in {PENDING, PROCESSING}
    ensures var log := ApplyEach(payments, i, at);
      i in RunAll(db, log).intents && RunAll(db, log).intents[i].status == Top(db.intents[i], log, i)
  {
    var log := ApplyEach(payments, i, at);
    ApplyEachCauses(payments, i, at);
    NoWriteSpares(db, log, i, TERMINAL);
    NoExpiry(db.intents[i], log, i);
    CaptureWins(db, log, i);
  }

  lemma RepairByStatus(db: Db, i: IntentId, payments: seq<GatewayPayment>, at: int)
    requires i in db.intents && Matching(db.intents[i], payments)
    requires db.intents[i].status in {PENDING, PROCESSING} && !PickAuthoritativeOutcome(payments).NoAttempt?
    ensures i in AfterRepair(db, i, payments, at).intents
    ensures AfterRepair(db, i, payments, at).intents[i].status ==
            if Shows(payments, Captured) then COMPLETED
            else if Shows(payments, Authorized) then db.intents[i].status
            else FAILED
  {
    VerdictByStatus(payments);
    FindShows(payments, Captured);
    FindShows(payments, GatewayStatus.Failed);
    var v := PickAuthoritativeOutcome(payments);
    if !v.Inconclusive? { ApplyMove(db, i, v.f, at); }
  }

  /** The store after the repair the verdict allows; an inconclusive one allows none. */
  function AfterRepair(db: Db, i: IntentId, payments: seq<GatewayPayment>, at: int): Db
    requires !PickAuthoritativeOutcome(payments).NoAttempt?
  {
    var v := PickAuthoritativeOutcome(payments);
    if v.Inconclusive? then db else ApplyOutcome(db, i, v.f, at)
  }

  /** What is picked is one of the payments, so applying them all goes at least as far. */
  lemma RepairIsBelow(db: Db, i: IntentId, payments: seq<GatewayPayment>, at: int)
    requires i in db.intents && db.intents[i].status in {PENDING, PROCESSING}
    requires !PickAuthoritativeOutcome(payments).NoAttempt?
    ensures i in AfterRepair(db, i, payments, at).intents
    ensures Rank(AfterRepair(db, i, payments, at).intents[i].status)
            <= Rank(Top(db.intents[i], ApplyEach(payments, i, at), i))
  {
    var row, log, v := db.intents[i], ApplyEach(payments, i, at), PickAuthoritativeOutcome(payments);
    VerdictByStatus(payments);
    ApplyEachCauses(payments, i, at);
    TopIsMaximum(row, log, i);
    if !v.Inconclusive? {
      ApplyMove(db, i, v.f, at);
      assert Fact(v.f) in CausesOf(log, i);
    }
  }

  /** Reconciliation never overtakes the facts: repairing from the verdict leaves the intent no higher than applying
      the gateway's whole list would. If the amounts match, it leaves it exactly as high just when the list shows a
      capture, or a failure and no authorization, or nothing above what the intent already is. */
  lemma RepairNeverOvertakes(db: Db, i: IntentId, payments: seq<GatewayPayment>, at: int)
    requires i in db.intents && db.intents[i].status in {PENDING, PROCESSING}
    requires !PickAuthoritativeOutcome(payments).NoAttempt?
    ensures i in RunAll(db, ApplyEach(payments, i, at)).intents && i in AfterRepair(db, i, payments, at).intents
    ensures var repaired, all := AfterRepair(db, i, payments, at), RunAll(db, ApplyEach(payments, i, at));
      && Rank(repaired.intents[i].status) <= Rank(all.intents[i].status)
      && (Matching(db.intents[i], payments) ==>
            (repaired.intents[i].status == all.intents[i].status <==>
               Shows(payments, Captured)
               || (Shows(payments, GatewayStatus.Failed) && !Shows(payments, Authorized))
               || (db.intents[i].status == PROCESSING && !Shows(payments, GatewayStatus.Failed))))
  {
    WholeListEndsAtTop(db, i, payments, at);
    RepairIsBelow(db, i, payments, at);
    if Matching(db.intents[i], payments) {
      VerdictByStatus(payments);
      RepairByStatus(db, i, payments, at);
      ApplyEachCauses(payments, i, at);
      TopByStatus(db.intents[i], payments, ApplyEach(payments, i, at), i);
    }
  }
}
