/** The webhook handler and the reconciliation sweep as they run, each call alone on the store. */
module Services {
  import opened Ledger
  import opened PaymentService
  import opened Lifecycle
  import opened Invariants
  import opened Confluence
  import opened Replay
  import opened Reconciliation
  import opened Sweep
  import Webhooks

  datatype Handling = Rejected | Duplicate | Processed | Failed

  /** What throws while an event is handled: its insert, the order look-up, marking it IGNORED, the transaction, marking
      it PROCESSED, marking it FAILED. */
  datatype HandlerFaults = HandlerFaults(
    insert: bool, look: bool, ignore: bool, apply: Faults, processed: bool, failed: bool)

  /** A fact applied to an intent takes its status to the higher of what it was and what the fact is worth, books a
      transaction exactly for a matching capture that settles it, and is absorbed from then on. */
  lemma FactLands(db: Db, i: IntentId, f: GatewayPayment, now: int)
    ensures var db' := ApplyOutcome(db, i, f, now);
      i in db.intents && Live(db.intents[i].status) ==>
        && i in db'.intents
        && db'.intents[i].status ==
           (if db.intents[i].status != EXPIRED && Rank(Ladder(db.intents[i], f)) > Rank(db.intents[i].status)
            then Ladder(db.intents[i], f) else db.intents[i].status)
        && db'.transactions ==
           (if f.status == Captured && f.amount == db.intents[i].amount && f.currency == db.intents[i].currency
               && db.intents[i].status !in {COMPLETED, EXPIRED} && f.paymentId !in db.transactions
            then db.transactions[f.paymentId := Transaction(i, f.amount, f.currency)] else db.transactions)
        && Absorbed(db', i, f)
  {
    if i in db.intents && Live(db.intents[i].status) {
      ApplyMove(db, i, f, now);
      ApplyMoney(db, i, f, now);
      AppliedIsAbsorbed(db, i, f, now);
    }
  }

  lemma KnownByOrder(db: Db, o: OrderId)
    ensures Webhooks.OrdersKnown(db) && FindOrder(db.orders, o).Some? ==> FindOrder(db.orders, o).value in db.intents
  {
    FindOrderSome(db.orders, o);
  }

  class WebhookService {
    const store: PaymentStore
    var events: map<Webhooks.EventId, Webhooks.EventRow>

    constructor (store: PaymentStore)
      ensures this.store == store && events == map[]
    {
      this.store := store;
      events := map[];
    }

    method InsertIfAbsent(e: Webhooks.EventId, payload: Webhooks.Payload) returns (created: bool)
      modifies this`events
      ensures created <==> e !in old(events)
      ensures events == if created then old(events)[e := Webhooks.EventRow(payload, Webhooks.Received)] else old(events)
    {
      created := e !in events;
      if created { events := events[e := Webhooks.EventRow(payload, Webhooks.Received)]; }
    }

    method SetStatus(e: Webhooks.EventId, status: Webhooks.RowStatus)
      modifies this`events
      ensures events == if e in old(events) then old(events)[e := old(events)[e].(status := status)] else old(events)
    {
      if e in events { events := events[e := events[e].(status := status)]; }
    }

    /** Whether processEvent gets through. */
    ghost predicate Processable(db: Db, payload: Webhooks.Payload, faults: HandlerFaults) {
      match payload
      case Unhandled => !faults.ignore
      case Malformed => false
      case Payment(f) =>
        !faults.look
        && match FindOrder(db.orders, f.orderId)
           case None => !faults.ignore
           case Some(i) => i in db.intents && Succeeds(faults.apply, Statements(db.intents, i, f))
    }

    /** Nothing to apply, or nobody to apply it to. */
    ghost predicate Ignorable(db: Db, payload: Webhooks.Payload) {
      payload.Unhandled? || (payload.Payment? && FindOrder(db.orders, payload.f.orderId).None?)
    }

    /** False means an error was thrown. Only a COMMIT reported as failed leaves its effect behind then. */
    method ProcessEvent(e: Webhooks.EventId, now: int, faults: HandlerFaults) returns (ok: bool)
      requires e in events
      modifies this`events, store
      ensures ok <==> Processable(old(store.Contents()), old(events)[e].payload, faults)
      ensures var db, db', payload := old(store.Contents()), store.Contents(), old(events)[e].payload;
        if payload.Payment? && FindOrder(db.orders, payload.f.orderId).Some? then
          var i, f := FindOrder(db.orders, payload.f.orderId).value, payload.f;
          && (ok || faults.apply.commit.Unheard? || db' == db)
          && (ok || db' == db || db' == ApplyOutcome(db, i, f, now))
          && (ok ==> i in db.intents && db' == ApplyOutcome(db, i, f, now))
        else db' == db
      ensures old(events)[e].payload.Malformed? ==> !ok
      ensures !faults.look && !faults.ignore && faults.apply.commit.Heard? && (forall k :: !faults.apply.statement(k))
              && Webhooks.OrdersKnown(old(store.Contents())) && !old(events)[e].payload.Malformed? ==>
                ok
      ensures events ==
              if ok && Ignorable(old(store.Contents()), old(events)[e].payload)
              then old(events)[e := old(events)[e].(status := Webhooks.Ignored)] else old(events)
    {
      match events[e].payload
      case Unhandled =>
        if faults.ignore { return false; }
        SetStatus(e, Webhooks.Ignored);
        return true;
      case Malformed =>
        return false;
      case Payment(f) =>
        if faults.look { return false; }
        match FindOrder(store.orders, f.orderId)
        case None =>
          if faults.ignore { return false; }
          SetStatus(e, Webhooks.Ignored);
          return true;
        case Some(i) =>
          KnownByOrder(store.Contents(), f.orderId);
          var applied := store.ApplyGatewayOutcome(i, f, now, faults.apply);
          return applied.Ok?;
    }

    /** Signature and body first (`wellFormed`: JSON with an event type, and an event id header), then persist and
        deduplicate, then process, then acknowledge. If marking the event PROCESSED throws, what processing did
        stays, and the event reads FAILED; if marking it FAILED throws as well, it stays as processing left it. */
    method HandleRazorpayWebhook(
      signatureValid: bool, wellFormed: bool, e: Webhooks.EventId, payload: Webhooks.Payload, now: int,
      faults: HandlerFaults)
      returns (r: Handling)
      modifies this`events, store
      ensures r.Rejected? <==> !signatureValid || !wellFormed
      ensures r.Duplicate? <==> signatureValid && wellFormed && !faults.insert && e in old(events)
      ensures r.Processed? <==>
        signatureValid && wellFormed && !faults.insert && e !in old(events)
        && Processable(old(store.Contents()), payload, faults) && !faults.processed
      ensures r.Rejected? || r.Duplicate? || (r.Failed? && faults.insert) ==>
        events == old(events) && store.Contents() == old(store.Contents())
      ensures var db, db' := old(store.Contents()), store.Contents();
        if payload.Payment? && FindOrder(db.orders, payload.f.orderId).Some? then
          var i, f := FindOrder(db.orders, payload.f.orderId).value, payload.f;
          && (db' == db || db' == ApplyOutcome(db, i, f, now))
          && (r.Failed? && !faults.processed && !faults.apply.commit.Unheard? ==> db' == db)
          && (r.Processed? ==> i in db.intents && db' == ApplyOutcome(db, i, f, now))
          && (r.Processed? && Live(db.intents[i].status) ==>
                && i in db'.intents
                && db'.intents[i].status ==
                   (if db.intents[i].status != EXPIRED && Rank(Ladder(db.intents[i], f)) > Rank(db.intents[i].status)
                    then Ladder(db.intents[i], f) else db.intents[i].status)
                && db'.transactions ==
                   (if f.status == Captured && f.amount == db.intents[i].amount && f.currency == db.intents[i].currency
                       && db.intents[i].status !in {COMPLETED, EXPIRED} && f.paymentId !in db.transactions
                    then db.transactions[f.paymentId := Transaction(i, f.amount, f.currency)] else db.transactions)
                && Absorbed(db', i, f))
        else db' == db
      ensures r.Processed? ==> events == old(events)[e := Webhooks.EventRow(payload, Webhooks.Processed)]
      ensures signatureValid && wellFormed && e !in old(events) && !payload.Malformed?
              && Webhooks.OrdersKnown(old(store.Contents()))
              && !faults.insert && !faults.look && !faults.ignore && !faults.processed
              && faults.apply.commit.Heard? && (forall k :: !faults.apply.statement(k)) ==>
                r.Processed?
      ensures r.Failed? && !faults.insert ==>
        && e in events && events == old(events)[e := events[e]] && events[e].payload == payload
        && events[e].status ==
           if !faults.failed then Webhooks.RowStatus.Failed
           else if Processable(old(store.Contents()), payload, faults) && Ignorable(old(store.Contents()), payload)
           then Webhooks.Ignored
           else Webhooks.Received
    {
      if !signatureValid || !wellFormed { return Handling.Rejected; }
      if faults.insert { return Handling.Failed; }
      var created := InsertIfAbsent(e, payload);
      if !created { return Handling.Duplicate; }
      if payload.Payment? && FindOrder(store.orders, payload.f.orderId).Some? {
        FactLands(store.Contents(), FindOrder(store.orders, payload.f.orderId).value, payload.f, now);
      }
      var ok := ProcessEvent(e, now, faults);
      if ok && !faults.processed {
        SetStatus(e, Webhooks.Processed);
        return Handling.Processed;
      }
      if !faults.failed { SetStatus(e, Webhooks.RowStatus.Failed); }
      return Handling.Failed;
    }
  }

  datatype SweepResult = SweepResult(i: IntentId, outcome: Reconciliation.Outcome)

  /** What throws while one candidate is reconciled: the order look-up, or something in the transaction. */
  datatype CandidateFaults = CandidateFaults(look: bool, apply: Faults)

  ghost predicate Faultless(faults: CandidateFaults) {
    !faults.look && faults.apply.commit.Heard? && forall k :: !faults.apply.statement(k)
  }

  /** An error thrown on the way, by the gateway or the database, leaves nothing behind unless a COMMIT was reported as
      failed; `taken` tells. */
  method ReconcileIntent(store: PaymentStore, view: View, c: Candidate, limits: Limits, faults: CandidateFaults)
    returns (outcome: Reconciliation.Outcome, ghost taken: bool)
    requires c.i in store.intents
    modifies store
    ensures store.Contents() ==
            if taken then Reconcile(old(store.Contents()), view, c.i, c.row, c.at, limits.pending)
            else old(store.Contents())
    ensures outcome != Error ==>
      taken && outcome == ReconcileOutcome(old(store.Contents()), view, c.i, c.row, c.at, limits.pending)
    ensures outcome != Error || Faultless(faults) ==>
      && c.i in store.intents
      && Means(old(store.orders), view, c.i, c.at - c.row.updatedAt < limits.pending, old(store.intents)[c.i].status,
               store.intents[c.i].status, outcome)
    ensures outcome == Error && taken ==> faults.apply.commit.Unheard?
    ensures Faultless(faults) ==>
      outcome == ReconcileOutcome(old(store.Contents()), view, c.i, c.row, c.at, limits.pending)
  {
    OutcomeMeans(store.Contents(), view, c.i, c.row, c.at, limits.pending);
    if faults.look { return Error, false; }
    var order := LatestOrder(store.orders, c.i);
    if order.None? { return NoOrder, true; }
    var fetched := view(order.value);
    if fetched.None? { return Error, false; }
    match PickAuthoritativeOutcome(fetched.value)
    case Success(f) =>
      taken := TakesEffect(faults.apply, Statements(store.intents, c.i, f));
      var r := store.ApplyGatewayOutcome(c.i, f, c.at, faults.apply);
      outcome := if r.Ok? then Repaired(true, r.value) else Error;
    case Failure(f) =>
      taken := TakesEffect(faults.apply, Statements(store.intents, c.i, f));
      var r := store.ApplyGatewayOutcome(c.i, f, c.at, faults.apply);
      outcome := if r.Ok? then Repaired(false, r.value) else Error;
    case Inconclusive(_) =>
      return Unknown, true;
    case NoAttempt =>
      if c.at - c.row.updatedAt < limits.pending { return TooRecentToExpire, true; }
      taken := TakesEffect(faults.apply, if Expirable(store.Contents(), c.i) then 3 else 1);
      var r := store.ExpireStalePayment(c.i, c.at, faults.apply);
      outcome := if r.Ok? then Expired(r.value) else Error;
  }

  /** The candidates whose reconciliation took effect. */
  ghost function Kept(cs: seq<Candidate>, taken: seq<bool>): seq<Candidate>
    requires |cs| == |taken|
  {
    if cs == [] then []
    else
      var n := |cs| - 1;
      if taken[n] then Kept(cs[..n], taken[..n]) + [cs[n]] else Kept(cs[..n], taken[..n])
  }

  ghost predicate Survives(cs: seq<Candidate>, taken: seq<bool>, c: Candidate)
    requires |cs| == |taken|
  {
    exists k :: 0 <= k < |cs| && cs[k] == c && taken[k]
  }

  lemma {:induction false} KeptAreCandidates(cs: seq<Candidate>, taken: seq<bool>)
    requires |cs| == |taken|
    ensures forall c :: c in Kept(cs, taken) <==> Survives(cs, taken, c)
    decreases |cs|
  {
    if cs != [] {
      var n := |cs| - 1;
      KeptAreCandidates(cs[..n], taken[..n]);
      forall c
        ensures Survives(cs, taken, c) <==> Survives(cs[..n], taken[..n], c) || (c == cs[n] && taken[n])
      {
        assert forall k :: 0 <= k < n ==> cs[k] == cs[..n][k] && taken[k] == taken[..n][k];
      }
    }
  }

  ghost predicate AllTaken(taken: seq<bool>) {
    forall k :: 0 <= k < |taken| ==> taken[k]
  }

  lemma {:induction false} AllTakenKeepsAll(cs: seq<Candidate>, taken: seq<bool>)
    requires |cs| == |taken|
    ensures AllTaken(taken) ==> Kept(cs, taken) == cs
    decreases |cs|
  {
    if cs != [] && AllTaken(taken) {
      var n := |cs| - 1;
      assert forall k :: 0 <= k < n ==> taken[..n][k] == taken[k];
      AllTakenKeepsAll(cs[..n], taken[..n]);
      assert cs == cs[..n] + [cs[n]];
    }
  }

  lemma {:induction false} KeptStayDistinct(cs: seq<Candidate>, taken: seq<bool>)
    requires |cs| == |taken| && Distinct(cs)
    ensures Distinct(Kept(cs, taken))
    decreases |cs|
  {
    if cs != [] {
      var n := |cs| - 1;
      var rest := Kept(cs[..n], taken[..n]);
      KeptStayDistinct(cs[..n], taken[..n]);
      KeptAreCandidates(cs[..n], taken[..n]);
      forall a | 0 <= a < |rest|
        ensures rest[a].i != cs[n].i
      {
        assert rest[a] in rest;
      }
    }
  }

  lemma KeptAppend(cs: seq<Candidate>, taken: seq<bool>, n: nat, t: bool)
    requires n == |taken| < |cs|
    ensures Kept(cs[..n + 1], taken + [t]) == if t then Kept(cs[..n], taken) + [cs[n]] else Kept(cs[..n], taken)
  {
    assert cs[..n + 1][..n] == cs[..n] && (taken + [t])[..n] == taken;
  }

  lemma KeptAreReady(db: Db, cs: seq<Candidate>, taken: seq<bool>)
    requires Distinct(cs) && |taken| <= |cs| && forall c :: c in cs ==> Ready(db, c)
    ensures Distinct(Kept(cs[..|taken|], taken))
    ensures forall c :: c in Kept(cs[..|taken|], taken) ==> Ready(db, c)
  {
    KeptStayDistinct(cs[..|taken|], taken);
    KeptAreCandidates(cs[..|taken|], taken);
    assert forall c :: c in cs[..|taken|] ==> c in cs;
  }

  /** The ids treated so far are those of due candidates that took effect. */
  lemma KeptDue(db: Db, view: View, limits: Limits, cs: seq<Candidate>, taken: seq<bool>, k: nat)
    requires |cs| == |taken| && Distinct(cs) && k < |cs|
    ensures cs[k].i in DueIds(db, view, limits, Kept(cs, taken)) <==> taken[k] && Due(db, view, limits, cs[k])
  {
    KeptAreCandidates(cs, taken);
    if cs[k].i in DueIds(db, view, limits, Kept(cs, taken)) {
      var c :| c in Kept(cs, taken) && Due(db, view, limits, c) && c.i == cs[k].i;
      var m :| 0 <= m < |cs| && cs[m] == c && taken[m];
      assert m == k;
    }
    if taken[k] && Due(db, view, limits, cs[k]) {
      assert Survives(cs, taken, cs[k]) && cs[k] in Kept(cs, taken);
    }
  }

  /** A candidate not yet reached is as the selection found it. */
  lemma Unreached(db: Db, view: View, limits: Limits, cs: seq<Candidate>, taken: seq<bool>)
    requires Distinct(cs) && |taken| < |cs| && forall c :: c in cs ==> Ready(db, c)
    ensures var mid, c := SweepAll(db, view, Kept(cs[..|taken|], taken), limits), cs[|taken|];
      && c.i in mid.intents && c.i in db.intents && mid.intents[c.i] == db.intents[c.i] && mid.orders == db.orders
  {
    var kept, c := Kept(cs[..|taken|], taken), cs[|taken|];
    KeptAreReady(db, cs, taken);
    SweepEffect(db, view, kept, limits);
    assert c in cs && Ready(db, c);
    UnreachedIsNotDue(db, view, limits, cs, taken);
    assert Treated(db, SweepAll(db, view, kept, limits), DueIds(db, view, limits, kept), c.i);
  }

  lemma UnreachedIsNotDue(db: Db, view: View, limits: Limits, cs: seq<Candidate>, taken: seq<bool>)
    requires Distinct(cs) && |taken| < |cs|
    ensures cs[|taken|].i !in DueIds(db, view, limits, Kept(cs[..|taken|], taken))
  {
    KeptAreCandidates(cs[..|taken|], taken);
    forall c | c in Kept(cs[..|taken|], taken)
      ensures c.i != cs[|taken|].i
    {
      var m :| 0 <= m < |taken| && cs[..|taken|][m] == c;
      assert cs[m] == c;
    }
  }

  /** What the sweep will find for a candidate: the same as if it were the first. */
  ghost function Seen(db: Db, view: View, c: Candidate, limits: Limits): Reconciliation.Outcome {
    ReconcileOutcome(db, view, c.i, c.row, c.at, limits.pending)
  }

  lemma SameRowSameSight(db: Db, mid: Db, view: View, c: Candidate, limits: Limits)
    requires mid.orders == db.orders && c.i in mid.intents && c.i in db.intents && mid.intents[c.i] == db.intents[c.i]
    ensures Seen(mid, view, c, limits) == Seen(db, view, c, limits)
  {
  }

  ghost predicate Honest(db: Db, view: View, c: Candidate, limits: Limits, r: SweepResult, t: bool) {
    r.i == c.i && (r.outcome != Error ==> t && r.outcome == Seen(db, view, c, limits))
  }

  /** One turn of the loop: an honest report, an error hiding an effect only if a COMMIT was reported as failed, and no
      error without a fault that the gateway's view does not show too. */
  ghost predicate Turn(
    db: Db, view: View, c: Candidate, limits: Limits, r: SweepResult, t: bool, faults: CandidateFaults)
  {
    && Honest(db, view, c, limits, r, t)
    && (t && r.outcome == Error ==> faults.apply.commit.Unheard?)
    && (Faultless(faults) ==> r.outcome == Seen(db, view, c, limits))
  }

  ghost predicate Turns(
    db: Db, view: View, cs: seq<Candidate>, limits: Limits, results: seq<SweepResult>, taken: seq<bool>,
    faults: nat -> CandidateFaults)
  {
    |results| == |taken| <= |cs|
    && forall k :: 0 <= k < |results| ==> Turn(db, view, cs[k], limits, results[k], taken[k], faults(k))
  }

  lemma TurnsAppend(
    db: Db, view: View, cs: seq<Candidate>, limits: Limits, results: seq<SweepResult>, taken: seq<bool>,
    faults: nat -> CandidateFaults, r: SweepResult, t: bool)
    requires Turns(db, view, cs, limits, results, taken, faults) && |results| < |cs|
    requires Turn(db, view, cs[|results|], limits, r, t, faults(|results|))
    ensures Turns(db, view, cs, limits, results + [r], taken + [t], faults)
  {
    forall k | 0 <= k < |results| + 1
      ensures Turn(db, view, cs[k], limits, (results + [r])[k], (taken + [t])[k], faults(k))
    {
      if k < |results| {
        assert (results + [r])[k] == results[k] && (taken + [t])[k] == taken[k];
      } else {
        assert (results + [r])[k] == r && (taken + [t])[k] == t;
      }
    }
  }

  /** One candidate's turn, its error caught. */
  method ReconcileNext(
    store: PaymentStore, view: View, c: Candidate, limits: Limits, faults: CandidateFaults, ghost db: Db)
    returns (r: SweepResult, ghost t: bool)
    requires c.i in store.intents && c.i in db.intents && store.intents[c.i] == db.intents[c.i]
    requires store.orders == db.orders
    modifies store
    ensures store.Contents() ==
            if t then Reconcile(old(store.Contents()), view, c.i, c.row, c.at, limits.pending)
            else old(store.Contents())
    ensures Turn(db, view, c, limits, r, t, faults)
  {
    SameRowSameSight(db, store.Contents(), view, c, limits);
    var outcome;
    outcome, t := ReconcileIntent(store, view, c, limits, faults);
    r := SweepResult(c.i, outcome);
  }

  lemma SweepAppend(db: Db, view: View, kept: seq<Candidate>, c: Candidate, limits: Limits)
    ensures SweepAll(db, view, kept + [c], limits)
            == Reconcile(SweepAll(db, view, kept, limits), view, c.i, c.row, c.at, limits.pending)
  {
  }

  lemma FoldOneMore(db: Db, view: View, cs: seq<Candidate>, limits: Limits, taken: seq<bool>, db': Db, t: bool)
    requires |taken| < |cs|
    requires var c := cs[|taken|];
      var mid := SweepAll(db, view, Kept(cs[..|taken|], taken), limits);
      db' == if t then Reconcile(mid, view, c.i, c.row, c.at, limits.pending) else mid
    ensures db' == SweepAll(db, view, Kept(cs[..|taken| + 1], taken + [t]), limits)
  {
    KeptAppend(cs, taken, |taken|, t);
    SweepAppend(db, view, Kept(cs[..|taken|], taken), cs[|taken|], limits);
  }

  /** The loop so far: the store is what the kept candidates made of it. */
  ghost predicate Progress(
    db: Db, mid: Db, view: View, cs: seq<Candidate>, limits: Limits, results: seq<SweepResult>, taken: seq<bool>,
    faults: nat -> CandidateFaults)
  {
    Turns(db, view, cs, limits, results, taken, faults) && mid == SweepAll(db, view, Kept(cs[..|taken|], taken), limits)
  }

  lemma OneMoreTurn(
    db: Db, mid: Db, view: View, cs: seq<Candidate>, limits: Limits, results: seq<SweepResult>, taken: seq<bool>,
    faults: nat -> CandidateFaults, db': Db, r: SweepResult, t: bool)
    requires Progress(db, mid, view, cs, limits, results, taken, faults) && |results| < |cs|
    requires var c := cs[|results|];
      && Turn(db, view, c, limits, r, t, faults(|results|))
      && db' == if t then Reconcile(mid, view, c.i, c.row, c.at, limits.pending) else mid
    ensures Progress(db, db', view, cs, limits, results + [r], taken + [t], faults)
  {
    FoldOneMore(db, view, cs, limits, taken, db', t);
    TurnsAppend(db, view, cs, limits, results, taken, faults, r, t);
  }

  /** The report on one candidate: what was reported was done and seen so, a due candidate whose turn took effect is
      resolved, and any other row is as it was. */
  ghost predicate Reported(db: Db, db': Db, view: View, c: Candidate, limits: Limits, r: SweepResult, t: bool) {
    && Honest(db, view, c, limits, r, t)
    && c.i in db.intents && c.i in db'.intents
    && if t && Due(db, view, limits, c) then !Waiting(db'.intents[c.i].status) else db'.intents[c.i] == db.intents[c.i]
  }

  lemma KeptIsReported(
    db: Db, view: View, limits: Limits, cs: seq<Candidate>, results: seq<SweepResult>, taken: seq<bool>, k: nat)
    requires Distinct(cs) && |results| == |taken| == |cs| && k < |cs| && forall c :: c in cs ==> Ready(db, c)
    requires Honest(db, view, cs[k], limits, results[k], taken[k])
    ensures Reported(db, SweepAll(db, view, Kept(cs, taken), limits), view, cs[k], limits, results[k], taken[k])
  {
    assert cs[..|taken|] == cs;
    KeptAreReady(db, cs, taken);
    SweepEffect(db, view, Kept(cs, taken), limits);
    assert cs[k] in cs && Ready(db, cs[k]);
    KeptDue(db, view, limits, cs, taken, k);
    assert Treated(db, SweepAll(db, view, Kept(cs, taken), limits), DueIds(db, view, limits, Kept(cs, taken)), cs[k].i);
  }

  lemma TurnsAreReported(
    db: Db, view: View, limits: Limits, cs: seq<Candidate>, results: seq<SweepResult>, taken: seq<bool>,
    faults: nat -> CandidateFaults)
    requires Distinct(cs) && |results| == |cs| && forall c :: c in cs ==> Ready(db, c)
    requires Turns(db, view, cs, limits, results, taken, faults)
    ensures var db' := SweepAll(db, view, Kept(cs, taken), limits);
      forall k :: 0 <= k < |cs| ==>
        && Reported(db, db', view, cs[k], limits, results[k], taken[k])
        && (results[k].outcome != Error || Faultless(faults(k)) ==>
              MeansSo(db, db', view, cs[k], limits, results[k].outcome))
  {
    var db' := SweepAll(db, view, Kept(cs, taken), limits);
    forall k | 0 <= k < |cs|
      ensures Reported(db, db', view, cs[k], limits, results[k], taken[k])
      ensures results[k].outcome != Error || Faultless(faults(k)) ==>
                MeansSo(db, db', view, cs[k], limits, results[k].outcome)
    {
      assert Turn(db, view, cs[k], limits, results[k], taken[k], faults(k));
      KeptIsReported(db, view, limits, cs, results, taken, k);
      if results[k].outcome != Error || Faultless(faults(k)) {
        TurnMeans(db, view, limits, cs, results, taken, faults(k), k);
      }
    }
  }

  /** The report on a candidate read against its row before and after the whole sweep. */
  ghost predicate MeansSo(db: Db, db': Db, view: View, c: Candidate, limits: Limits, outcome: Reconciliation.Outcome) {
    && c.i in db.intents && c.i in db'.intents
    && Means(db.orders, view, c.i, c.at - c.row.updatedAt < limits.pending, db.intents[c.i].status,
             db'.intents[c.i].status, outcome)
  }

  /** Reconciling it first is what the report tells of. */
  lemma AsIfFirstMeans(db: Db, db': Db, view: View, c: Candidate, limits: Limits)
    requires c.i in db.intents && AsIfFirst(db, db', view, c, limits)
    ensures MeansSo(db, db', view, c, limits, Seen(db, view, c, limits))
  {
    OutcomeMeans(db, view, c.i, c.row, c.at, limits.pending);
  }

  lemma KeptMeans(
    db: Db, view: View, limits: Limits, cs: seq<Candidate>, results: seq<SweepResult>, taken: seq<bool>, k: nat)
    requires Distinct(cs) && |results| == |taken| == |cs| && k < |cs| && forall c :: c in cs ==> Ready(db, c)
    requires taken[k]
    ensures MeansSo(db, SweepAll(db, view, Kept(cs, taken), limits), view, cs[k], limits, Seen(db, view, cs[k], limits))
  {
    var kept := Kept(cs, taken);
    assert cs[..|taken|] == cs;
    KeptAreReady(db, cs, taken);
    KeptAreCandidates(cs, taken);
    assert Survives(cs, taken, cs[k]) && cs[k] in kept;
    var m :| 0 <= m < |kept| && kept[m] == cs[k];
    SweepRow(db, view, kept, limits, m);
    assert cs[k] in cs && Ready(db, cs[k]);
    AsIfFirstMeans(db, SweepAll(db, view, kept, limits), view, cs[k], limits);
  }

  /** A report other than an error, or any report on a candidate that met no fault, means what it says. */
  lemma TurnMeans(
    db: Db, view: View, limits: Limits, cs: seq<Candidate>, results: seq<SweepResult>, taken: seq<bool>,
    faults: CandidateFaults, k: nat)
    requires Distinct(cs) && |results| == |taken| == |cs| && k < |cs| && forall c :: c in cs ==> Ready(db, c)
    requires Turn(db, view, cs[k], limits, results[k], taken[k], faults)
    requires results[k].outcome != Error || Faultless(faults)
    ensures MeansSo(db, SweepAll(db, view, Kept(cs, taken), limits), view, cs[k], limits, results[k].outcome)
  {
    if taken[k] {
      KeptMeans(db, view, limits, cs, results, taken, k);
    } else {
      KeptIsReported(db, view, limits, cs, results, taken, k);
      OutcomeMeans(db, view, cs[k].i, cs[k].row, cs[k].at, limits.pending);
    }
  }

  /** The sweep over the two selections the database answered with: one report per candidate, in order, an error on one
      candidate not stopping the rest. If every turn takes effect it is the round whose drain bound is proved in Sweep.
      `taken` tells whose turn did. */
  method RunReconciliationSweep(
    store: PaymentStore, view: View, limits: Limits, round: Round, faults: nat -> CandidateFaults)
    returns (results: seq<SweepResult>, ghost taken: seq<bool>)
    requires ValidRound(store.Contents(), limits, round)
    modifies store
    ensures |results| == |round.pending + round.processing|
    ensures Turns(old(store.Contents()), view, round.pending + round.processing, limits, results, taken, faults)
    ensures forall k :: 0 <= k < |results| ==>
      Reported(
        old(store.Contents()), store.Contents(), view, (round.pending + round.processing)[k], limits, results[k],
        taken[k])
    ensures forall k :: 0 <= k < |results| && (results[k].outcome != Error || Faultless(faults(k))) ==>
      MeansSo(old(store.Contents()), store.Contents(), view, (round.pending + round.processing)[k], limits,
              results[k].outcome)
    ensures AllTaken(taken) ==> store.Contents() == RunRound(old(store.Contents()), view, limits, round)
  {
    var candidates := round.pending + round.processing;
    ghost var db := store.Contents();
    RoundIsReady(db, limits, round);
    results, taken := [], [];
    while |results| < |candidates|
      invariant Progress(db, store.Contents(), view, candidates, limits, results, taken, faults)
    {
      Unreached(db, view, limits, candidates, taken);
      ghost var mid := store.Contents();
      ghost var t;
      var r;
      r, t := ReconcileNext(store, view, candidates[|results|], limits, faults(|results|), db);
      OneMoreTurn(db, mid, view, candidates, limits, results, taken, faults, store.Contents(), r, t);
      results, taken := results + [r], taken + [t];
    }
    assert candidates[..|taken|] == candidates;
    AllTakenKeepsAll(candidates, taken);
    TurnsAreReported(db, view, limits, candidates, results, taken, faults);
  }
}
