/** Webhook deliveries: insert the event, process it, mark it, each a separate commit, with redelivery,
    crashes anywhere and explicit re-runs of stored events, among all other traffic on the store. */
module Webhooks {
  import opened Options
  import opened Lifecycle
  import opened Ledger
  import opened Invariants
  import opened Replay

  datatype EventId = EventId(raw: string)

  /** What processEvent finds in a stored event: a type it does not handle, no usable payment entity, or a payment. */
  datatype Payload = Unhandled | Malformed | Payment(f: GatewayPayment)

  datatype RowStatus = Received | Processed | Failed | Ignored
  datatype EventRow = EventRow(payload: Payload, status: RowStatus)

  datatype Reply = DuplicateReply | ProcessedReply | ErrorReply

  datatype Pc =
    | Arrived(payload: Payload)
    | Processing
    | Routed(i: IntentId, f: GatewayPayment)
    | Handled
    | Broken
    | Done(reply: Reply)
    | Crashed

  /** One delivery in progress, or one re-run of a stored event. `won` records that its insert created the row. */
  datatype Worker = Worker(event: EventId, rerun: bool, won: bool, pc: Pc)

  /** `unknown` are the events whose order was not found, `reopened` the intents whose own creation's FAILED write met
      them terminal, `log` the transactions committed. */
  datatype World = World(
    db: Db,
    rows: map<EventId, EventRow>,
    workers: map<nat, Worker>,
    unknown: set<EventId>,
    reopened: set<IntentId>,
    log: seq<Tx>)

  datatype Event =
    | Arrive(w: nat, event: EventId, payload: Payload)
    | Insert(w: nat)
    | Rerun(w: nat, event: EventId)
    | Inspect(w: nat)
    | Apply(w: nat, now: int)
    | Break(w: nat)
    | Mark(w: nat)
    | Crash(w: nat)
    | Traffic(tx: Tx)

  ghost predicate Enabled(s: World, e: Event) {
    match e
    case Arrive(w, _, _) => w !in s.workers
    case Insert(w) => w in s.workers && s.workers[w].pc.Arrived?
    case Rerun(w, event) => w !in s.workers && event in s.rows
    case Inspect(w) => w in s.workers && s.workers[w].pc.Processing?
    case Apply(w, _) => w in s.workers && s.workers[w].pc.Routed?
    // A database error anywhere in the try block, markProcessed included.
    case Break(w) =>
      w in s.workers && (s.workers[w].pc.Processing? || s.workers[w].pc.Routed? || s.workers[w].pc.Handled?)
    case Mark(w) => w in s.workers && (s.workers[w].pc.Handled? || s.workers[w].pc.Broken?)
    case Crash(w) => w in s.workers && !s.workers[w].pc.Done?
    // Anything else that commits, whatever it is.
    case Traffic(_) => true
  }

  function At(s: World, w: nat, pc: Pc): World
    requires w in s.workers
  {
    s.(workers := s.workers[w := s.workers[w].(pc := pc)])
  }

  function SetRow(s: World, e: EventId, status: RowStatus): World {
    if e in s.rows then s.(rows := s.rows[e := s.rows[e].(status := status)]) else s
  }

  /** INSERT ... ON CONFLICT DO NOTHING decides who handles the event. */
  function Inserted(s: World, w: nat): World
    requires w in s.workers && s.workers[w].pc.Arrived?
  {
    var me := s.workers[w];
    if me.event in s.rows then At(s, w, Done(DuplicateReply))
    else
      s.(rows := s.rows[me.event := EventRow(me.pc.payload, Received)],
         workers := s.workers[w := me.(won := true, pc := Processing)])
  }

  /** processEvent up to the point where it knows the intent. */
  function Inspected(s: World, w: nat): World
    requires w in s.workers
  {
    var e := s.workers[w].event;
    if e !in s.rows then At(s, w, Broken)
    else
      match s.rows[e].payload
      case Unhandled => At(SetRow(s, e, Ignored), w, Handled)
      case Malformed => At(s, w, Broken)
      case Payment(f) =>
        match FindOrder(s.db.orders, f.orderId)
        case None => At(SetRow(s, e, Ignored), w, Handled).(unknown := s.unknown + {e})
        case Some(i) => At(s, w, Routed(i, f))
  }

  function Commit(s: World, tx: Tx): World {
    s.(db := RunTx(s.db, tx), log := s.log + [tx],
       reopened := if Hits(s.db, tx, tx.i, TERMINAL) then s.reopened + {tx.i} else s.reopened)
  }

  function Marked(s: World, w: nat): World
    requires w in s.workers
  {
    var me := s.workers[w];
    if me.pc.Handled? then At(SetRow(s, me.event, Processed), w, Done(ProcessedReply))
    else At(SetRow(s, me.event, RowStatus.Failed), w, Done(ErrorReply))
  }

  ghost function Next(s: World, e: Event): World
    requires Enabled(s, e)
  {
    match e
    case Arrive(w, event, payload) => s.(workers := s.workers[w := Worker(event, false, false, Arrived(payload))])
    case Insert(w) => Inserted(s, w)
    case Rerun(w, event) => s.(workers := s.workers[w := Worker(event, true, false, Processing)])
    case Inspect(w) => Inspected(s, w)
    case Apply(w, now) => At(Commit(s, TxApply(s.workers[w].pc.i, s.workers[w].pc.f, now)), w, Handled)
    case Break(w) => At(s, w, Broken)
    case Mark(w) => Marked(s, w)
    case Crash(w) => At(s, w, Crashed)
    case Traffic(tx) => Commit(s, tx)
  }

  ghost predicate Possible(s: World, es: seq<Event>)
    decreases |es|, 0
  {
    if es == [] then true
    else Possible(s, es[..|es| - 1]) && Enabled(Exec(s, es[..|es| - 1]), es[|es| - 1])
  }

  ghost function Exec(s: World, es: seq<Event>): World
    requires Possible(s, es)
    decreases |es|, 1
  {
    if es == [] then s else Next(Exec(s, es[..|es| - 1]), es[|es| - 1])
  }

  function Fresh(db: Db): World {
    World(db, map[], map[], {}, {}, [])
  }

  // ----- At most one delivery of an event is handled -----

  ghost predicate ClaimOk(s: World, w: nat)
    requires w in s.workers
  {
    var me := s.workers[w];
    && (me.won ==> me.event in s.rows && !me.rerun)
    && (me.pc.Arrived? ==> !me.rerun && !me.won)
    && (!me.rerun && !me.won ==> me.pc.Arrived? || me.pc == Done(DuplicateReply) || me.pc.Crashed?)
  }

  ghost predicate ClaimsOk(s: World) {
    && (forall w :: w in s.workers ==> ClaimOk(s, w))
    && (forall u, v ::
          u in s.workers && v in s.workers && s.workers[u].won && s.workers[v].won
          && s.workers[u].event == s.workers[v].event ==>
            u == v)
  }

  lemma LocalKeepsClaims(s: World, s': World, w: nat)
    requires ClaimsOk(s) && s.rows.Keys <= s'.rows.Keys && s'.workers.Keys == s.workers.Keys + {w}
    requires forall v :: v in s.workers && v != w ==> s'.workers[v] == s.workers[v]
    requires ClaimOk(s', w)
    requires s'.workers[w].won ==>
      || s'.workers[w].event !in s.rows
      || (w in s.workers && s.workers[w].won && s.workers[w].event == s'.workers[w].event)
    ensures ClaimsOk(s')
  {
  }

  lemma CommitKeepsClaims(s: World, tx: Tx)
    requires ClaimsOk(s)
    ensures ClaimsOk(Commit(s, tx))
  {
    var s' := Commit(s, tx);
    assert s'.workers == s.workers && s'.rows == s.rows;
    forall w | w in s'.workers
      ensures ClaimOk(s', w)
    {
      assert ClaimOk(s, w);
    }
  }

  lemma InsertKeepsClaims(s: World, w: nat)
    requires ClaimsOk(s) && Enabled(s, Insert(w))
    ensures ClaimsOk(Inserted(s, w))
  {
    assert ClaimOk(s, w);
    LocalKeepsClaims(s, Inserted(s, w), w);
  }

  lemma ApplyKeepsClaims(s: World, w: nat, now: int)
    requires ClaimsOk(s) && Enabled(s, Apply(w, now))
    ensures ClaimsOk(Next(s, Apply(w, now)))
  {
    assert ClaimOk(s, w);
    LocalKeepsClaims(s, Next(s, Apply(w, now)), w);
  }

  lemma EventKeepsClaims(s: World, e: Event)
    requires ClaimsOk(s) && Enabled(s, e)
    ensures ClaimsOk(Next(s, e))
  {
    if e.Traffic? {
      CommitKeepsClaims(s, e.tx);
    } else if e.Insert? {
      InsertKeepsClaims(s, e.w);
    } else if e.Apply? {
      ApplyKeepsClaims(s, e.w, e.now);
    } else {
      assert e.w in s.workers ==> ClaimOk(s, e.w);
      LocalKeepsClaims(s, Next(s, e), e.w);
    }
  }

  lemma {:induction false} RunsKeepClaims(db: Db, es: seq<Event>)
    requires Possible(Fresh(db), es)
    ensures ClaimsOk(Exec(Fresh(db), es))
    decreases |es|
  {
    if es != [] {
      RunsKeepClaims(db, es[..|es| - 1]);
      EventKeepsClaims(Exec(Fresh(db), es[..|es| - 1]), es[|es| - 1]);
    }
  }

  /** Of any number of concurrent deliveries of one event, at most one gets past the duplicate check, and every
      other one that returns reports DUPLICATE. */
  lemma AtMostOneHandled(db: Db, es: seq<Event>, u: nat, v: nat)
    requires Possible(Fresh(db), es)
    requires u != v && u in Exec(Fresh(db), es).workers && v in Exec(Fresh(db), es).workers
    ensures var x, y := Exec(Fresh(db), es).workers[u], Exec(Fresh(db), es).workers[v];
      && (!x.rerun && x.pc.Done? ==> x.won || x.pc.reply == DuplicateReply)
      && (x.event == y.event ==> !(x.won && y.won))
      && (x.event == y.event && !x.rerun && !y.rerun && x.pc.Done? && y.pc.Done? ==>
            x.pc.reply == DuplicateReply || y.pc.reply == DuplicateReply)
  {
    RunsKeepClaims(db, es);
    assert ClaimOk(Exec(Fresh(db), es), u) && ClaimOk(Exec(Fresh(db), es), v);
  }

  // ----- A delivery that nobody disturbs -----

  lemma Further(s: World, es: seq<Event>, e: Event) returns (longer: seq<Event>)
    requires Possible(s, es) && Enabled(Exec(s, es), e)
    ensures Possible(s, longer) && Exec(s, longer) == Next(Exec(s, es), e)
  {
    longer := es + [e];
    assert longer[..|es|] == es;
  }

  /** The same world but for one more delivery, answered, and its event's row. */
  ghost predicate Answered(s: World, s': World, w: nat, event: EventId, won: bool, reply: Reply, row: EventRow) {
    s'.workers == s.workers[w := Worker(event, false, won, Done(reply))] && s'.rows == s.rows[event := row]
  }

  lemma DeliveryStored(s: World, w: nat, event: EventId, payload: Payload) returns (es: seq<Event>)
    requires w !in s.workers && event !in s.rows
    ensures Possible(s, es)
    ensures Exec(s, es) == s.(rows := s.rows[event := EventRow(payload, Received)],
                              workers := s.workers[w := Worker(event, false, true, Processing)])
  {
    es := Further(s, [], Arrive(w, event, payload));
    es := Further(s, es, Insert(w));
  }

  /** Handled or broken, with its effect and perhaps its row's mark. */
  ghost predicate HandledAs(at: World, s': World, w: nat, payload: Payload, now: int) {
    && w in at.workers
    && at.workers[w].event in s'.rows && s'.rows[at.workers[w].event].payload == payload
    && s'.workers == at.workers[w := at.workers[w].(pc := if payload.Malformed? then Broken else Handled)]
    && s'.rows == at.rows[at.workers[w].event := s'.rows[at.workers[w].event]]
    && s'.db ==
       if payload.Payment? && FindOrder(at.db.orders, payload.f.orderId).Some?
       then RunTx(at.db, TxApply(FindOrder(at.db.orders, payload.f.orderId).value, payload.f, now)) else at.db
  }

  /** Whether it is a first delivery or a re-run. */
  lemma WorkerHandles(s: World, before: seq<Event>, w: nat, payload: Payload, now: int) returns (es: seq<Event>)
    requires Possible(s, before)
    requires var at := Exec(s, before);
      && w in at.workers && at.workers[w].pc.Processing?
      && at.workers[w].event in at.rows && at.rows[at.workers[w].event].payload == payload
    ensures Possible(s, es) && HandledAs(Exec(s, before), Exec(s, es), w, payload, now)
  {
    es := Further(s, before, Inspect(w));
    if payload.Payment? && FindOrder(Exec(s, before).db.orders, payload.f.orderId).Some? {
      es := Further(s, es, Apply(w, now));
    }
  }

  lemma MarkedAs(s: World, at: World, handled: World, w: nat, event: EventId, payload: Payload, now: int)
    requires at.workers == s.workers[w := Worker(event, false, true, Processing)]
    requires at.rows == s.rows[event := EventRow(payload, Received)]
    requires HandledAs(at, handled, w, payload, now)
    ensures w in handled.workers && Marked(handled, w).db == handled.db
    ensures Answered(s, Marked(handled, w), w, event, true, if payload.Malformed? then ErrorReply else ProcessedReply,
                     EventRow(payload, if payload.Malformed? then RowStatus.Failed else Processed))
  {
  }

  lemma DeliveryRepeated(s: World, w: nat, event: EventId, payload: Payload) returns (es: seq<Event>)
    requires w !in s.workers && event in s.rows
    ensures Possible(s, es)
    ensures Exec(s, es) == s.(workers := s.workers[w := Worker(event, false, false, Done(DuplicateReply))])
  {
    es := Further(s, [], Arrive(w, event, payload));
    es := Further(s, es, Insert(w));
  }

  lemma DeliveryNew(s: World, w: nat, event: EventId, payload: Payload, now: int) returns (es: seq<Event>)
    requires w !in s.workers && event !in s.rows
    ensures Possible(s, es)
    ensures Answered(s, Exec(s, es), w, event, true, if payload.Malformed? then ErrorReply else ProcessedReply,
                     EventRow(payload, if payload.Malformed? then RowStatus.Failed else Processed))
    ensures Exec(s, es).db ==
            if payload.Payment? && FindOrder(s.db.orders, payload.f.orderId).Some?
            then RunTx(s.db, TxApply(FindOrder(s.db.orders, payload.f.orderId).value, payload.f, now)) else s.db
  {
    var stored := DeliveryStored(s, w, event, payload);
    var handled := WorkerHandles(s, stored, w, payload, now);
    MarkedAs(s, Exec(s, stored), Exec(s, handled), w, event, payload, now);
    es := Further(s, handled, Mark(w));
  }

  /** A delivery that runs undisturbed: a known event is a DUPLICATE, a payment for a known order is applied to its
      intent, a malformed event is FAILED, anything else is PROCESSED with no effect. */
  lemma DeliveryAlone(s: World, w: nat, event: EventId, payload: Payload, now: int) returns (es: seq<Event>)
    requires w !in s.workers
    ensures Possible(s, es)
    ensures var s' := Exec(s, es);
      if event in s.rows then Answered(s, s', w, event, false, DuplicateReply, s.rows[event]) && s'.db == s.db
      else
        && Answered(s, s', w, event, true, if payload.Malformed? then ErrorReply else ProcessedReply,
                    EventRow(payload, if payload.Malformed? then RowStatus.Failed else Processed))
        && s'.db ==
           if payload.Payment? && FindOrder(s.db.orders, payload.f.orderId).Some?
           then RunTx(s.db, TxApply(FindOrder(s.db.orders, payload.f.orderId).value, payload.f, now)) else s.db
  {
    if event in s.rows {
      es := DeliveryRepeated(s, w, event, payload);
      assert s.rows[event := s.rows[event]] == s.rows;
    } else {
      es := DeliveryNew(s, w, event, payload, now);
    }
  }

  /** A process that crashes after the COMMIT and before it marks the event leaves it RECEIVED with its fact applied. */
  lemma CrashAfterApply(s: World, w: nat, event: EventId, f: GatewayPayment, i: IntentId, now: int)
    returns (es: seq<Event>)
    requires w !in s.workers && event !in s.rows && FindOrder(s.db.orders, f.orderId) == Some(i)
    ensures Possible(s, es)
    ensures var s' := Exec(s, es);
      && s'.db == RunTx(s.db, TxApply(i, f, now))
      && event in s'.rows && s'.rows[event].payload == Payment(f)
      && s'.workers == s.workers[w := Worker(event, false, true, Crashed)]
  {
    var stored := DeliveryStored(s, w, event, Payment(f));
    es := WorkerHandles(s, stored, w, Payment(f), now);
    es := Further(s, es, Crash(w));
  }

  lemma RerunSucceeds(s: World, before: seq<Event>, v: nat, event: EventId, f: GatewayPayment, i: IntentId, now: int)
    returns (es: seq<Event>)
    requires Possible(s, before) && v !in Exec(s, before).workers
    requires event in Exec(s, before).rows && Exec(s, before).rows[event].payload == Payment(f)
    requires FindOrder(Exec(s, before).db.orders, f.orderId) == Some(i)
    ensures Possible(s, es)
    ensures var at, s' := Exec(s, before), Exec(s, es);
      && s'.db == RunTx(at.db, TxApply(i, f, now))
      && event in s'.rows && s'.rows[event] == EventRow(Payment(f), Processed)
      && s'.workers == at.workers[v := Worker(event, true, false, Done(ProcessedReply))]
  {
    es := Further(s, before, Rerun(v, event));
    es := WorkerHandles(s, es, v, Payment(f), now);
    es := Further(s, es, Mark(v));
  }

  /** Crash and replay, once through: the crashed delivery's event can be run again, ends PROCESSED, and the fact
      applied twice leaves what applying it once does, attempt statuses aside. */
  lemma CrashedDeliveryIsRerun(
    s: World, w: nat, v: nat, event: EventId, f: GatewayPayment, i: IntentId, now: int, later: int)
    returns (es: seq<Event>)
    requires w != v && w !in s.workers && v !in s.workers && event !in s.rows
    requires FindOrder(s.db.orders, f.orderId) == Some(i) && i in s.db.intents && Live(s.db.intents[i].status)
    ensures Possible(s, es)
    ensures var s' := Exec(s, es);
      var crashed, rerun := Worker(event, false, true, Crashed), Worker(event, true, false, Done(ProcessedReply));
      && s'.workers == s.workers[w := crashed][v := rerun]
      && event in s'.rows && s'.rows[event] == EventRow(Payment(f), Processed)
      && Core(s'.db) == Core(ApplyOutcome(s.db, i, f, now))
  {
    var crashed := CrashAfterApply(s, w, event, f, i, now);
    FindOrderStays(s.db, TxApply(i, f, now), f.orderId);
    AppliedIsAbsorbed(s.db, i, f, now);
    AbsorbedChangesNothing(ApplyOutcome(s.db, i, f, now), i, f, later);
    es := RerunSucceeds(s, crashed, v, event, f, i, later);
  }

  // ----- PROCESSED means settled -----

  /** The event needs no further work: nothing to do, nobody to do it to when it was looked up, or its fact is committed
      or absorbed, unless a FAILED write reopened its intent. */
  ghost predicate Justified(s: World, e: EventId)
    requires e in s.rows
  {
    match s.rows[e].payload
    case Unhandled => true
    case Malformed => false
    case Payment(f) =>
      e in s.unknown
      || match FindOrder(s.db.orders, f.orderId)
         case None => false
         case Some(i) => i in s.reopened || Absorbed(s.db, i, f)
  }

  ghost predicate WorkerOk(s: World, w: nat)
    requires w in s.workers
  {
    var me := s.workers[w];
    match me.pc
    case Processing => me.event in s.rows
    case Routed(i, f) =>
      me.event in s.rows && s.rows[me.event].payload == Payment(f) && FindOrder(s.db.orders, f.orderId) == Some(i)
    case Handled => me.event in s.rows && Justified(s, me.event)
    case _ => true
  }

  ghost predicate RowOk(s: World, e: EventId)
    requires e in s.rows
  {
    s.rows[e].status == Processed ==> Justified(s, e)
  }

  ghost predicate SettledEvents(s: World) {
    && (forall w :: w in s.workers ==> WorkerOk(s, w))
    && (forall e :: e in s.rows ==> RowOk(s, e))
  }

  /** Order rows reference intents. */
  predicate OrdersKnown(db: Db) {
    forall r :: r in db.orders ==> r.intent in db.intents
  }

  lemma KeepsOrdersKnown(db: Db, tx: Tx)
    requires OrdersKnown(db)
    ensures OrdersKnown(RunTx(db, tx))
  {
    TxTouchesOneIntent(db, tx);
    TxAddsOrders(db, tx);
  }

  ghost predicate WorldOk(initial: Db, s: World) {
    AllLive(s.db) && OrdersKnown(s.db) && s.db == RunAll(initial, s.log) && SettledEvents(s)
  }

  lemma CommitKeepsJustified(s: World, tx: Tx, e: EventId)
    requires AllLive(s.db) && e in s.rows && Justified(s, e)
    ensures Justified(Commit(s, tx), e)
  {
    if s.rows[e].payload.Payment? && e !in s.unknown {
      var f := s.rows[e].payload.f;
      var i := FindOrder(s.db.orders, f.orderId).value;
      FindOrderStays(s.db, tx, f.orderId);
      if Absorbed(s.db, i, f) && !Hits(s.db, tx, i, TERMINAL) { AbsorbedStays(s.db, tx, i, f); }
    }
  }

  lemma CommitKeepsSettled(s: World, tx: Tx)
    requires AllLive(s.db) && SettledEvents(s)
    ensures SettledEvents(Commit(s, tx))
  {
    var s' := Commit(s, tx);
    forall e | e in s'.rows
      ensures RowOk(s', e)
      ensures Justified(s, e) ==> Justified(s', e)
    {
      assert RowOk(s, e);
      if Justified(s, e) { CommitKeepsJustified(s, tx, e); }
    }
    forall w | w in s'.workers
      ensures WorkerOk(s', w)
    {
      assert WorkerOk(s, w);
      if s.workers[w].pc.Routed? { FindOrderStays(s.db, tx, s.workers[w].pc.f.orderId); }
    }
  }

  lemma CommitKeepsWorldOk(initial: Db, s: World, tx: Tx)
    requires WorldOk(initial, s)
    ensures WorldOk(initial, Commit(s, tx))
  {
    KeepsLive(s.db, tx);
    KeepsOrdersKnown(s.db, tx);
    CommitKeepsSettled(s, tx);
    assert (s.log + [tx])[..|s.log|] == s.log;
  }

  /** Moving one worker, and perhaps its event's row, with the store untouched. */
  lemma LocalKeepsSettled(s: World, s': World, w: nat, e: EventId)
    requires SettledEvents(s) && s'.db == s.db && s.unknown <= s'.unknown && s'.reopened == s.reopened
    requires s.workers.Keys + {w} == s'.workers.Keys && s.rows.Keys <= s'.rows.Keys <= s.rows.Keys + {e}
    requires forall v :: v in s.workers && v != w ==> s'.workers[v] == s.workers[v]
    requires forall x :: x in s.rows ==> s'.rows[x].payload == s.rows[x].payload && (x != e ==> s'.rows[x] == s.rows[x])
    requires WorkerOk(s', w) && (e in s'.rows ==> RowOk(s', e))
    ensures SettledEvents(s')
  {
  }

  lemma EventKeepsWorldOk(initial: Db, s: World, e: Event)
    requires WorldOk(initial, s) && Enabled(s, e)
    ensures WorldOk(initial, Next(s, e))
  {
    var s' := Next(s, e);
    match e
    case Traffic(tx) => CommitKeepsWorldOk(initial, s, tx);
    case Apply(w, now) => ApplyKeepsWorldOk(initial, s, w, now);
    case Arrive(w, event, payload) =>
      assert event in s.rows ==> RowOk(s, event);
      LocalKeepsSettled(s, s', w, event);
    case Rerun(w, event) =>
      assert RowOk(s, event);
      LocalKeepsSettled(s, s', w, event);
    case _ => LocalKeepsWorldOk(initial, s, e);
  }

  lemma InspectKeepsSettled(s: World, w: nat)
    requires SettledEvents(s) && w in s.workers && s.workers[w].pc.Processing?
    ensures SettledEvents(Inspected(s, w))
  {
    var e := s.workers[w].event;
    assert WorkerOk(s, w) && RowOk(s, e);
    LocalKeepsSettled(s, Inspected(s, w), w, e);
  }

  lemma InsertKeepsSettled(s: World, w: nat)
    requires SettledEvents(s) && w in s.workers && s.workers[w].pc.Arrived?
    ensures SettledEvents(Inserted(s, w))
  {
  }

  lemma MarkKeepsSettled(s: World, w: nat)
    requires SettledEvents(s) && w in s.workers && (s.workers[w].pc.Handled? || s.workers[w].pc.Broken?)
    ensures SettledEvents(Marked(s, w))
  {
  }

  lemma StopKeepsSettled(s: World, w: nat, pc: Pc)
    requires SettledEvents(s) && w in s.workers && (pc.Broken? || pc.Crashed?)
    ensures SettledEvents(At(s, w, pc))
  {
  }

  lemma LocalKeepsWorldOk(initial: Db, s: World, e: Event)
    requires WorldOk(initial, s) && Enabled(s, e)
    requires e.Insert? || e.Inspect? || e.Break? || e.Mark? || e.Crash?
    ensures WorldOk(initial, Next(s, e))
  {
    match e
    case Insert(w) => InsertKeepsSettled(s, w);
    case Inspect(w) => InspectKeepsSettled(s, w);
    case Break(w) => StopKeepsSettled(s, w, Broken);
    case Mark(w) => MarkKeepsSettled(s, w);
    case Crash(w) => StopKeepsSettled(s, w, Crashed);
  }

  lemma ApplyKeepsWorldOk(initial: Db, s: World, w: nat, now: int)
    requires WorldOk(initial, s) && Enabled(s, Apply(w, now))
    ensures WorldOk(initial, Next(s, Apply(w, now)))
  {
    var me := s.workers[w];
    var i, f := me.pc.i, me.pc.f;
    var tx := TxApply(i, f, now);
    assert WorkerOk(s, w) && RowOk(s, me.event);
    FindOrderSome(s.db.orders, f.orderId);
    CommitKeepsWorldOk(initial, s, tx);
    var c := Commit(s, tx);
    FindOrderStays(s.db, tx, f.orderId);
    AppliedIsAbsorbed(s.db, i, f, now);
    assert RowOk(c, me.event);
    assert Justified(At(c, w, Handled), me.event);
    LocalKeepsSettled(c, At(c, w, Handled), w, me.event);
  }

  lemma {:induction false} RunsKeepWorldOk(db: Db, es: seq<Event>)
    requires AllLive(db) && OrdersKnown(db) && Possible(Fresh(db), es)
    ensures WorldOk(db, Exec(Fresh(db), es))
    decreases |es|
  {
    if es != [] {
      RunsKeepWorldOk(db, es[..|es| - 1]);
      EventKeepsWorldOk(db, Exec(Fresh(db), es[..|es| - 1]), es[|es| - 1]);
    }
  }

  /** Whatever else commits, an event is PROCESSED only if it was of an unhandled type, or its order was unknown when it
      was looked up, or re-applying its fact would change no status, order, transaction or history row, or a FAILED
      write met its intent terminal. */
  lemma ProcessedMeansSettled(db: Db, es: seq<Event>, e: EventId)
    requires AllLive(db) && OrdersKnown(db) && Possible(Fresh(db), es)
    requires e in Exec(Fresh(db), es).rows && Exec(Fresh(db), es).rows[e].status == Processed
    ensures Justified(Exec(Fresh(db), es), e)
  {
    RunsKeepWorldOk(db, es);
    assert RowOk(Exec(Fresh(db), es), e);
  }

  /** Crash/replay equivalence: whatever else commits, the store a schedule of deliveries, crashes and re-runs leaves
      differs only in attempt statuses from the one left after deleting every re-application of a standing fact. */
  lemma CrashesAndRerunsAreHarmless(db: Db, es: seq<Event>)
    requires AllLive(db) && OrdersKnown(db) && Possible(Fresh(db), es)
    ensures var s := Exec(Fresh(db), es); Core(s.db) == Core(RunAll(db, Dedup(db, s.log)))
  {
    RunsKeepWorldOk(db, es);
    ReplaysCanBeDeleted(db, Exec(Fresh(db), es).log);
  }
}
