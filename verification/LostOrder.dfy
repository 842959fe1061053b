/** What becomes of a settled intent whose order row was committed but never acknowledged: a run of the code in which
    every persist attempt loses its acknowledgement. */
module LostOrder {
  import opened Options
  import opened Lifecycle
  import opened Ledger
  import opened Invariants
  import opened Orchestration

  const SHOP: IntentId := IntentId("pay_1")
  const ORDER: OrderId := OrderId(SHOP.raw)
  const CAPTURE: GatewayPayment := GatewayPayment(PaymentId("rzp_1"), ORDER, Captured, 500, "INR")

  function LostEnv(): Env {
    Env((i: IntentId) => OrderId(i.raw), (p: PaymentId) => ORDER)
  }

  /** All three persist attempts lose their acknowledgement after the first one committed; the customer pays
      before createPayment gives up and writes FAILED over the settled intent. */
  const LOST_RUN: seq<Event> :=
    [ Begin(SHOP, 500, "INR", 0), OrderIssued(SHOP),
      Persist(SHOP, true, false, true), Persist(SHOP, true, false, true), Persist(SHOP, true, false, false),
      RouteByOrder(SHOP, CAPTURE), Deliver(SHOP, CAPTURE, 1), WriteFailed(SHOP, 2)]

  function LostDb(status: State, orders: seq<Order>): Db {
    Db(map[SHOP := Intent(500, "INR", status, 0)], orders, [], map[],
       [HistoryRow(SHOP, Change(None, CREATED)), HistoryRow(SHOP, Change(Some(CREATED), PENDING))])
  }

  const CALLED: World := World(LostDb(PENDING, [Order(ORDER, SHOP)]), map[SHOP := GivingUp], {(SHOP, CAPTURE)}, {})

  /** Event k of the run is possible in `before` and leads to `after`. */
  ghost predicate LostStep(k: nat, before: World, after: World)
    requires k < |LOST_RUN|
  {
    Enabled(LostEnv(), before, LOST_RUN[k]) && Next(LostEnv(), before, LOST_RUN[k]) == after
  }

  function Tried(tries: nat): World {
    World(LostDb(PENDING, if tries == 0 then [] else [Order(ORDER, SHOP)]), map[SHOP := Persisting(tries)], {}, {})
  }

  lemma LostPersist(tries: nat)
    requires tries < 3
    ensures LostStep(tries + 2, Tried(tries), if tries < 2 then Tried(tries + 1) else CALLED.(calls := {}))
  {
  }

  lemma LostOrder()
    ensures LostStep(0, INITIAL, Tried(0).(phases := map[SHOP := Calling]))
    ensures LostStep(1, Tried(0).(phases := map[SHOP := Calling]), Tried(0))
  {
  }

  lemma LostCall()
    ensures LostStep(5, CALLED.(calls := {}), CALLED)
  {
  }

  function LostWorld(k: nat): World {
    if k == 0 then INITIAL
    else if k == 1 then Tried(0).(phases := map[SHOP := Calling])
    else if k < 5 then Tried(k - 2)
    else if k == 5 then CALLED.(calls := {})
    else CALLED
  }

  lemma LostCreation(k: nat)
    requires k <= 6
    ensures Exec(LostEnv(), LOST_RUN[..k]) == LostWorld(k)
    ensures k < 6 ==> LostStep(k, LostWorld(k), LostWorld(k + 1))
  {
    if k == 0 {
      assert LOST_RUN[..0] == [];
    } else {
      LostCreation(k - 1);
      OneMore(LostEnv(), LOST_RUN, k - 1);
    }
    if k < 2 { LostOrder(); } else if k < 5 { LostPersist(k - 2); } else if k == 5 { LostCall(); }
  }

  lemma LostPayment()
    ensures Enabled(LostEnv(), CALLED, LOST_RUN[6])
    ensures var paid := Next(LostEnv(), CALLED, LOST_RUN[6]);
      && paid.phases == CALLED.phases
      && paid.db.intents == map[SHOP := Intent(500, "INR", COMPLETED, 1)]
      && paid.db.transactions == map[CAPTURE.paymentId := Transaction(SHOP, 500, "INR")]
  {
    assert Decide(CALLED.db.intents[SHOP], CAPTURE) == Advance(SUCCEEDED);
  }

  lemma LostWrite(paid: World)
    requires paid.phases == CALLED.phases && SHOP in paid.db.intents
    ensures var failed := Next(LostEnv(), paid, LOST_RUN[7]);
      && Enabled(LostEnv(), paid, LOST_RUN[7])
      && SHOP in failed.db.intents && failed.db.intents[SHOP].status == FAILED
      && failed.db.transactions == paid.db.transactions
  {
  }

  lemma LostSettlement()
    ensures var paid := Next(LostEnv(), CALLED, LOST_RUN[6]); var failed := Next(LostEnv(), paid, LOST_RUN[7]);
      && Enabled(LostEnv(), paid, LOST_RUN[7])
      && SHOP in paid.db.intents && paid.db.intents[SHOP].status == COMPLETED
      && SHOP in failed.db.intents && failed.db.intents[SHOP].status == FAILED
      && failed.db.transactions == map[CAPTURE.paymentId := Transaction(SHOP, 500, "INR")]
  {
    LostPayment();
    LostWrite(Next(LostEnv(), CALLED, LOST_RUN[6]));
  }

  lemma LostEnding()
    ensures Exec(LostEnv(), LOST_RUN[..7]) == Next(LostEnv(), CALLED, LOST_RUN[6])
    ensures Exec(LostEnv(), LOST_RUN) == Next(LostEnv(), Next(LostEnv(), CALLED, LOST_RUN[6]), LOST_RUN[7])
  {
    LostCreation(6);
    OneMore(LostEnv(), LOST_RUN, 6);
    OneMore(LostEnv(), LOST_RUN, 7);
    assert LOST_RUN[..8] == LOST_RUN;
  }

  lemma LostPossible(k: nat)
    requires k < 8
    ensures Enabled(LostEnv(), Exec(LostEnv(), LOST_RUN[..k]), LOST_RUN[k])
  {
    if k < 6 {
      LostCreation(k);
    } else {
      LostCreation(6);
      LostEnding();
      LostPayment();
      LostSettlement();
    }
  }

  /** The run is possible, and it ends with a captured payment and its transaction on a FAILED intent. */
  lemma LostAcknowledgementsUndoSettlement()
    ensures FreshOrders(LostEnv()) && Possible(LostEnv(), LOST_RUN)
    ensures var before, after := Exec(LostEnv(), LOST_RUN[..7]).db, Exec(LostEnv(), LOST_RUN).db;
      && SHOP in before.intents && before.intents[SHOP].status == COMPLETED
      && SHOP in after.intents && after.intents[SHOP].status == FAILED
      && after.transactions == map[CAPTURE.paymentId := Transaction(SHOP, 500, "INR")]
  {
    forall k | 0 <= k < |LOST_RUN|
      ensures Enabled(LostEnv(), Exec(LostEnv(), LOST_RUN[..k]), LOST_RUN[k])
    {
      LostPossible(k);
    }
    StepwisePossible(LostEnv(), LOST_RUN);
    LostEnding();
    LostSettlement();
  }
}
