/** Lease spacing, which holds with no timing assumption, and what goes wrong when an owner overruns its lease. */
module Leases {
  import opened Options
  import opened Idempotency

  /** Successive grants of one record lie more than the timeout apart. */
  ghost predicate Spaced(times: seq<int>, timeout: int) {
    forall k :: 0 < k < |times| ==> times[k] - times[k - 1] > timeout
  }

  function Members(holders: seq<nat>): set<nat> {
    set r | r in holders
  }

  ghost predicate LeaseOk(w: World, s: Slot, timeout: int)
    requires s in w.leases && s in w.rows
  {
    var l := w.leases[s];
    && w.rows[s].id in w.requests && !w.requests[w.rows[s].id].pc.Arrived?
    && |l.times| == |l.holders| > 0
    && l.times[|l.times| - 1] == w.rows[s].createdAt <= w.now
    && Spaced(l.times, timeout)
    && l.makers <= Members(l.holders)
  }

  ghost predicate HolderOk(w: World, r: nat, timeout: int)
    requires r in w.requests
  {
    var me := w.requests[r];
    match me.pc
    case Reclaiming(staleBefore) => staleBefore <= w.now - timeout
    case Owner(id, _, _) =>
      && id in w.requests && !w.requests[id].pc.Arrived?
      && (me.slot in w.rows && me.slot in w.leases && w.rows[me.slot].id == id ==> r in w.leases[me.slot].holders)
    case _ => true
  }

  ghost predicate LeasesOk(w: World, timeout: int) {
    && w.leases.Keys == w.rows.Keys
    && (forall s :: s in w.leases ==> LeaseOk(w, s, timeout))
    && (forall r :: r in w.requests ==> HolderOk(w, r, timeout))
  }

  lemma SpacedAppend(times: seq<int>, t: int, timeout: int)
    requires Spaced(times, timeout) && times != [] && t - times[|times| - 1] > timeout
    ensures Spaced(times + [t], timeout)
  {
  }

  /** A request moves without being granted anything, rows keep their ids and times, leases their grants. */
  lemma StepKeepsLeases(w: World, w': World, r: nat, timeout: int)
    requires LeasesOk(w, timeout) && w'.now == w.now && w'.requests.Keys == w.requests.Keys + {r}
    requires forall q :: q in w.requests && q != r ==> w'.requests[q] == w.requests[q]
    requires r in w.requests && w'.requests[r].pc.Arrived? ==> w.requests[r].pc.Arrived?
    requires w'.leases.Keys == w'.rows.Keys <= w.rows.Keys
    requires forall s :: s in w'.rows ==>
      && w'.rows[s].id == w.rows[s].id && w'.rows[s].createdAt == w.rows[s].createdAt
      && w'.leases[s].times == w.leases[s].times && w'.leases[s].holders == w.leases[s].holders
      && w'.leases[s].makers <= w.leases[s].makers + Members(w.leases[s].holders)
    requires HolderOk(w', r, timeout)
    ensures LeasesOk(w', timeout)
  {
    forall s | s in w'.leases
      ensures LeaseOk(w', s, timeout)
    {
      assert LeaseOk(w, s, timeout);
    }
    forall q | q in w'.requests
      ensures HolderOk(w', q, timeout)
    {
      if q != r { assert HolderOk(w, q, timeout); }
    }
  }

  lemma ClaimKeepsLeases(w: World, r: nat, timeout: int)
    requires LeasesOk(w, timeout) && Enabled(w, Claim(r))
    ensures LeasesOk(Claimed(w, r), timeout)
  {
    var w', slot := Claimed(w, r), w.requests[r].slot;
    if slot in w.rows {
      StepKeepsLeases(w, w', r, timeout);
    } else {
      forall s | s in w'.leases
        ensures LeaseOk(w', s, timeout)
      {
        if s != slot { assert LeaseOk(w, s, timeout); }
      }
      forall q | q in w'.requests
        ensures HolderOk(w', q, timeout)
      {
        if q != r { assert HolderOk(w, q, timeout); }
      }
    }
  }

  lemma ReclaimKeepsLeases(w: World, r: nat, timeout: int)
    requires LeasesOk(w, timeout) && Enabled(w, Reclaim(r))
    ensures LeasesOk(Reclaimed(w, r), timeout)
  {
    var w', me := Reclaimed(w, r), w.requests[r];
    assert HolderOk(w, r, timeout);
    if !Reclaimable(w.rows, me.slot, me.pc.staleBefore) {
      StepKeepsLeases(w, w', r, timeout);
    } else {
      assert LeaseOk(w, me.slot, timeout);
      SpacedAppend(w.leases[me.slot].times, w.now, timeout);
      forall s | s in w'.leases
        ensures LeaseOk(w', s, timeout)
      {
        assert LeaseOk(w, s, timeout);
      }
      forall q | q in w'.requests
        ensures HolderOk(w', q, timeout)
      {
        if q != r { assert HolderOk(w, q, timeout); }
      }
    }
  }

  lemma FinishKeepsLeases(w: World, e: Event, timeout: int)
    requires LeasesOk(w, timeout) && Enabled(w, e) && (e.Complete? || e.Release?)
    ensures LeasesOk(Next(w, e, timeout), timeout)
  {
    StepKeepsLeases(w, Next(w, e, timeout), e.r, timeout);
  }

  lemma MakeKeepsLeases(w: World, r: nat, timeout: int)
    requires LeasesOk(w, timeout) && Enabled(w, CreateIntent(r))
    ensures LeasesOk(Made(w, r), timeout)
  {
    var w', slot := Made(w, r), w.requests[r].slot;
    assert HolderOk(w, r, timeout);
    forall s | s in w'.rows
      ensures w'.leases[s].makers <= w.leases[s].makers + Members(w.leases[s].holders)
    {
      if s == slot && w.rows[s].id == w.requests[r].pc.id {
        assert r in Members(w.leases[s].holders);
      } else {
        assert w'.leases[s] == w.leases[s];
      }
    }
    StepKeepsLeases(w, w', r, timeout);
  }

  lemma PlainKeepsLeases(w: World, r: nat, pc: Pc, timeout: int)
    requires LeasesOk(w, timeout) && r in w.requests && !pc.Owner? && !pc.Arrived?
    requires pc.Reclaiming? ==> pc.staleBefore <= w.now - timeout
    ensures LeasesOk(At(w, r, pc), timeout)
  {
  }

  lemma TickKeepsLeases(w: World, to: int, timeout: int)
    requires LeasesOk(w, timeout) && w.now <= to
    ensures LeasesOk(w.(now := to), timeout)
  {
  }

  lemma JudgeKeepsLeases(w: World, r: nat, timeout: int)
    requires LeasesOk(w, timeout) && Enabled(w, Judge(r))
    ensures LeasesOk(Judged(w, r, timeout), timeout)
  {
    PlainKeepsLeases(w, r, Verdict(w.requests[r].pc.record, w.requests[r].hash, w.now, timeout), timeout);
  }

  lemma EventKeepsLeases(w: World, e: Event, timeout: int)
    requires LeasesOk(w, timeout) && Enabled(w, e)
    ensures LeasesOk(Next(w, e, timeout), timeout)
  {
    match e
    case Tick(to) => TickKeepsLeases(w, to, timeout);
    case Arrive(r, _, _) => StepKeepsLeases(w, Next(w, e, timeout), r, timeout);
    case Claim(r) => ClaimKeepsLeases(w, r, timeout);
    case Reclaim(r) => ReclaimKeepsLeases(w, r, timeout);
    case CreateIntent(r) => MakeKeepsLeases(w, r, timeout);
    case Complete(_, _, _) => FinishKeepsLeases(w, e, timeout);
    case Release(_) => FinishKeepsLeases(w, e, timeout);
    case Judge(r) => JudgeKeepsLeases(w, r, timeout);
    case Look(r) =>
      var slot := w.requests[r].slot;
      PlainKeepsLeases(w, r, if slot in w.rows then Looked(w.rows[slot]) else Refused, timeout);
    case Answer(r) => PlainKeepsLeases(w, r, Replied(w.requests[r].pc.payload), timeout);
    case Crash(r) => if !w.requests[r].pc.Replied? { PlainKeepsLeases(w, r, Crashed, timeout); }
  }

  lemma {:induction false} RunsKeepLeases(es: seq<Event>, timeout: int)
    requires Possible(INITIAL, es, timeout)
    ensures LeasesOk(Exec(INITIAL, es, timeout), timeout)
    decreases |es|
  {
    if es != [] {
      RunsKeepLeases(es[..|es| - 1], timeout);
      EventKeepsLeases(Exec(INITIAL, es[..|es| - 1], timeout), es[|es| - 1], timeout);
    }
  }

  lemma {:induction false} SpacedSpan(times: seq<int>, timeout: int)
    requires Spaced(times, timeout) && times != []
    ensures (|times| - 1) * (timeout + 1) <= times[|times| - 1] - times[0]
    decreases |times|
  {
    var n := |times| - 1;
    if n > 0 {
      SpacedSpan(times[..n], timeout);
      assert (n - 1) * (timeout + 1) + (timeout + 1) == n * (timeout + 1);
    }
  }

  lemma {:induction false} DistinctCount(holders: seq<nat>)
    ensures |Members(holders)| <= |holders|
    decreases |holders|
  {
    if holders == [] {
      assert Members(holders) == {};
    } else {
      var rest, last := holders[..|holders| - 1], holders[|holders| - 1];
      DistinctCount(rest);
      assert holders == rest + [last];
      assert Members(holders) == Members(rest) + {last};
    }
  }

  lemma LeaseNumbers(l: Lease, timeout: int)
    requires |l.times| == |l.holders| > 0 && Spaced(l.times, timeout) && l.makers <= Members(l.holders)
    ensures (|l.times| - 1) * timeout <= l.times[|l.times| - 1] - l.times[0]
    ensures |l.makers| <= |l.times|
  {
    SpacedSpan(l.times, timeout);
    assert (|l.times| - 1) * (timeout + 1) == (|l.times| - 1) * timeout + (|l.times| - 1);
    DistinctCount(l.holders);
    assert Members(l.holders) == l.makers + (Members(l.holders) - l.makers);
  }

  /** However many retries race: n grants of one record since it was inserted span at least n - 1 timeouts, and at most
      n payment intents were created under it. */
  lemma LeaseBounds(es: seq<Event>, s: Slot, timeout: int)
    requires Possible(INITIAL, es, timeout) && s in Exec(INITIAL, es, timeout).rows
    ensures s in Exec(INITIAL, es, timeout).leases
    ensures var l := Exec(INITIAL, es, timeout).leases[s]; var n := |l.times|;
      && n > 0
      && Spaced(l.times, timeout)
      && (n - 1) * timeout <= l.times[n - 1] - l.times[0]
      && |l.makers| <= n
  {
    RunsKeepLeases(es, timeout);
    var w := Exec(INITIAL, es, timeout);
    assert LeaseOk(w, s, timeout);
    LeaseNumbers(w.leases[s], timeout);
  }

  /** The lease of a slot after an event: a new one, or the old one and what the event adds to it. */
  ghost predicate Recorded(w: World, w': World, e: Event, s: Slot)
    requires Enabled(w, e) && s in w'.leases && !e.Tick? && e.r in w'.requests && w.leases.Keys <= w.rows.Keys
  {
    if s !in w.leases then e.Claim? && w'.requests[e.r].slot == s && w'.leases[s] == Lease([w.now], [e.r], {})
    else
      var granted :=
        w'.requests[e.r].slot == s && w'.requests[e.r].pc.Owner?
        && (e.r in w.requests ==> !w.requests[e.r].pc.Owner?);
      var made := e.CreateIntent? && w.requests[e.r].slot == s && w.requests[e.r].pc.id == w.rows[s].id;
      w'.leases[s] == Lease(
        w.leases[s].times + if granted then [w.now] else [], w.leases[s].holders + if granted then [e.r] else [],
        w.leases[s].makers + if made then {e.r} else {})
  }

  lemma GrantIsRecorded(w: World, e: Event, timeout: int, s: Slot)
    requires LeasesOk(w, timeout) && Enabled(w, e) && s in Next(w, e, timeout).leases && (e.Claim? || e.Reclaim?)
    ensures Recorded(w, Next(w, e, timeout), e, s)
  {
  }

  lemma IntentIsRecorded(w: World, r: nat, timeout: int, s: Slot)
    requires LeasesOk(w, timeout) && Enabled(w, CreateIntent(r)) && s in Next(w, CreateIntent(r), timeout).leases
    ensures Recorded(w, Next(w, CreateIntent(r), timeout), CreateIntent(r), s)
  {
  }

  lemma NothingToRecord(w: World, e: Event, timeout: int, s: Slot)
    requires LeasesOk(w, timeout) && Enabled(w, e) && s in Next(w, e, timeout).leases
    requires !e.Tick? && !e.Claim? && !e.Reclaim? && !e.CreateIntent?
    ensures Recorded(w, Next(w, e, timeout), e, s)
  {
    var w' := Next(w, e, timeout);
    assert s in w.leases && w'.leases[s] == w.leases[s];
  }

  /** The lease of a slot records, from the insert of its record on, every grant of it and every holder that created an
      intent under it; time alone changes none. */
  lemma LeaseRecordsGrants(w: World, e: Event, timeout: int, s: Slot)
    requires LeasesOk(w, timeout) && Enabled(w, e) && s in Next(w, e, timeout).leases
    ensures e.Tick? ==> Next(w, e, timeout).leases == w.leases
    ensures !e.Tick? ==> Recorded(w, Next(w, e, timeout), e, s)
  {
    if e.Claim? || e.Reclaim? {
      GrantIsRecorded(w, e, timeout, s);
    } else if e.CreateIntent? {
      IntentIsRecorded(w, e.r, timeout, s);
    } else if !e.Tick? {
      NothingToRecord(w, e, timeout, s);
    }
  }

  // ----- An owner that overruns -----

  /** Requests 1 and 2 ask for the same thing under one key. */
  datatype Race = Race(slot: Slot, hash: Hash, timeout: int, hold: int)

  /** The time, the state of the one record, and where both requests are. */
  datatype Scene = Scene(now: int, status: Status, createdAt: int, one: Pc, two: Option<Pc>)

  ghost predicate Is(race: Race, w: World, s: Scene) {
    && w.now == s.now
    && w.rows == map[race.slot := Record(1, race.hash, s.status, s.createdAt)]
    && w.requests == (
      var one := Request(race.slot, race.hash, s.one);
      if s.two.Some? then map[1 := one, 2 := Request(race.slot, race.hash, s.two.value)] else map[1 := one])
  }

  predicate Within(pc: Pc, now: int, hold: int) {
    pc.Owner? ==> now <= pc.grantedAt + hold
  }

  /** A timely run has led here. */
  ghost predicate Shows(race: Race, es: seq<Event>, s: Scene) {
    && Possible(INITIAL, es, race.timeout) && TimelyRun(es, race.timeout, race.hold)
    && Is(race, Exec(INITIAL, es, race.timeout), s)
  }

  /** From any world like s, the event leads to one like s'. */
  ghost predicate Turns(race: Race, w: World, e: Event, s': Scene) {
    Enabled(w, e) && Is(race, Next(w, e, race.timeout), s')
  }

  lemma OneMore(es: seq<Event>, e: Event, timeout: int)
    requires Possible(INITIAL, es, timeout) && Enabled(Exec(INITIAL, es, timeout), e)
    ensures Possible(INITIAL, es + [e], timeout)
    ensures Exec(INITIAL, es + [e], timeout) == Next(Exec(INITIAL, es, timeout), e, timeout)
  {
    assert (es + [e])[..|es|] == es;
  }

  lemma Onward(race: Race, es: seq<Event>, e: Event, s': Scene) returns (longer: seq<Event>)
    requires Possible(INITIAL, es, race.timeout) && TimelyRun(es, race.timeout, race.hold)
    requires Turns(race, Exec(INITIAL, es, race.timeout), e, s')
    requires Within(s'.one, s'.now, race.hold) && (s'.two.Some? ==> Within(s'.two.value, s'.now, race.hold))
    ensures Shows(race, longer, s')
  {
    longer := es + [e];
    OneMore(es, e, race.timeout);
    assert longer[..|longer| - 1] == es;
    assert Timely(Exec(INITIAL, longer, race.timeout), race.hold);
  }

  lemma FirstClaims(race: Race) returns (es: seq<Event>)
    requires 0 <= race.hold
    ensures Shows(race, es, Scene(0, InProgress, 0, Owner(1, 0, false), None))
  {
    var arrival := Arrive(1, race.slot, race.hash);
    OneMore([], arrival, race.timeout);
    es := [] + [arrival];
    assert es[..|es| - 1] == [];
    assert Timely(INITIAL, race.hold) && Timely(Exec(INITIAL, es, race.timeout), race.hold);
    es := Onward(race, es, Claim(1), Scene(0, InProgress, 0, Owner(1, 0, false), None));
  }

  /** The scenes of the overrun: request 1 claims and creates its intent, the timeout passes, request 2 arrives, finds
      the record, judges it stale, takes it over and creates another intent, and then both complete it and answer. */
  function SceneOf(race: Race, first: Payload, second: Payload, k: nat): Scene {
    var late := race.timeout + 1;
    var slow, taker := Owner(1, 0, true), Owner(1, late, true);
    if k == 0 then Scene(0, InProgress, 0, Owner(1, 0, false), None)
    else if k == 1 then Scene(0, InProgress, 0, slow, None)
    else if k == 2 then Scene(late, InProgress, 0, slow, None)
    else if k == 3 then Scene(late, InProgress, 0, slow, Some(Arrived))
    else if k == 4 then Scene(late, InProgress, 0, slow, Some(Lost))
    else if k == 5 then Scene(late, InProgress, 0, slow, Some(Looked(Record(1, race.hash, InProgress, 0))))
    else if k == 6 then Scene(late, InProgress, 0, slow, Some(Reclaiming(1)))
    else if k == 7 then Scene(late, InProgress, late, slow, Some(Owner(1, late, false)))
    else if k == 8 then Scene(late, InProgress, late, slow, Some(taker))
    else if k == 9 then Scene(late, Completed(first), late, Answering(first), Some(taker))
    else if k == 10 then Scene(late, Completed(first), late, Replied(first), Some(taker))
    else if k == 11 then Scene(late, Completed(second), late, Replied(first), Some(Answering(second)))
    else Scene(late, Completed(second), late, Replied(first), Some(Replied(second)))
  }

  function EventOf(race: Race, first: Payload, second: Payload, k: nat): Event {
    if k == 0 then CreateIntent(1)
    else if k == 1 then Tick(race.timeout + 1)
    else if k == 2 then Arrive(2, race.slot, race.hash)
    else if k == 3 then Claim(2)
    else if k == 4 then Look(2)
    else if k == 5 then Judge(2)
    else if k == 6 then Reclaim(2)
    else if k == 7 then CreateIntent(2)
    else if k == 8 then Complete(1, first, true)
    else if k == 9 then Answer(1)
    else if k == 10 then Complete(2, second, true)
    else Answer(2)
  }

  lemma Turn(race: Race, first: Payload, second: Payload, k: nat, w: World)
    requires 0 <= race.timeout < race.hold && k < 12 && Is(race, w, SceneOf(race, first, second, k))
    ensures Turns(race, w, EventOf(race, first, second, k), SceneOf(race, first, second, k + 1))
  {
    if k < 4 {
      TurnEarly(race, first, second, k, w);
    } else if k < 8 {
      TurnMiddle(race, first, second, k, w);
    } else {
      TurnLate(race, first, second, k, w);
    }
  }

  lemma TurnEarly(race: Race, first: Payload, second: Payload, k: nat, w: World)
    requires 0 <= race.timeout < race.hold && k < 4 && Is(race, w, SceneOf(race, first, second, k))
    ensures Turns(race, w, EventOf(race, first, second, k), SceneOf(race, first, second, k + 1))
  {
  }

  lemma TurnMiddle(race: Race, first: Payload, second: Payload, k: nat, w: World)
    requires 0 <= race.timeout < race.hold && 4 <= k < 8 && Is(race, w, SceneOf(race, first, second, k))
    ensures Turns(race, w, EventOf(race, first, second, k), SceneOf(race, first, second, k + 1))
  {
  }

  lemma TurnLate(race: Race, first: Payload, second: Payload, k: nat, w: World)
    requires 0 <= race.timeout < race.hold && 8 <= k < 12 && Is(race, w, SceneOf(race, first, second, k))
    ensures Turns(race, w, EventOf(race, first, second, k), SceneOf(race, first, second, k + 1))
  {
  }

  lemma {:induction false} Unfolds(race: Race, first: Payload, second: Payload, k: nat) returns (es: seq<Event>)
    requires 0 <= race.timeout < race.hold && k <= 12
    ensures Shows(race, es, SceneOf(race, first, second, k))
  {
    if k == 0 {
      es := FirstClaims(race);
    } else {
      var shorter := Unfolds(race, first, second, k - 1);
      Turn(race, first, second, k - 1, Exec(INITIAL, shorter, race.timeout));
      es := Onward(race, shorter, EventOf(race, first, second, k - 1), SceneOf(race, first, second, k));
    }
  }

  /** A claimant that may be slow by more than the timeout, whatever the timeout, shares its record with the request
      that reclaims it: both complete it, and one key answers two callers with any two payloads. */
  lemma OverrunSplitsKey(race: Race, first: Payload, second: Payload) returns (es: seq<Event>)
    requires 0 <= race.timeout < race.hold
    ensures Possible(INITIAL, es, race.timeout) && TimelyRun(es, race.timeout, race.hold)
    ensures Exec(INITIAL, es, race.timeout).requests ==
            map[1 := Request(race.slot, race.hash, Replied(first)), 2 := Request(race.slot, race.hash, Replied(second))]
  {
    es := Unfolds(race, first, second, 12);
  }

  // ----- The exact condition -----

  /** Every 201 of a key, first answer or replay, carries one payload and goes to one request hash. */
  ghost predicate OneOutcome(w: World) {
    forall q, r ::
      q in w.requests && r in w.requests && w.requests[q].slot == w.requests[r].slot
      && w.requests[q].pc.Replied? && w.requests[r].pc.Replied? ==>
        w.requests[q].pc.payload == w.requests[r].pc.payload && w.requests[q].hash == w.requests[r].hash
  }

  lemma TimelyRunHasOneOutcome(es: seq<Event>, timeout: int, hold: int)
    requires Possible(INITIAL, es, timeout) && TimelyRun(es, timeout, hold) && hold <= timeout
    ensures OneOutcome(Exec(INITIAL, es, timeout))
  {
    var w := Exec(INITIAL, es, timeout);
    forall q, r | q in w.requests && r in w.requests && w.requests[q].slot == w.requests[r].slot
                  && w.requests[q].pc.Replied? && w.requests[r].pc.Replied?
      ensures w.requests[q].pc.payload == w.requests[r].pc.payload && w.requests[q].hash == w.requests[r].hash
    {
      TimelyRunsAreExclusive(es, timeout, hold, w.requests[q].slot);
      OneOutcomePerKey(es, timeout, w.requests[q].slot, q, r);
    }
  }

  lemma SplitIsNoOneOutcome(w: World, race: Race, first: Payload, second: Payload)
    requires w.requests ==
             map[1 := Request(race.slot, race.hash, Replied(first)),
                 2 := Request(race.slot, race.hash, Replied(second))]
    requires first != second
    ensures !OneOutcome(w)
  {
    assert w.requests[1].pc.payload != w.requests[2].pc.payload;
  }

  /** A key produces one outcome in every run whose owners finish within `hold` of their grant, if and only if the
      in-progress timeout is at least `hold`. */
  lemma OneOutcomeIffTimeoutCovers(timeout: int, hold: int)
    requires 0 <= timeout
    ensures (forall es :: Possible(INITIAL, es, timeout) && TimelyRun(es, timeout, hold) ==>
               OneOutcome(Exec(INITIAL, es, timeout)))
            <==> hold <= timeout
  {
    if hold <= timeout {
      forall es | Possible(INITIAL, es, timeout) && TimelyRun(es, timeout, hold)
        ensures OneOutcome(Exec(INITIAL, es, timeout))
      {
        TimelyRunHasOneOutcome(es, timeout, hold);
      }
    } else {
      var first, second := Payload("pay_1"), Payload("pay_2");
      assert first.raw[4] != second.raw[4];
      var race := Race(Slot("create_payment", "key-1"), Hash("ORDER-1", 500, "INR", None), timeout, hold);
      var es := OverrunSplitsKey(race, first, second);
      SplitIsNoOneOutcome(Exec(INITIAL, es, timeout), race, first, second);
    }
  }
}
