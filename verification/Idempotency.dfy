/** The idempotency-key protocol: claim by unique insert, replay, conflict, reclaim of a stale claim, complete and
    release, each one statement, with any number of racing requests, crashes, and a clock. */
module Idempotency {
  import opened Options

  datatype Slot = Slot(scope: string, key: string)

  /** The canonical request fields; the digest over them is taken to be injective. */
  datatype Hash = Hash(orderId: string, amount: int, currency: string, customer: Option<string>)

  datatype Payload = Payload(raw: string)
  datatype Status = InProgress | Completed(payload: Payload)

  /** A record; its id is the number of the request whose insert created it. */
  datatype Record = Record(id: nat, hash: Hash, status: Status, createdAt: int)

  type Rows = map<Slot, Record>

  // ----- Single statements -----

  /** INSERT; None is a violation of UNIQUE (scope, idempotency_key). */
  function ClaimRow(rows: Rows, slot: Slot, id: nat, hash: Hash, now: int): Option<Rows> {
    if slot in rows then None else Some(rows[slot := Record(id, hash, InProgress, now)])
  }

  /** UPDATE ... WHERE id: whatever the row holds now. */
  function CompleteRow(rows: Rows, id: nat, payload: Payload): Rows {
    map s | s in rows :: if rows[s].id == id then rows[s].(status := Completed(payload)) else rows[s]
  }

  /** DELETE ... WHERE id. */
  function ReleaseRow(rows: Rows, id: nat): Rows {
    map s | s in rows && rows[s].id != id :: rows[s]
  }

  predicate Reclaimable(rows: Rows, slot: Slot, staleBefore: int) {
    slot in rows && rows[slot].status.InProgress? && rows[slot].createdAt < staleBefore
  }

  /** UPDATE ... WHERE still in progress and still stale; the record keeps its id. */
  function ReclaimRow(rows: Rows, slot: Slot, hash: Hash, now: int): Rows
    requires slot in rows
  {
    rows[slot := Record(rows[slot].id, hash, InProgress, now)]
  }

  // ----- Requests -----

  datatype Pc =
    | Arrived
    | Lost
    | Looked(record: Record)
    | Reclaiming(staleBefore: int)
    | Owner(id: nat, grantedAt: int, created: bool)
    | Answering(payload: Payload)
    | Replied(payload: Payload)
    | Refused
    | Crashed

  datatype Request = Request(slot: Slot, hash: Hash, pc: Pc)

  /** Grants of one record since it was inserted: when, to whom, and which holders created a payment intent. */
  datatype Lease = Lease(times: seq<int>, holders: seq<nat>, makers: set<nat>)

  datatype World = World(now: int, rows: Rows, requests: map<nat, Request>, leases: map<Slot, Lease>)

  datatype Event =
    | Tick(to: int)
    | Arrive(r: nat, slot: Slot, hash: Hash)
    | Claim(r: nat)
    | Look(r: nat)
    | Judge(r: nat)
    | Reclaim(r: nat)
    | CreateIntent(r: nat)
    | Complete(r: nat, payload: Payload, acknowledged: bool)
    | Release(r: nat)
    | Answer(r: nat)
    | Crash(r: nat)

  predicate Enabled(w: World, e: Event) {
    match e
    case Tick(to) => w.now <= to
    case Arrive(r, _, _) => r !in w.requests
    case Claim(r) => r in w.requests && w.requests[r].pc.Arrived?
    case Look(r) => r in w.requests && w.requests[r].pc.Lost?
    case Judge(r) => r in w.requests && w.requests[r].pc.Looked?
    case Reclaim(r) => r in w.requests && w.requests[r].pc.Reclaiming?
    case CreateIntent(r) => r in w.requests && w.requests[r].pc.Owner? && !w.requests[r].pc.created
    case Complete(r, _, _) => r in w.requests && w.requests[r].pc.Owner? && w.requests[r].pc.created
    case Release(r) => r in w.requests && w.requests[r].pc.Owner?
    case Answer(r) => r in w.requests && w.requests[r].pc.Answering?
    case Crash(r) => r in w.requests
  }

  function At(w: World, r: nat, pc: Pc): World
    requires r in w.requests
  {
    w.(requests := w.requests[r := w.requests[r].(pc := pc)])
  }

  function Claimed(w: World, r: nat): World
    requires r in w.requests
  {
    var me := w.requests[r];
    match ClaimRow(w.rows, me.slot, r, me.hash, w.now)
    case None => At(w, r, Lost)
    case Some(rows) =>
      At(w, r, Owner(r, w.now, false)).(rows := rows, leases := w.leases[me.slot := Lease([w.now], [r], {})])
  }

  /** The middleware's decision over the record it read, which may be out of date. */
  function Verdict(record: Record, hash: Hash, now: int, timeout: int): Pc {
    match record.status
    case Completed(payload) => if record.hash == hash then Replied(payload) else Refused
    case InProgress => if record.createdAt < now - timeout then Reclaiming(now - timeout) else Refused
  }

  function Judged(w: World, r: nat, timeout: int): World
    requires r in w.requests && w.requests[r].pc.Looked?
  {
    At(w, r, Verdict(w.requests[r].pc.record, w.requests[r].hash, w.now, timeout))
  }

  function Reclaimed(w: World, r: nat): World
    requires r in w.requests && w.requests[r].pc.Reclaiming?
  {
    var me := w.requests[r];
    if !Reclaimable(w.rows, me.slot, me.pc.staleBefore) then At(w, r, Refused)
    else
      At(w, r, Owner(w.rows[me.slot].id, w.now, false)).(
        rows := ReclaimRow(w.rows, me.slot, me.hash, w.now),
        leases :=
          if me.slot !in w.leases then w.leases
          else
            var l := w.leases[me.slot];
            w.leases[me.slot := Lease(l.times + [w.now], l.holders + [r], l.makers)])
  }

  function Made(w: World, r: nat): World
    requires r in w.requests && w.requests[r].pc.Owner?
  {
    var me := w.requests[r];
    At(w, r, me.pc.(created := true)).(
      leases :=
        if me.slot in w.leases && me.slot in w.rows && w.rows[me.slot].id == me.pc.id
        then w.leases[me.slot := w.leases[me.slot].(makers := w.leases[me.slot].makers + {r})]
        else w.leases)
  }

  function Next(w: World, e: Event, timeout: int): World
    requires Enabled(w, e)
  {
    match e
    case Tick(to) => w.(now := to)
    case Arrive(r, slot, hash) => w.(requests := w.requests[r := Request(slot, hash, Arrived)])
    case Claim(r) => Claimed(w, r)
    case Look(r) =>
      var slot := w.requests[r].slot;
      At(w, r, if slot in w.rows then Looked(w.rows[slot]) else Refused)
    case Judge(r) => Judged(w, r, timeout)
    case Reclaim(r) => Reclaimed(w, r)
    case CreateIntent(r) => Made(w, r)
    // The controller does not look whether a row matched.
    case Complete(r, payload, acknowledged) =>
      At(w, r, if acknowledged then Answering(payload) else Refused).(
        rows := CompleteRow(w.rows, w.requests[r].pc.id, payload))
    case Release(r) =>
      var rows := ReleaseRow(w.rows, w.requests[r].pc.id);
      At(w, r, Refused).(rows := rows, leases := map s | s in w.leases && s in rows :: w.leases[s])
    case Answer(r) => At(w, r, Replied(w.requests[r].pc.payload))
    case Crash(r) => if w.requests[r].pc.Replied? then w else At(w, r, Crashed)
  }

  predicate Possible(w: World, es: seq<Event>, timeout: int)
    decreases |es|, 0
  {
    if es == [] then true
    else Possible(w, es[..|es| - 1], timeout) && Enabled(Exec(w, es[..|es| - 1], timeout), es[|es| - 1])
  }

  function Exec(w: World, es: seq<Event>, timeout: int): World
    requires Possible(w, es, timeout)
    decreases |es|, 1
  {
    if es == [] then w else Next(Exec(w, es[..|es| - 1], timeout), es[|es| - 1], timeout)
  }

  const INITIAL: World := World(0, map[], map[], map[])

  /** Every owner still running is at most `hold` past its grant. */
  ghost predicate Timely(w: World, hold: int) {
    forall r :: r in w.requests && w.requests[r].pc.Owner? ==> w.now <= w.requests[r].pc.grantedAt + hold
  }

  ghost predicate TimelyRun(es: seq<Event>, timeout: int, hold: int)
    requires Possible(INITIAL, es, timeout)
    decreases |es|
  {
    Timely(Exec(INITIAL, es, timeout), hold) && (es != [] ==> TimelyRun(es[..|es| - 1], timeout, hold))
  }

  // ----- Whose row is whose -----

  /** Every row has the id of a request for its own slot that has left the start, and owners refer to such rows only. */
  ghost predicate IdsOk(w: World) {
    && (forall s :: s in w.rows ==> Refers(w, w.rows[s].id, s))
    && (forall r :: r in w.requests && w.requests[r].pc.Owner? ==> Refers(w, w.requests[r].pc.id, w.requests[r].slot))
  }

  ghost predicate Refers(w: World, id: nat, slot: Slot) {
    id in w.requests && w.requests[id].slot == slot && !w.requests[id].pc.Arrived?
  }

  /** Requests keep their slot, and none goes back to the start. */
  lemma RefersStays(w: World, e: Event, timeout: int, id: nat, slot: Slot)
    requires Enabled(w, e) && Refers(w, id, slot)
    ensures Refers(Next(w, e, timeout), id, slot)
  {
  }

  /** Where a row's id comes from: the row before, or the request that just inserted it. */
  lemma RowComesFrom(w: World, e: Event, timeout: int, s: Slot)
    requires Enabled(w, e) && s in Next(w, e, timeout).rows
    ensures (s in w.rows && Next(w, e, timeout).rows[s].id == w.rows[s].id)
            || (e.Claim? && w.requests[e.r].slot == s && Next(w, e, timeout).rows[s].id == e.r
                && Next(w, e, timeout).requests[e.r].pc.Owner?)
  {
  }

  /** Where an owner's id comes from: its own before, or the row it was just granted. */
  lemma OwnerComesFrom(w: World, e: Event, timeout: int, r: nat)
    requires Enabled(w, e) && r in Next(w, e, timeout).requests && Next(w, e, timeout).requests[r].pc.Owner?
    ensures var slot, id := Next(w, e, timeout).requests[r].slot, Next(w, e, timeout).requests[r].pc.id;
      || (r in w.requests && w.requests[r].slot == slot && w.requests[r].pc.Owner? && w.requests[r].pc.id == id)
      || (slot in Next(w, e, timeout).rows && Next(w, e, timeout).rows[slot].id == id)
  {
  }

  lemma EventKeepsIds(w: World, e: Event, timeout: int)
    requires IdsOk(w) && Enabled(w, e)
    ensures IdsOk(Next(w, e, timeout))
  {
    var w' := Next(w, e, timeout);
    forall s | s in w'.rows
      ensures Refers(w', w'.rows[s].id, s)
    {
      RowComesFrom(w, e, timeout, s);
      if s in w.rows && w'.rows[s].id == w.rows[s].id { RefersStays(w, e, timeout, w.rows[s].id, s); }
    }
    forall r | r in w'.requests && w'.requests[r].pc.Owner?
      ensures Refers(w', w'.requests[r].pc.id, w'.requests[r].slot)
    {
      OwnerComesFrom(w, e, timeout, r);
      if r in w.requests && w.requests[r].pc.Owner? && w.requests[r].pc.id == w'.requests[r].pc.id {
        RefersStays(w, e, timeout, w.requests[r].pc.id, w.requests[r].slot);
      }
    }
  }

  lemma {:induction false} RunsKeepIds(es: seq<Event>, timeout: int)
    requires Possible(INITIAL, es, timeout)
    ensures IdsOk(Exec(INITIAL, es, timeout))
    decreases |es|
  {
    if es != [] {
      RunsKeepIds(es[..|es| - 1], timeout);
      EventKeepsIds(Exec(INITIAL, es[..|es| - 1], timeout), es[|es| - 1], timeout);
    }
  }

  // ----- Exclusion, slot by slot -----

  function RowAt(rows: Rows, slot: Slot): Option<Record> {
    if slot in rows then Some(rows[slot]) else None
  }

  /** A record is answered for good. */
  ghost predicate Holds(w: World, slot: Slot, hash: Hash, payload: Payload) {
    slot in w.rows && w.rows[slot].status == Completed(payload) && w.rows[slot].hash == hash
  }

  ghost predicate RequestOk(w: World, r: nat, timeout: int)
    requires r in w.requests
  {
    var me := w.requests[r];
    match me.pc
    case Looked(record) => record.status.Completed? ==> RowAt(w.rows, me.slot) == Some(record)
    case Reclaiming(staleBefore) => staleBefore <= w.now - timeout
    case Owner(id, grantedAt, _) => RowAt(w.rows, me.slot) == Some(Record(id, me.hash, InProgress, grantedAt))
    case Answering(payload) => Holds(w, me.slot, me.hash, payload)
    case Replied(payload) => Holds(w, me.slot, me.hash, payload)
    case _ => true
  }

  ghost predicate OwnerAt(w: World, r: nat, slot: Slot) {
    r in w.requests && w.requests[r].slot == slot && w.requests[r].pc.Owner?
  }

  ghost predicate Exclusive(w: World, timeout: int, slot: Slot) {
    && (forall r :: r in w.requests && w.requests[r].slot == slot ==> RequestOk(w, r, timeout))
    && (forall q, r :: OwnerAt(w, q, slot) && OwnerAt(w, r, slot) ==> q == r)
  }

  /** A completed record is never changed or removed. */
  ghost predicate KeepsCompleted(w: World, w': World, slot: Slot) {
    slot in w.rows && w.rows[slot].status.Completed? ==> RowAt(w'.rows, slot) == RowAt(w.rows, slot)
  }

  /** Nobody else owns the slot. */
  ghost predicate Alone(w: World, r: nat, slot: Slot) {
    forall q :: OwnerAt(w, q, slot) ==> q == r
  }

  /** A request for the slot moves on, perhaps writing its row: what that must respect. */
  ghost predicate Moves(w: World, w': World, r: nat, slot: Slot, timeout: int) {
    && w'.now == w.now && w'.requests.Keys == w.requests.Keys + {r} && w'.requests[r].slot == slot
    && (r in w.requests ==> w.requests[r].slot == slot)
    && (forall q :: q in w.requests && q != r ==> w'.requests[q] == w.requests[q])
    && (RowAt(w'.rows, slot) != RowAt(w.rows, slot) ==>
          (slot in w.rows ==> w.rows[slot].status.InProgress?) && Alone(w, r, slot))
    && (w'.requests[r].pc.Owner? ==> Alone(w, r, slot))
    && RequestOk(w', r, timeout)
  }

  lemma MoveKeepsExclusive(w: World, w': World, r: nat, slot: Slot, timeout: int)
    requires Exclusive(w, timeout, slot) && Moves(w, w', r, slot, timeout)
    ensures Exclusive(w', timeout, slot) && KeepsCompleted(w, w', slot)
  {
    forall q | q in w'.requests && w'.requests[q].slot == slot
      ensures RequestOk(w', q, timeout)
    {
      if q != r {
        assert RequestOk(w, q, timeout);
        assert w'.requests[q] == w.requests[q];
        assert OwnerAt(w, q, slot) ==> RowAt(w'.rows, slot) == RowAt(w.rows, slot);
      }
    }
    assert forall q :: q != r ==> (OwnerAt(w', q, slot) <==> OwnerAt(w, q, slot));
  }

  /** What happens under other keys is invisible here. */
  lemma ElsewhereKeepsExclusive(w: World, w': World, r: nat, slot: Slot, timeout: int)
    requires Exclusive(w, timeout, slot) && w'.now == w.now && RowAt(w'.rows, slot) == RowAt(w.rows, slot)
    requires w'.requests.Keys == w.requests.Keys + {r} && w'.requests[r].slot != slot
    requires r in w.requests ==> w.requests[r].slot != slot
    requires forall q :: q in w.requests && q != r ==> w'.requests[q] == w.requests[q]
    ensures Exclusive(w', timeout, slot) && KeepsCompleted(w, w', slot)
  {
    forall q | q in w'.requests && w'.requests[q].slot == slot
      ensures RequestOk(w', q, timeout)
    {
      assert RequestOk(w, q, timeout);
    }
    assert forall q :: OwnerAt(w', q, slot) <==> OwnerAt(w, q, slot);
  }

  /** A request writes no row but its own slot's. */
  lemma WritesOwnSlot(w: World, e: Event, timeout: int, slot: Slot)
    requires IdsOk(w) && Enabled(w, e) && !e.Tick? && !e.Arrive? && w.requests[e.r].slot != slot
    ensures RowAt(Next(w, e, timeout).rows, slot) == RowAt(w.rows, slot)
  {
    assert slot in w.rows ==> Refers(w, w.rows[slot].id, slot);
    assert w.requests[e.r].pc.Owner? ==> Refers(w, w.requests[e.r].pc.id, w.requests[e.r].slot);
  }

  lemma OtherSlotKeepsExclusive(w: World, e: Event, timeout: int, slot: Slot)
    requires Exclusive(w, timeout, slot) && IdsOk(w) && Enabled(w, e) && !e.Tick? && !e.Arrive?
    requires w.requests[e.r].slot != slot
    ensures Exclusive(Next(w, e, timeout), timeout, slot) && KeepsCompleted(w, Next(w, e, timeout), slot)
  {
    WritesOwnSlot(w, e, timeout, slot);
    RequestMoves(w, e, timeout);
    ElsewhereKeepsExclusive(w, Next(w, e, timeout), e.r, slot, timeout);
  }

  /** Only the acting request moves, within its slot. */
  lemma RequestMoves(w: World, e: Event, timeout: int)
    requires Enabled(w, e) && !e.Tick? && !e.Arrive?
    ensures var w' := Next(w, e, timeout);
      && e.r in w.requests && w'.now == w.now && w'.requests.Keys == w.requests.Keys
      && w'.requests[e.r].slot == w.requests[e.r].slot && w'.requests[e.r].hash == w.requests[e.r].hash
      && forall q :: q in w.requests && q != e.r ==> w'.requests[q] == w.requests[q]
  {
  }

  lemma ClaimMoves(w: World, r: nat, timeout: int)
    requires Enabled(w, Claim(r)) && Exclusive(w, timeout, w.requests[r].slot)
    ensures Moves(w, Claimed(w, r), r, w.requests[r].slot, timeout)
  {
    var slot := w.requests[r].slot;
    assert forall q :: OwnerAt(w, q, slot) ==> RequestOk(w, q, timeout);
  }

  /** A reclaim that takes the slot's record over while the request it was granted to is still running. */
  ghost predicate Contested(w: World, e: Event, slot: Slot)
    requires Enabled(w, e)
  {
    e.Reclaim?
    && var me := w.requests[e.r];
       me.slot == slot && Reclaimable(w.rows, slot, me.pc.staleBefore) && exists q :: OwnerAt(w, q, slot) && q != e.r
  }

  /** The lease: a stale record's former owner, were it still running, would have overrun its timeout. */
  lemma TimelyIsUncontested(w: World, e: Event, timeout: int, hold: int, slot: Slot)
    requires Exclusive(w, timeout, slot) && Timely(w, hold) && hold <= timeout && Enabled(w, e)
    ensures !Contested(w, e, slot)
  {
    assert e.Reclaim? && w.requests[e.r].slot == slot ==> RequestOk(w, e.r, timeout);
    assert forall q :: OwnerAt(w, q, slot) ==> RequestOk(w, q, timeout);
  }

  /** Taking over from a running owner is never harmless: there are two owners from then on. */
  lemma ContestedBreaksExclusion(w: World, e: Event, timeout: int, slot: Slot)
    requires Enabled(w, e) && Contested(w, e, slot)
    ensures !Exclusive(Next(w, e, timeout), timeout, slot)
  {
    var w' := Next(w, e, timeout);
    var q :| OwnerAt(w, q, slot) && q != e.r;
    assert OwnerAt(w', q, slot) && OwnerAt(w', e.r, slot);
  }

  lemma ReclaimMoves(w: World, r: nat, timeout: int)
    requires Enabled(w, Reclaim(r)) && Exclusive(w, timeout, w.requests[r].slot)
    requires !Contested(w, Reclaim(r), w.requests[r].slot)
    ensures Moves(w, Reclaimed(w, r), r, w.requests[r].slot, timeout)
  {
    assert RequestOk(w, r, timeout);
  }

  lemma FinishMoves(w: World, e: Event, timeout: int)
    requires (e.Complete? || e.Release?) && Enabled(w, e) && Exclusive(w, timeout, w.requests[e.r].slot)
    ensures Moves(w, Next(w, e, timeout), e.r, w.requests[e.r].slot, timeout)
  {
    var slot := w.requests[e.r].slot;
    assert RequestOk(w, e.r, timeout);
    assert OwnerAt(w, e.r, slot);
  }

  predicate IsLocal(e: Event) {
    e.Look? || e.Judge? || e.CreateIntent? || e.Answer? || e.Crash?
  }

  lemma LocalMoves(w: World, e: Event, timeout: int)
    requires IsLocal(e) && Enabled(w, e) && Exclusive(w, timeout, w.requests[e.r].slot)
    ensures Moves(w, Next(w, e, timeout), e.r, w.requests[e.r].slot, timeout)
  {
    assert RequestOk(w, e.r, timeout);
    RequestMoves(w, e, timeout);
    assert OwnerAt(w, e.r, w.requests[e.r].slot) || !Next(w, e, timeout).requests[e.r].pc.Owner?;
  }

  lemma OwnSlotMoves(w: World, e: Event, timeout: int)
    requires Enabled(w, e) && !e.Tick? && !e.Arrive? && Exclusive(w, timeout, w.requests[e.r].slot)
    requires !Contested(w, e, w.requests[e.r].slot)
    ensures Moves(w, Next(w, e, timeout), e.r, w.requests[e.r].slot, timeout)
  {
    if e.Claim? {
      ClaimMoves(w, e.r, timeout);
    } else if e.Reclaim? {
      ReclaimMoves(w, e.r, timeout);
    } else if IsLocal(e) {
      LocalMoves(w, e, timeout);
    } else {
      FinishMoves(w, e, timeout);
    }
  }

  lemma ArriveKeepsExclusive(w: World, r: nat, at: Slot, hash: Hash, timeout: int, slot: Slot)
    requires Exclusive(w, timeout, slot) && Enabled(w, Arrive(r, at, hash))
    ensures Exclusive(Next(w, Arrive(r, at, hash), timeout), timeout, slot)
  {
    var w' := Next(w, Arrive(r, at, hash), timeout);
    if at == slot {
      MoveKeepsExclusive(w, w', r, slot, timeout);
    } else {
      ElsewhereKeepsExclusive(w, w', r, slot, timeout);
    }
  }

  lemma TickKeepsExclusive(w: World, to: int, timeout: int, slot: Slot)
    requires Exclusive(w, timeout, slot) && w.now <= to
    ensures Exclusive(w.(now := to), timeout, slot)
  {
    var w' := w.(now := to);
    forall r | r in w'.requests && w'.requests[r].slot == slot
      ensures RequestOk(w', r, timeout)
    {
      assert RequestOk(w, r, timeout);
    }
    assert forall q :: OwnerAt(w', q, slot) <==> OwnerAt(w, q, slot);
  }

  lemma EventKeepsExclusive(w: World, e: Event, timeout: int, slot: Slot)
    requires Exclusive(w, timeout, slot) && IdsOk(w) && Enabled(w, e) && !Contested(w, e, slot)
    ensures Exclusive(Next(w, e, timeout), timeout, slot) && KeepsCompleted(w, Next(w, e, timeout), slot)
  {
    if e.Tick? {
      TickKeepsExclusive(w, e.to, timeout, slot);
    } else if e.Arrive? {
      ArriveKeepsExclusive(w, e.r, e.slot, e.hash, timeout, slot);
    } else if w.requests[e.r].slot != slot {
      OtherSlotKeepsExclusive(w, e, timeout, slot);
    } else {
      OwnSlotMoves(w, e, timeout);
      MoveKeepsExclusive(w, Next(w, e, timeout), e.r, slot, timeout);
    }
  }

  ghost predicate Uncontested(es: seq<Event>, timeout: int, slot: Slot)
    requires Possible(INITIAL, es, timeout)
    decreases |es|
  {
    es == []
    || (Uncontested(es[..|es| - 1], timeout, slot)
        && !Contested(Exec(INITIAL, es[..|es| - 1], timeout), es[|es| - 1], slot))
  }

  ghost predicate AlwaysExclusive(es: seq<Event>, timeout: int, slot: Slot)
    requires Possible(INITIAL, es, timeout)
    decreases |es|
  {
    Exclusive(Exec(INITIAL, es, timeout), timeout, slot)
    && (es != [] ==> AlwaysExclusive(es[..|es| - 1], timeout, slot))
  }

  /** With no timing assumption at all: ownership of a key stays exclusive throughout a run exactly when no reclaim of
      it takes over from a request that is still running. */
  lemma {:induction false} ExclusiveIffUncontested(es: seq<Event>, timeout: int, slot: Slot)
    requires Possible(INITIAL, es, timeout)
    ensures AlwaysExclusive(es, timeout, slot) <==> Uncontested(es, timeout, slot)
    decreases |es|
  {
    if es != [] {
      var w, e := Exec(INITIAL, es[..|es| - 1], timeout), es[|es| - 1];
      ExclusiveIffUncontested(es[..|es| - 1], timeout, slot);
      RunsKeepIds(es[..|es| - 1], timeout);
      if Exclusive(w, timeout, slot) && !Contested(w, e, slot) { EventKeepsExclusive(w, e, timeout, slot); }
      if Contested(w, e, slot) { ContestedBreaksExclusion(w, e, timeout, slot); }
    }
  }

  lemma {:induction false} TimelyRunsAreExclusive(es: seq<Event>, timeout: int, hold: int, slot: Slot)
    requires Possible(INITIAL, es, timeout) && TimelyRun(es, timeout, hold) && hold <= timeout
    ensures Exclusive(Exec(INITIAL, es, timeout), timeout, slot) && Uncontested(es, timeout, slot)
    decreases |es|
  {
    if es != [] {
      var w := Exec(INITIAL, es[..|es| - 1], timeout);
      TimelyRunsAreExclusive(es[..|es| - 1], timeout, hold, slot);
      TimelyNow(es[..|es| - 1], timeout, hold);
      RunsKeepIds(es[..|es| - 1], timeout);
      TimelyIsUncontested(w, es[|es| - 1], timeout, hold, slot);
      EventKeepsExclusive(w, es[|es| - 1], timeout, slot);
    }
  }

  lemma TimelyNow(es: seq<Event>, timeout: int, hold: int)
    requires Possible(INITIAL, es, timeout) && TimelyRun(es, timeout, hold)
    ensures Timely(Exec(INITIAL, es, timeout), hold)
  {
  }

  /** Exclusion: unless a reclaim of it takes over from a running owner, whatever happens under other keys, no slot has
      two owners, and every 201 ever sent for it, first answer or replay, carries the one stored payload and goes to a
      request with the record's own hash. */
  lemma OneOutcomePerKey(es: seq<Event>, timeout: int, slot: Slot, q: nat, r: nat)
    requires Possible(INITIAL, es, timeout) && Uncontested(es, timeout, slot)
    requires q in Exec(INITIAL, es, timeout).requests && r in Exec(INITIAL, es, timeout).requests
    requires Exec(INITIAL, es, timeout).requests[q].slot == slot == Exec(INITIAL, es, timeout).requests[r].slot
    ensures var w := Exec(INITIAL, es, timeout); var a, b := w.requests[q], w.requests[r];
      && (a.pc.Owner? && b.pc.Owner? ==> q == r)
      && (a.pc.Replied? ==> Holds(w, slot, a.hash, a.pc.payload))
      && (a.pc.Replied? && b.pc.Replied? ==> a.pc.payload == b.pc.payload && a.hash == b.hash)
  {
    ExclusiveIffUncontested(es, timeout, slot);
    var w := Exec(INITIAL, es, timeout);
    assert RequestOk(w, q, timeout) && RequestOk(w, r, timeout);
    assert w.requests[q].pc.Owner? && w.requests[r].pc.Owner? ==> OwnerAt(w, q, slot) && OwnerAt(w, r, slot);
  }

  /** A completed record stays as it is for the rest of the run. */
  lemma {:induction false} CompletedForGood(es: seq<Event>, m: nat, timeout: int, slot: Slot)
    requires Possible(INITIAL, es, timeout) && Uncontested(es, timeout, slot) && m <= |es|
    ensures Possible(INITIAL, es[..m], timeout)
    ensures KeepsCompleted(Exec(INITIAL, es[..m], timeout), Exec(INITIAL, es, timeout), slot)
    decreases |es|
  {
    if m == |es| {
      assert es[..m] == es;
    } else {
      var n := |es| - 1;
      assert es[..n][..m] == es[..m];
      CompletedForGood(es[..n], m, timeout, slot);
      ExclusiveIffUncontested(es[..n], timeout, slot);
      RunsKeepIds(es[..n], timeout);
      EventKeepsExclusive(Exec(INITIAL, es[..n], timeout), es[n], timeout, slot);
    }
  }
  // ----- A request that nobody disturbs -----

  lemma Further(w: World, es: seq<Event>, e: Event, timeout: int) returns (longer: seq<Event>)
    requires Possible(w, es, timeout) && Enabled(Exec(w, es, timeout), e)
    ensures Possible(w, longer, timeout) && Exec(w, longer, timeout) == Next(Exec(w, es, timeout), e, timeout)
  {
    longer := es + [e];
    assert longer[..|es|] == es;
  }

  /** The same world but for one more request. */
  ghost predicate Beside(w: World, w': World, r: nat, slot: Slot, hash: Hash, pc: Pc) {
    w'.now == w.now && w'.requests == w.requests[r := Request(slot, hash, pc)]
  }

  lemma ArrivesAndClaims(w: World, r: nat, slot: Slot, hash: Hash, timeout: int) returns (es: seq<Event>)
    requires r !in w.requests
    ensures Possible(w, es, timeout)
    ensures var w' := Exec(w, es, timeout);
      if slot in w.rows then Beside(w, w', r, slot, hash, Lost) && w'.rows == w.rows
      else
        && Beside(w, w', r, slot, hash, Owner(r, w.now, false))
        && w'.rows == w.rows[slot := Record(r, hash, InProgress, w.now)]
  {
    es := Further(w, [], Arrive(r, slot, hash), timeout);
    es := Further(w, es, Claim(r), timeout);
  }

  lemma LooksAndJudges(w: World, before: seq<Event>, r: nat, slot: Slot, hash: Hash, timeout: int)
    returns (es: seq<Event>)
    requires slot in w.rows && Possible(w, before, timeout)
    requires Beside(w, Exec(w, before, timeout), r, slot, hash, Lost) && Exec(w, before, timeout).rows == w.rows
    ensures Possible(w, es, timeout) && Exec(w, es, timeout).rows == w.rows
    ensures var seen := w.rows[slot];
      Beside(w, Exec(w, es, timeout), r, slot, hash,
             if seen.status.Completed? then if seen.hash == hash then Replied(seen.status.payload) else Refused
             else if seen.createdAt < w.now - timeout then Reclaiming(w.now - timeout)
             else Refused)
  {
    es := Further(w, before, Look(r), timeout);
    es := Further(w, es, Judge(r), timeout);
  }

  /** A request that runs undisturbed becomes the owner of a new record, is answered with the stored payload if it
      repeats a completed request, takes over a stale record, and is refused otherwise; what it leaves of the table in
      each case. */
  lemma AloneIsServed(w: World, r: nat, slot: Slot, hash: Hash, timeout: int) returns (es: seq<Event>)
    requires r !in w.requests
    ensures Possible(w, es, timeout)
    ensures var w' := Exec(w, es, timeout);
      if slot !in w.rows then
        && Beside(w, w', r, slot, hash, Owner(r, w.now, false))
        && w'.rows == w.rows[slot := Record(r, hash, InProgress, w.now)]
      else if w.rows[slot].status.Completed? then
        && Beside(w, w', r, slot, hash,
                  if w.rows[slot].hash == hash then Replied(w.rows[slot].status.payload) else Refused)
        && w'.rows == w.rows
      else if w.rows[slot].createdAt < w.now - timeout then
        && Beside(w, w', r, slot, hash, Owner(w.rows[slot].id, w.now, false))
        && w'.rows == w.rows[slot := Record(w.rows[slot].id, hash, InProgress, w.now)]
      else Beside(w, w', r, slot, hash, Refused) && w'.rows == w.rows
  {
    es := ArrivesAndClaims(w, r, slot, hash, timeout);
    if slot in w.rows {
      es := LooksAndJudges(w, es, r, slot, hash, timeout);
      if w.rows[slot].status.InProgress? && w.rows[slot].createdAt < w.now - timeout {
        es := Further(w, es, Reclaim(r), timeout);
      }
    }
  }
  /** An owner that crashes is replaced once the timeout has passed. */
  lemma CrashedOwnerIsReplaced(w: World, r: nat, q: nat, hash: Hash, timeout: int) returns (es: seq<Event>)
    requires r in w.requests && w.requests[r].pc.Owner? && q !in w.requests && 0 <= timeout
    requires var slot := w.requests[r].slot;
      slot in w.rows && w.rows[slot].status.InProgress? && w.rows[slot].createdAt <= w.now
    ensures Possible(w, es, timeout)
    ensures var slot, w' := w.requests[r].slot, Exec(w, es, timeout);
      && q in w'.requests && w'.requests[q] == Request(slot, hash, Owner(w.rows[slot].id, w.now + timeout + 1, false))
      && r in w'.requests && w'.requests[r].pc == Crashed
      && w'.rows == w.rows[slot := Record(w.rows[slot].id, hash, InProgress, w.now + timeout + 1)]
  {
    es := Further(w, [], Crash(r), timeout);
    es := Further(w, es, Tick(w.now + timeout + 1), timeout);
    var more := AloneIsServed(Exec(w, es, timeout), q, w.requests[r].slot, hash, timeout);
    OneAfterTheOther(w, es, more, timeout);
    es := es + more;
  }

  /** An owner that gives up leaves its key free for the next request, whatever that asks for. */
  lemma ReleasedKeyIsFree(w: World, r: nat, q: nat, hash: Hash, timeout: int) returns (es: seq<Event>)
    requires r in w.requests && w.requests[r].pc.Owner? && q !in w.requests
    requires RowAt(w.rows, w.requests[r].slot).Some? ==> w.rows[w.requests[r].slot].id == w.requests[r].pc.id
    ensures Possible(w, es, timeout)
    ensures var slot, w' := w.requests[r].slot, Exec(w, es, timeout);
      && q in w'.requests && w'.requests[q] == Request(slot, hash, Owner(q, w.now, false))
      && r in w'.requests && w'.requests[r].pc == Refused
      && RowAt(w'.rows, slot) == Some(Record(q, hash, InProgress, w.now))
  {
    es := Further(w, [], Release(r), timeout);
    var more := AloneIsServed(Exec(w, es, timeout), q, w.requests[r].slot, hash, timeout);
    OneAfterTheOther(w, es, more, timeout);
    es := es + more;
  }

  /** An undisturbed owner creates its intent and stores its payload under its record; it answers with it if the
      COMMIT is acknowledged, and with an error if it is not. */
  lemma OwnerAnswers(w: World, r: nat, payload: Payload, acknowledged: bool, timeout: int) returns (es: seq<Event>)
    requires r in w.requests && w.requests[r].pc.Owner? && !w.requests[r].pc.created
    ensures Possible(w, es, timeout)
    ensures var w' := Exec(w, es, timeout);
      && Beside(w, w', r, w.requests[r].slot, w.requests[r].hash, if acknowledged then Replied(payload) else Refused)
      && w'.rows.Keys == w.rows.Keys
      && forall s :: s in w.rows ==>
           w'.rows[s] ==
           if w.rows[s].id == w.requests[r].pc.id then w.rows[s].(status := Completed(payload)) else w.rows[s]
  {
    es := Further(w, [], CreateIntent(r), timeout);
    es := Further(w, es, Complete(r, payload, acknowledged), timeout);
    if acknowledged { es := Further(w, es, Answer(r), timeout); }
  }

  lemma {:induction false} OneAfterTheOther(w: World, a: seq<Event>, b: seq<Event>, timeout: int)
    requires Possible(w, a, timeout) && Possible(Exec(w, a, timeout), b, timeout)
    ensures Possible(w, a + b, timeout) && Exec(w, a + b, timeout) == Exec(Exec(w, a, timeout), b, timeout)
    decreases |b|
  {
    if b == [] {
      assert a + b == a;
    } else {
      OneAfterTheOther(w, a, b[..|b| - 1], timeout);
      assert (a + b)[..|a + b| - 1] == a + b[..|b| - 1];
    }
  }

  lemma FirstIsAnswered(
    w: World, r: nat, slot: Slot, hash: Hash, payload: Payload, acknowledged: bool, timeout: int)
    returns (es: seq<Event>)
    requires slot !in w.rows && r !in w.requests
    ensures Possible(w, es, timeout)
    ensures Beside(w, Exec(w, es, timeout), r, slot, hash, if acknowledged then Replied(payload) else Refused)
    ensures RowAt(Exec(w, es, timeout).rows, slot) == Some(Record(r, hash, Completed(payload), w.now))
  {
    es := AloneIsServed(w, r, slot, hash, timeout);
    var more := OwnerAnswers(Exec(w, es, timeout), r, payload, acknowledged, timeout);
    OneAfterTheOther(w, es, more, timeout);
    es := es + more;
  }

  /** The point of a key: the first request under it creates and answers, and the same request sent again afterwards
      gets that answer without creating anything, even if the first one had to answer with an error because it was not
      told that its payload was stored. */
  lemma RepeatGetsFirstAnswer(
    w: World, r: nat, q: nat, slot: Slot, hash: Hash, payload: Payload, acknowledged: bool, timeout: int)
    returns (es: seq<Event>)
    requires slot !in w.rows && r != q && r !in w.requests && q !in w.requests
    ensures Possible(w, es, timeout)
    ensures var w' := Exec(w, es, timeout);
      && w'.requests == w.requests[r := Request(slot, hash, if acknowledged then Replied(payload) else Refused)]
                                  [q := Request(slot, hash, Replied(payload))]
      && RowAt(w'.rows, slot) == Some(Record(r, hash, Completed(payload), w.now))
  {
    es := FirstIsAnswered(w, r, slot, hash, payload, acknowledged, timeout);
    var more := AloneIsServed(Exec(w, es, timeout), q, slot, hash, timeout);
    OneAfterTheOther(w, es, more, timeout);
    es := es + more;
  }
}
