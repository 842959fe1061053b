/** The reconciliation sweep: limited oldest-first batches, and how fast they drain the stuck intents. */
module Sweep {
  import opened Lifecycle
  import opened Ledger
  import opened Reconciliation

  /** One intent as the sweep selected it, and the time the loop reaches it. */
  datatype Candidate = Candidate(i: IntentId, row: Intent, at: int)

  function Stuck(db: Db, status: State, cutoff: int): set<IntentId> {
    set i | i in db.intents && db.intents[i].status == status && db.intents[i].updatedAt < cutoff
  }

  ghost function Ids(cs: seq<Candidate>): set<IntentId> {
    set c | c in cs :: c.i
  }

  /** What findStuckIntents may return: the oldest stuck intents first, at most 200 of them. */
  ghost predicate IsBatch(db: Db, status: State, cutoff: int, batch: seq<Candidate>) {
    var stuck := Stuck(db, status, cutoff);
    && (forall c :: c in batch ==> c.i in stuck && c.row == db.intents[c.i])
    && (forall a, b :: 0 <= a < b < |batch| ==>
          batch[a].i != batch[b].i && batch[a].row.updatedAt <= batch[b].row.updatedAt)
    && (forall i, c :: i in stuck && i !in Ids(batch) && c in batch ==> c.row.updatedAt <= db.intents[i].updatedAt)
    && |batch| == if |stuck| < BATCH then |stuck| else BATCH
  }

  /** Timeouts in milliseconds. */
  datatype Limits = Limits(pending: int, processing: int)

  /** One sweep: its start time and the two selections it works through. */
  datatype Round = Round(now: int, pending: seq<Candidate>, processing: seq<Candidate>)

  ghost predicate ValidRound(db: Db, limits: Limits, r: Round) {
    && IsBatch(db, PENDING, r.now - limits.pending, r.pending)
    && IsBatch(db, PROCESSING, r.now - limits.processing, r.processing)
    && forall c :: c in r.pending + r.processing ==> r.now <= c.at
  }

  /** The loop over the candidates. */
  function SweepAll(db: Db, view: View, cs: seq<Candidate>, limits: Limits): Db {
    if cs == [] then db
    else
      var c := cs[|cs| - 1];
      Reconcile(SweepAll(db, view, cs[..|cs| - 1], limits), view, c.i, c.row, c.at, limits.pending)
  }

  function RunRound(db: Db, view: View, limits: Limits, r: Round): Db {
    SweepAll(db, view, r.pending + r.processing, limits)
  }

  // ----- One intent -----

  /** The gateway's fixed view settles the intent: an accepted first capture, a failure, or no attempt at all. */
  predicate Resolvable(db: Db, view: View, i: IntentId)
    requires i in db.intents
  {
    match LatestOrder(db.orders, i)
    case None => false
    case Some(o) =>
      view(o).Some?
      && match PickAuthoritativeOutcome(view(o).value)
         case Success(f) => f.amount == db.intents[i].amount && f.currency == db.intents[i].currency
         case Failure(_) => true
         case Inconclusive(_) => false
         case NoAttempt => true
  }

  predicate Waiting(s: State) {
    s == PENDING || s == PROCESSING
  }

  /** This candidate will be resolved: its intent is resolvable, and not too recent if it comes to expiring it. */
  predicate Due(db: Db, view: View, limits: Limits, c: Candidate) {
    && c.i in db.intents && Resolvable(db, view, c.i)
    && ReconcileOutcome(db, view, c.i, c.row, c.at, limits.pending) != TooRecentToExpire
  }

  /** The store without its attempt rows. */
  function Books(db: Db): Db {
    db.(attempts := [])
  }

  lemma ReconcileTouchesOneIntent(db: Db, view: View, c: Candidate, limits: Limits)
    ensures var db' := Reconcile(db, view, c.i, c.row, c.at, limits.pending);
      && db'.intents.Keys == db.intents.Keys
      && db'.orders == db.orders
      && forall j :: j in db.intents && j != c.i ==> db'.intents[j] == db.intents[j]
  {
    match LatestOrder(db.orders, c.i)
    case None =>
    case Some(o) =>
      if view(o).Some? {
        match PickAuthoritativeOutcome(view(o).value)
        case Success(f) => ApplyTouchesOneIntent(db, c.i, f, c.at);
        case Failure(f) => ApplyTouchesOneIntent(db, c.i, f, c.at);
        case Inconclusive(_) =>
        case NoAttempt =>
      }
  }

  /** A due candidate leaves the waiting states, for FAILED, COMPLETED or EXPIRED. */
  lemma DueLeaves(db: Db, view: View, c: Candidate, limits: Limits)
    requires c.i in db.intents && Waiting(db.intents[c.i].status) && Due(db, view, limits, c)
    ensures var db' := Reconcile(db, view, c.i, c.row, c.at, limits.pending);
      c.i in db'.intents && db'.intents[c.i].status in {FAILED, COMPLETED, EXPIRED}
  {
    var payments := view(LatestOrder(db.orders, c.i).value).value;
    VerdictByStatus(payments);
    match PickAuthoritativeOutcome(payments)
    case Success(f) => ApplyRow(db, c.i, f, c.at);
    case Failure(f) => ApplyRow(db, c.i, f, c.at);
    case NoAttempt =>
  }

  /** Any other is left exactly as it was; only an attempt row may note a mismatch. */
  lemma OthersStay(db: Db, view: View, c: Candidate, limits: Limits)
    requires c.i in db.intents && !Due(db, view, limits, c)
    ensures Books(Reconcile(db, view, c.i, c.row, c.at, limits.pending)) == Books(db)
  {
    match LatestOrder(db.orders, c.i)
    case None =>
    case Some(o) =>
      if view(o).Some? { VerdictByStatus(view(o).value); }
  }

  /** Nothing selected as PENDING is too recent to expire, nor anything selected as PROCESSING if that timeout is no
      shorter. */
  lemma NeverTooRecent(db: Db, now: Db, view: View, limits: Limits, r: Round, c: Candidate)
    requires ValidRound(db, limits, r)
    requires c in r.pending || (c in r.processing && limits.pending <= limits.processing)
    ensures ReconcileOutcome(now, view, c.i, c.row, c.at, limits.pending) != TooRecentToExpire
  {
    assert c in r.pending + r.processing;
    if c in r.pending {
      assert c.i in Stuck(db, PENDING, r.now - limits.pending);
    } else {
      assert c.i in Stuck(db, PROCESSING, r.now - limits.processing);
    }
    assert limits.pending <= c.at - c.row.updatedAt;
  }

  /** What becomes of a candidate's row can be read off that row too. */
  lemma SameRowSameEffect(db: Db, mid: Db, view: View, limits: Limits, c: Candidate)
    requires mid.orders == db.orders && c.i in db.intents && c.i in mid.intents && mid.intents[c.i] == db.intents[c.i]
    ensures var db', mid' := Reconcile(db, view, c.i, c.row, c.at, limits.pending),
                             Reconcile(mid, view, c.i, c.row, c.at, limits.pending);
      c.i in db'.intents && c.i in mid'.intents && mid'.intents[c.i] == db'.intents[c.i]
  {
    match LatestOrder(db.orders, c.i)
    case None =>
    case Some(o) =>
      if view(o).Some? {
        var v := PickAuthoritativeOutcome(view(o).value);
        if v.Success? || v.Failure? {
          ApplyRow(db, c.i, v.f, c.at);
          ApplyRow(mid, c.i, v.f, c.at);
        }
      }
  }

  // ----- One sweep -----

  ghost predicate Distinct(cs: seq<Candidate>) {
    forall a, b :: 0 <= a < b < |cs| ==> cs[a].i != cs[b].i
  }

  ghost predicate Ready(db: Db, c: Candidate) {
    c.i in db.intents && Waiting(db.intents[c.i].status)
  }

  ghost function DueIds(db: Db, view: View, limits: Limits, cs: seq<Candidate>): set<IntentId> {
    set c | c in cs && Due(db, view, limits, c) :: c.i
  }

  /** Who was due has left the waiting states; everybody else's row is as it was. */
  ghost predicate Treated(db: Db, db': Db, due: set<IntentId>, i: IntentId) {
    && i in db.intents && i in db'.intents
    && if i in due then !Waiting(db'.intents[i].status) else db'.intents[i] == db.intents[i]
  }

  ghost predicate AllTreated(db: Db, db': Db, due: set<IntentId>) {
    && db'.intents.Keys == db.intents.Keys && db'.orders == db.orders
    && forall i :: i in db.intents ==> Treated(db, db', due, i)
  }

  /** The loop resolves every candidate that is due and changes nobody else's row. */
  lemma {:induction false} SweepEffect(db: Db, view: View, cs: seq<Candidate>, limits: Limits)
    requires Distinct(cs) && forall c :: c in cs ==> Ready(db, c)
    ensures AllTreated(db, SweepAll(db, view, cs, limits), DueIds(db, view, limits, cs))
    decreases |cs|
  {
    if cs != [] {
      var rest, c := cs[..|cs| - 1], cs[|cs| - 1];
      assert forall d :: d in rest ==> d in cs;
      SweepEffect(db, view, rest, limits);
      assert c in cs && Ready(db, c);
      NewcomerIsDue(db, view, limits, cs);
      SweepStep(db, view, SweepAll(db, view, rest, limits), c, limits, DueIds(db, view, limits, rest));
    }
  }

  lemma NewcomerId(cs: seq<Candidate>)
    requires Distinct(cs) && cs != []
    ensures cs[|cs| - 1].i !in Ids(cs[..|cs| - 1])
    ensures Ids(cs) == Ids(cs[..|cs| - 1]) + {cs[|cs| - 1].i}
  {
  }

  lemma NewcomerIsDue(db: Db, view: View, limits: Limits, cs: seq<Candidate>)
    requires Distinct(cs) && cs != []
    ensures var rest, c := DueIds(db, view, limits, cs[..|cs| - 1]), cs[|cs| - 1];
      c.i !in rest && DueIds(db, view, limits, cs) == rest + if Due(db, view, limits, c) then {c.i} else {}
  {
    assert cs == cs[..|cs| - 1] + [cs[|cs| - 1]];
  }

  /** What a candidate is due for can be read off its own row. */
  lemma SameRowSameDue(db: Db, mid: Db, view: View, limits: Limits, c: Candidate)
    requires mid.orders == db.orders && c.i in db.intents && c.i in mid.intents && mid.intents[c.i] == db.intents[c.i]
    ensures Due(mid, view, limits, c) <==> Due(db, view, limits, c)
  {
  }

  lemma SweepStep(db: Db, view: View, mid: Db, c: Candidate, limits: Limits, due: set<IntentId>)
    requires Ready(db, c) && c.i !in due && AllTreated(db, mid, due)
    ensures AllTreated(db, Reconcile(mid, view, c.i, c.row, c.at, limits.pending),
                       due + if Due(db, view, limits, c) then {c.i} else {})
  {
    var db' := Reconcile(mid, view, c.i, c.row, c.at, limits.pending);
    assert Treated(db, mid, due, c.i);
    SameRowSameDue(db, mid, view, limits, c);
    ReconcileTouchesOneIntent(mid, view, c, limits);
    if Due(db, view, limits, c) {
      DueLeaves(mid, view, c, limits);
    } else {
      OthersStay(mid, view, c, limits);
      assert db'.intents == Books(db').intents == Books(mid).intents == mid.intents;
    }
    assert forall i :: i in db.intents ==> Treated(db, mid, due, i);
  }

  /** Its row is what reconciling it first would have made of it. */
  ghost predicate AsIfFirst(db: Db, db': Db, view: View, c: Candidate, limits: Limits) {
    var alone := Reconcile(db, view, c.i, c.row, c.at, limits.pending);
    c.i in db'.intents && c.i in alone.intents && db'.intents[c.i] == alone.intents[c.i]
  }

  lemma LastRow(db: Db, mid: Db, view: View, c: Candidate, limits: Limits, due: set<IntentId>)
    requires Ready(db, c) && c.i !in due && AllTreated(db, mid, due)
    ensures AsIfFirst(db, Reconcile(mid, view, c.i, c.row, c.at, limits.pending), view, c, limits)
  {
    assert Treated(db, mid, due, c.i);
    SameRowSameEffect(db, mid, view, limits, c);
  }

  lemma EarlierRow(db: Db, mid: Db, view: View, earlier: Candidate, c: Candidate, limits: Limits)
    requires AsIfFirst(db, mid, view, earlier, limits) && earlier.i != c.i
    ensures AsIfFirst(db, Reconcile(mid, view, c.i, c.row, c.at, limits.pending), view, earlier, limits)
  {
    ReconcileTouchesOneIntent(mid, view, c, limits);
  }

  /** The loop does to each candidate's row what reconciling it first would have done. */
  lemma {:induction false} SweepRow(db: Db, view: View, cs: seq<Candidate>, limits: Limits, k: nat)
    requires k < |cs| && Distinct(cs) && forall c :: c in cs ==> Ready(db, c)
    ensures AsIfFirst(db, SweepAll(db, view, cs, limits), view, cs[k], limits)
    decreases |cs|
  {
    var n := |cs| - 1;
    assert forall d :: d in cs[..n] ==> d in cs;
    assert cs[n] in cs && Ready(db, cs[n]);
    if k < n {
      SweepRow(db, view, cs[..n], limits, k);
      EarlierRow(db, SweepAll(db, view, cs[..n], limits), view, cs[k], cs[n], limits);
    } else {
      SweepEffect(db, view, cs[..n], limits);
      NewcomerIsDue(db, view, limits, cs);
      LastRow(db, SweepAll(db, view, cs[..n], limits), view, cs[n], limits, DueIds(db, view, limits, cs[..n]));
    }
  }

  /** The intents in one waiting status that the gateway's view settles, and those it does not. */
  ghost function Open(db: Db, view: View, status: State): set<IntentId> {
    set i | i in db.intents && db.intents[i].status == status && Resolvable(db, view, i)
  }

  ghost function Blocked(db: Db, view: View, status: State): set<IntentId> {
    set i | i in db.intents && db.intents[i].status == status && !Resolvable(db, view, i)
  }

  lemma RoundIsReady(db: Db, limits: Limits, r: Round)
    requires ValidRound(db, limits, r)
    ensures Distinct(r.pending + r.processing)
    ensures forall c :: c in r.pending + r.processing ==> Ready(db, c)
  {
    BatchIsReady(db, PENDING, r.now - limits.pending, r.pending);
    BatchIsReady(db, PROCESSING, r.now - limits.processing, r.processing);
    DistinctApart(r.pending, r.processing);
  }

  lemma BatchIsReady(db: Db, status: State, cutoff: int, batch: seq<Candidate>)
    requires Waiting(status) && IsBatch(db, status, cutoff, batch)
    ensures Distinct(batch)
    ensures forall c :: c in batch ==> Ready(db, c) && db.intents[c.i].status == status
  {
  }

  lemma DistinctApart(xs: seq<Candidate>, ys: seq<Candidate>)
    requires Distinct(xs) && Distinct(ys) && forall x, y :: x in xs && y in ys ==> x.i != y.i
    ensures Distinct(xs + ys)
  {
  }

  lemma {:induction false} IdsCount(cs: seq<Candidate>)
    requires Distinct(cs)
    ensures |Ids(cs)| == |cs|
    decreases |cs|
  {
    if cs != [] {
      var rest, c := cs[..|cs| - 1], cs[|cs| - 1];
      IdsCount(rest);
      NewcomerId(cs);
    } else {
      assert Ids(cs) == {};
    }
  }

  function BatchOf(r: Round, status: State): seq<Candidate> {
    if status == PENDING then r.pending else r.processing
  }

  function CutoffOf(limits: Limits, r: Round, status: State): int {
    r.now - if status == PENDING then limits.pending else limits.processing
  }

  /** Everything in this status is stuck, so the selection is a closed one. */
  ghost predicate AllStuck(db: Db, status: State, cutoff: int) {
    forall i :: i in db.intents && db.intents[i].status == status ==> db.intents[i].updatedAt < cutoff
  }

  /** Counting: a full selection from both kinds takes at least its size minus the blocked ones from the open. */
  lemma Room<T>(open: set<T>, blocked: set<T>, ids: set<T>, cap: nat)
    requires open !! blocked && ids <= open + blocked
    requires |ids| == if |open + blocked| < cap then |open + blocked| else cap
    ensures Shrunk(open, open - ids, cap - |blocked|)
  {
    assert ids == (ids * open) + (ids * blocked);
    assert |ids| == |ids * open| + |ids * blocked|;
    Subset(ids * blocked, blocked);
    assert open == (open - ids) + (ids * open);
    assert |open| == |open - ids| + |ids * open|;
    if |open + blocked| < cap {
      SameSize(ids, open + blocked);
      assert open - ids == {};
    }
  }

  /** A batch of 200 holds at most the blocked intents and otherwise resolvable ones. */
  lemma BatchMakesRoom(db: Db, view: View, status: State, cutoff: int, batch: seq<Candidate>)
    requires AllStuck(db, status, cutoff) && IsBatch(db, status, cutoff, batch)
    ensures Shrunk(Open(db, view, status), Open(db, view, status) - Ids(batch), BATCH - |Blocked(db, view, status)|)
  {
    assert Stuck(db, status, cutoff) == Open(db, view, status) + Blocked(db, view, status);
    assert Distinct(batch);
    IdsCount(batch);
    Room(Open(db, view, status), Blocked(db, view, status), Ids(batch), BATCH);
  }

  lemma Subset<T>(a: set<T>, b: set<T>)
    requires a <= b
    ensures |a| <= |b|
  {
    assert b == a + (b - a);
  }

  lemma SameSize<T>(a: set<T>, b: set<T>)
    requires a <= b && |a| == |b|
    ensures a == b
  {
    assert b == a + (b - a);
    assert |b| == |a| + |b - a|;
  }

  /** What a sweep over some candidates does to one waiting status: blocked intents stay, open ones only leave. */
  ghost predicate Sorted(db: Db, db': Db, view: View, status: State, ids: set<IntentId>) {
    && Blocked(db', view, status) == Blocked(db, view, status)
    && Open(db', view, status) <= Open(db, view, status) - ids
    && forall i :: i in db'.intents && db'.intents[i].status == status ==>
         i in db.intents && db'.intents[i] == db.intents[i]
  }

  lemma TreatedIsSorted(db: Db, db': Db, view: View, status: State, due: set<IntentId>, ids: set<IntentId>)
    requires Waiting(status) && AllTreated(db, db', due)
    requires forall i :: i in ids && i in db.intents && Resolvable(db, view, i) ==> i in due
    requires forall i :: i in due ==> i in db.intents && Resolvable(db, view, i)
    ensures Sorted(db, db', view, status, ids)
  {
    forall i | i in db.intents
      ensures db'.intents[i].status == status ==> db'.intents[i] == db.intents[i]
      ensures i in Blocked(db', view, status) <==> i in Blocked(db, view, status)
      ensures i in Open(db', view, status) ==> i in Open(db, view, status) - ids
    {
      assert Treated(db, db', due, i);
    }
  }

  /** Selected as PENDING, or as PROCESSING under a timeout no shorter, every resolvable candidate is due. */
  predicate Patient(limits: Limits, status: State) {
    status == PENDING || (status == PROCESSING && limits.pending <= limits.processing)
  }

  lemma BatchIsDue(db: Db, view: View, limits: Limits, r: Round, status: State)
    requires Patient(limits, status) && ValidRound(db, limits, r)
    ensures forall i :: i in Ids(BatchOf(r, status)) && i in db.intents && Resolvable(db, view, i) ==>
              i in DueIds(db, view, limits, r.pending + r.processing)
    ensures forall i :: i in DueIds(db, view, limits, r.pending + r.processing) ==>
              i in db.intents && Resolvable(db, view, i)
  {
    forall c | c in BatchOf(r, status) && c.i in db.intents && Resolvable(db, view, c.i)
      ensures c.i in DueIds(db, view, limits, r.pending + r.processing)
    {
      NeverTooRecent(db, db, view, limits, r, c);
      assert c in r.pending + r.processing && Due(db, view, limits, c);
    }
  }

  lemma RoundSorts(db: Db, view: View, limits: Limits, r: Round, status: State)
    requires Patient(limits, status) && ValidRound(db, limits, r)
    ensures Sorted(db, RunRound(db, view, limits, r), view, status, Ids(BatchOf(r, status)))
  {
    var cs := r.pending + r.processing;
    RoundIsReady(db, limits, r);
    SweepEffect(db, view, cs, limits);
    BatchIsDue(db, view, limits, r, status);
    TreatedIsSorted(
      db, RunRound(db, view, limits, r), view, status, DueIds(db, view, limits, cs), Ids(BatchOf(r, status)));
  }

  /** A set that shrank by at least so much, or all the way. */
  ghost predicate Shrunk<T>(before: set<T>, after: set<T>, room: int) {
    after == {} || |after| + room <= |before|
  }

  lemma ShrunkFurther<T>(before: set<T>, middle: set<T>, after: set<T>, room: int)
    requires after <= middle && Shrunk(before, middle, room)
    ensures Shrunk(before, after, room)
  {
    Subset(after, middle);
  }

  lemma BatchOfRound(db: Db, limits: Limits, r: Round, status: State)
    requires Waiting(status) && ValidRound(db, limits, r)
    ensures IsBatch(db, status, CutoffOf(limits, r, status), BatchOf(r, status))
  {
    if status == PENDING {
      assert CutoffOf(limits, r, status) == r.now - limits.pending && BatchOf(r, status) == r.pending;
    } else {
      assert CutoffOf(limits, r, status) == r.now - limits.processing && BatchOf(r, status) == r.processing;
    }
  }

  /** One sweep: the open intents shrink by at least 200 minus the blocked. */
  lemma RoundDrains(db: Db, view: View, limits: Limits, r: Round, status: State)
    requires Patient(limits, status) && ValidRound(db, limits, r)
    requires AllStuck(db, status, CutoffOf(limits, r, status))
    ensures Shrunk(Open(db, view, status), Open(RunRound(db, view, limits, r), view, status),
                   200 - |Blocked(db, view, status)|)
  {
    RoundSorts(db, view, limits, r, status);
    BatchOfRound(db, limits, r, status);
    BatchMakesRoom(db, view, status, CutoffOf(limits, r, status), BatchOf(r, status));
    ShrunkFurther(
      Open(db, view, status), Open(db, view, status) - Ids(BatchOf(r, status)),
      Open(RunRound(db, view, limits, r), view, status), BATCH - |Blocked(db, view, status)|);
  }

  // ----- Many sweeps -----

  /** The stores before, between and after successive sweeps. */
  ghost predicate Sweeps(dbs: seq<Db>, view: View, limits: Limits, rs: seq<Round>, start: int) {
    |dbs| == |rs| + 1 && forall k :: 0 <= k < |rs| ==> SweepAt(dbs, view, limits, rs, start, k)
  }

  ghost predicate SweepAt(dbs: seq<Db>, view: View, limits: Limits, rs: seq<Round>, start: int, k: nat)
    requires |dbs| == |rs| + 1 && k < |rs|
  {
    start <= rs[k].now && ValidRound(dbs[k], limits, rs[k]) && dbs[k + 1] == RunRound(dbs[k], view, limits, rs[k])
  }

  function FirstCutoff(limits: Limits, status: State, start: int): int {
    start - if status == PENDING then limits.pending else limits.processing
  }

  /** n times room, added up round by round. */
  function Times(n: nat, room: int): int {
    if n == 0 then 0 else Times(n - 1, room) + room
  }

  lemma {:induction false} TimesIs(n: nat, room: int)
    ensures Times(n, room) == n * room
  {
    if n > 0 { TimesIs(n - 1, room); }
  }

  /** Still closed, and smaller: what holds after so many rounds that each made so much room. */
  ghost predicate Drained(db: Db, db': Db, view: View, status: State, cutoff: int, rounds: nat, room: int) {
    && Blocked(db', view, status) == Blocked(db, view, status)
    && Open(db', view, status) <= Open(db, view, status)
    && Shrunk(Open(db, view, status), Open(db', view, status), Times(rounds, room))
    && AllStuck(db', status, cutoff)
  }

  /** What a batch can do beside the blocked intents it may hold. */
  function RoomOf(blocked: set<IntentId>): int {
    BATCH - |blocked|
  }

  lemma RoundGoesOn(db: Db, view: View, limits: Limits, r: Round, status: State, start: int)
    requires Patient(limits, status) && ValidRound(db, limits, r) && start <= r.now
    requires AllStuck(db, status, FirstCutoff(limits, status, start))
    ensures Drained(db, RunRound(db, view, limits, r), view, status, FirstCutoff(limits, status, start),
                    1, RoomOf(Blocked(db, view, status)))
  {
    RoundSorts(db, view, limits, r, status);
    RoundDrains(db, view, limits, r, status);
  }

  lemma DrainedOn(a: Db, b: Db, c: Db, view: View, status: State, cutoff: int, n: nat, room: nat)
    requires Drained(a, b, view, status, cutoff, n, room) && Drained(b, c, view, status, cutoff, 1, room)
    ensures Drained(a, c, view, status, cutoff, n + 1, room)
  {
    ShrunkAgain(Open(a, view, status), Open(b, view, status), Open(c, view, status), n, room);
  }

  lemma OneRoundMore(
    db: Db, mid: Db, view: View, limits: Limits, r: Round, status: State, start: int, n: nat, room: nat)
    requires Patient(limits, status) && ValidRound(mid, limits, r) && start <= r.now
    requires room == RoomOf(Blocked(db, view, status))
    requires Drained(db, mid, view, status, FirstCutoff(limits, status, start), n, room)
    ensures Drained(db, RunRound(mid, view, limits, r), view, status, FirstCutoff(limits, status, start), n + 1, room)
  {
    RoundGoesOn(mid, view, limits, r, status, start);
    DrainedOn(db, mid, RunRound(mid, view, limits, r), view, status, FirstCutoff(limits, status, start), n, room);
  }

  lemma NotYetDrained(db: Db, view: View, status: State, cutoff: int, room: nat)
    requires AllStuck(db, status, cutoff)
    ensures Drained(db, db, view, status, cutoff, 0, room)
  {
  }

  lemma {:induction false} RoundsShrink(
    dbs: seq<Db>, view: View, limits: Limits, rs: seq<Round>, status: State, start: int, room: nat, k: nat)
    requires Patient(limits, status) && Sweeps(dbs, view, limits, rs, start) && k <= |rs|
    requires AllStuck(dbs[0], status, FirstCutoff(limits, status, start))
    requires room == RoomOf(Blocked(dbs[0], view, status))
    ensures Drained(dbs[0], dbs[k], view, status, FirstCutoff(limits, status, start), k, room)
  {
    if k == 0 {
      NotYetDrained(dbs[0], view, status, FirstCutoff(limits, status, start), room);
    } else {
      RoundsShrink(dbs, view, limits, rs, status, start, room, k - 1);
      assert SweepAt(dbs, view, limits, rs, start, k - 1);
      OneRoundMore(dbs[0], dbs[k - 1], view, limits, rs[k - 1], status, start, k - 1, room);
    }
  }

  lemma DrainedIsEmpty(db: Db, db': Db, view: View, status: State, cutoff: int, rounds: nat, room: int)
    requires Drained(db, db', view, status, cutoff, rounds, room) && rounds * room >= |Open(db, view, status)|
    ensures Open(db', view, status) == {} && Blocked(db', view, status) == Blocked(db, view, status)
  {
    TimesIs(rounds, room);
    ShrunkAway(Open(db, view, status), Open(db', view, status), Times(rounds, room));
  }

  lemma ShrunkAgain<T>(before: set<T>, middle: set<T>, after: set<T>, n: nat, room: nat)
    requires Shrunk(before, middle, Times(n, room)) && Shrunk(middle, after, Times(1, room)) && after <= middle
    ensures Shrunk(before, after, Times(n + 1, room))
  {
    assert Times(1, room) == Times(0, room) + room;
  }

  /** Drain bound: with U unresolvable intents in a status, U < 200, and R resolvable ones, ceil(R / (200 - U)) sweeps
      (the least n with n * (200 - U) >= R) resolve all R, whatever else the sweeps handle. */
  lemma SweepsDrain(dbs: seq<Db>, view: View, limits: Limits, rs: seq<Round>, status: State, start: int)
    requires Patient(limits, status) && Sweeps(dbs, view, limits, rs, start)
    requires AllStuck(dbs[0], status, FirstCutoff(limits, status, start))
    requires |Blocked(dbs[0], view, status)| < 200
    requires |rs| * (200 - |Blocked(dbs[0], view, status)|) >= |Open(dbs[0], view, status)|
    ensures Open(dbs[|rs|], view, status) == {}
    ensures Blocked(dbs[|rs|], view, status) == Blocked(dbs[0], view, status)
  {
    var room := RoomOf(Blocked(dbs[0], view, status));
    RoundsShrink(dbs, view, limits, rs, status, start, room, |rs|);
    DrainedIsEmpty(dbs[0], dbs[|rs|], view, status, FirstCutoff(limits, status, start), |rs|, room);
  }

  lemma ShrunkAway<T>(before: set<T>, after: set<T>, room: int)
    requires room >= |before| && Shrunk(before, after, room)
    ensures after == {}
  {
  }

  /** Once drained, a sweep changes no status, order, transaction or history row, whatever the timeouts. */
  lemma DrainedSweepIsQuiet(db: Db, view: View, limits: Limits, r: Round)
    requires ValidRound(db, limits, r)
    requires Open(db, view, PENDING) == {} && Open(db, view, PROCESSING) == {}
    ensures Books(RunRound(db, view, limits, r)) == Books(db)
  {
    RoundIsReady(db, limits, r);
    forall c | c in r.pending + r.processing
      ensures c.i in db.intents && !Resolvable(db, view, c.i)
    {
      assert Ready(db, c);
      assert c.i !in Open(db, view, PENDING) && c.i !in Open(db, view, PROCESSING);
    }
    QuietSweep(db, view, r.pending + r.processing, limits);
  }

  lemma {:induction false} QuietSweep(db: Db, view: View, cs: seq<Candidate>, limits: Limits)
    requires forall c :: c in cs ==> c.i in db.intents && !Resolvable(db, view, c.i)
    ensures Books(SweepAll(db, view, cs, limits)) == Books(db)
    decreases |cs|
  {
    if cs != [] {
      var rest, c := cs[..|cs| - 1], cs[|cs| - 1];
      assert c in cs && forall d :: d in rest ==> d in cs;
      QuietSweep(db, view, rest, limits);
      var mid := SweepAll(db, view, rest, limits);
      assert mid.intents == Books(mid).intents == Books(db).intents;
      assert mid.orders == Books(mid).orders == Books(db).orders;
      OthersStay(mid, view, c, limits);
    }
  }
}
