/** Optional values, used where the source returns null or leaves a field unset. */
module Options {
  datatype Option<+T> = None | Some(value: T)
}

/** The payment lifecycle: states, the transition table and the mapping of gateway statuses. */
module Lifecycle {
  import opened Options

  datatype State = CREATED | PENDING | PROCESSING | SUCCEEDED | FAILED | CANCELLED | EXPIRED | COMPLETED

  predicate IsTerminal(s: State) {
    s in {CANCELLED, EXPIRED, COMPLETED}
  }

  function Transitions(from: State): set<State> {
    match from
    case CREATED => {PENDING}
    case PENDING => {PROCESSING, CANCELLED, EXPIRED, SUCCEEDED, FAILED}
    case PROCESSING => {SUCCEEDED, FAILED, EXPIRED}
    case SUCCEEDED => {COMPLETED}
    case FAILED => {SUCCEEDED}
    case CANCELLED => {}
    case EXPIRED => {}
    case COMPLETED => {}
  }

  predicate CanTransition(from: State, to: State) {
    from != to && to in Transitions(from)
  }

  /** What assertValidTransition accepts without throwing. */
  predicate ValidTransition(from: State, to: State) {
    !IsTerminal(from) && CanTransition(from, to)
  }

  /** Gateway payment statuses after normalisation; any other upper-cased string is `Other`. */
  datatype GatewayStatus = Created | Authorized | Captured | Failed | Refunded | Other(name: string)

  function TargetState(g: GatewayStatus): Option<State> {
    match g
    case Authorized => Some(PROCESSING)
    case Captured => Some(SUCCEEDED)
    case Failed => Some(FAILED)
    case Created => None
    case Refunded => None
    case Other(_) => None
  }

  /** The states an intent can show between transactions. */
  predicate Live(s: State) {
    s in {PENDING, PROCESSING, FAILED, COMPLETED, EXPIRED}
  }

  /** Height in the transition graph; every edge climbs. */
  function Height(s: State): nat {
    match s
    case CREATED => 0
    case PENDING => 1
    case PROCESSING => 2
    case FAILED => 3
    case SUCCEEDED => 4
    case COMPLETED => 5
    case EXPIRED => 5
    case CANCELLED => 5
  }

  /** Position on the ladder of committed states: PENDING < PROCESSING < FAILED < COMPLETED; EXPIRED is final too. */
  function Rank(s: State): nat {
    match s
    case PROCESSING => 1
    case FAILED => 2
    case COMPLETED => 3
    case EXPIRED => 3
    case CREATED => 0
    case PENDING => 0
    case SUCCEEDED => 3
    case CANCELLED => 3
  }

  /** The table is acyclic, and exactly the terminal states have no outgoing edge, so the
      terminal check inside assertValidTransition never rejects anything the table allows. */
  lemma TransitionTable(from: State, to: State)
    ensures CanTransition(from, to) ==> Height(from) < Height(to)
    ensures ValidTransition(from, to) <==> CanTransition(from, to)
    ensures IsTerminal(from) <==> forall t :: !CanTransition(from, t)
  {
    if !IsTerminal(from) {
      var next := if from == CREATED then PENDING else if from == SUCCEEDED then COMPLETED else SUCCEEDED;
      assert CanTransition(from, next);
    }
  }

  /** A status history: starts at creation, follows table edges, each row taking up where the last one ended. */
  datatype Change = Change(from: Option<State>, to: State)

  ghost predicate Chain(h: seq<Change>) {
    |h| > 0
    && h[0] == Change(None, CREATED)
    && forall k :: 0 < k < |h| ==> h[k].from == Some(h[k - 1].to) && CanTransition(h[k - 1].to, h[k].to)
  }

  /** Acyclicity bounds every history: at most six rows. */
  lemma {:induction false} ChainIsShort(h: seq<Change>)
    requires Chain(h)
    ensures |h| <= Height(h[|h| - 1].to) + 1 <= 6
    decreases |h|
  {
    if |h| > 1 {
      var rest := h[..|h| - 1];
      ChainIsShort(rest);
      assert CanTransition(h[|h| - 2].to, h[|h| - 1].to);
      TransitionTable(h[|h| - 2].to, h[|h| - 1].to);
    }
  }

  /** A history ending in a terminal state cannot be extended. */
  lemma ChainEndsAtTerminal(h: seq<Change>, c: Change)
    requires Chain(h) && Chain(h + [c])
    ensures !IsTerminal(h[|h| - 1].to)
  {
    var g := h + [c];
    assert g[|h|] == c && g[|h| - 1] == h[|h| - 1];
    assert CanTransition(g[|h| - 1].to, g[|h|].to);
    TransitionTable(h[|h| - 1].to, c.to);
  }
}
