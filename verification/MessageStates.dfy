/** The message state machines: the legal edges, the store's transition rule, and the walk
    the publisher makes along the outgoing path. */
module MessageStates {
  import opened Options

  datatype Direction = Outgoing | Incoming

  datatype State =
    | Draft | Queued | Encrypting | BuildingTransaction | AwaitingSignature | Submitting
    | Pending | Committed | AvailableOnChain | DownloadedByRecipient | Acknowledged
    | ReclaimQueued | ReclaimPending | Reclaimed | Expired | Failed
    | Discovered | Downloading | Decrypting | Received | Displayed | ResponseQueued
    | ResponseSent | AwaitingRemoteReclaim | RemoteReclaimed | Invalid

  function OutgoingEdges(from: State): set<State> {
    match from
    case Draft => {Queued, Failed}
    case Queued => {Encrypting, Failed, Expired}
    case Encrypting => {BuildingTransaction, Failed}
    case BuildingTransaction => {AwaitingSignature, Failed}
    case AwaitingSignature => {Submitting, Failed}
    case Submitting => {Pending, Failed}
    case Pending => {Committed, Failed, Expired}
    case Committed => {AvailableOnChain, Failed}
    case AvailableOnChain => {DownloadedByRecipient, Failed}
    case DownloadedByRecipient => {Acknowledged, Failed}
    case Acknowledged => {ReclaimQueued, Failed}
    case ReclaimQueued => {ReclaimPending, Failed}
    case ReclaimPending => {Reclaimed, ReclaimQueued, Failed}
    case Failed => {Queued}
    case _ => {}
  }

  function IncomingEdges(from: State): set<State> {
    match from
    case Discovered => {Downloading, Invalid}
    case Downloading => {Decrypting, Invalid}
    case Decrypting => {Received, Invalid}
    case Received => {Displayed, Invalid}
    case Displayed => {ResponseQueued, Invalid}
    case ResponseQueued => {ResponseSent, Invalid}
    case ResponseSent => {AwaitingRemoteReclaim, Invalid}
    case AwaitingRemoteReclaim => {RemoteReclaimed, Invalid}
    case _ => {}
  }

  predicate CanTransition(d: Direction, from: State, to: State) {
    to in (if d.Outgoing? then OutgoingEdges(from) else IncomingEdges(from))
  }

  /** What the store does with a transition request: the current state again is a no-op,
      a legal edge is taken, anything else throws (None). */
  function Transition(d: Direction, from: State, to: State): Option<State> {
    if from == to || CanTransition(d, from, to) then Some(to) else None
  }

  /** A row walked through a list of requests; None as soon as one of them throws. */
  function TransitionAll(d: Direction, from: State, requests: seq<State>): Option<State>
    decreases |requests|
  {
    if requests == [] then Some(from)
    else
      match Transition(d, from, requests[0])
      case None => None
      case Some(next) => TransitionAll(d, next, requests[1..])
  }

  // ---------------------------------------------------------------- milestones

  /** Position on the outgoing main line; the two side states count as its beginning. */
  function Rank(s: State): nat {
    match s
    case Draft => 0 case Queued => 1 case Encrypting => 2 case BuildingTransaction => 3
    case AwaitingSignature => 4 case Submitting => 5 case Pending => 6 case Committed => 7
    case AvailableOnChain => 8 case DownloadedByRecipient => 9 case Acknowledged => 10
    case ReclaimQueued => 11 case ReclaimPending => 12 case Reclaimed => 13
    case _ => 0
  }

  /** Position on the incoming line, from one; 0 for states off it. */
  function IncomingRank(s: State): nat {
    match s
    case Discovered => 1 case Downloading => 2 case Decrypting => 3 case Received => 4 case Displayed => 5
    case ResponseQueued => 6 case ResponseSent => 7 case AwaitingRemoteReclaim => 8 case RemoteReclaimed => 9
    case _ => 0
  }

  predicate OnOutgoingLine(s: State) {
    s == Draft || Rank(s) > 0
  }

  /** The pattern of the outgoing edges. */
  predicate OutgoingStep(from: State, to: State) {
    || (OnOutgoingLine(from) && Rank(to) == Rank(from) + 1)
    || (OnOutgoingLine(from) && from != Reclaimed && to == Failed)
    || ((from == Queued || from == Pending) && to == Expired)
    || (from == ReclaimPending && to == ReclaimQueued) || (from == Failed && to == Queued)
  }

  lemma EarlyEdges(from: State, to: State)
    requires OnOutgoingLine(from) && OnOutgoingLine(to) && Rank(from) < Rank(BuildingTransaction)
    ensures CanTransition(Outgoing, from, to) <==> OutgoingStep(from, to)
  {
    match from {
      case Draft =>
      case Queued =>
      case Encrypting =>
    }
  }

  lemma EdgesOntoTheLine(from: State, to: State)
    requires !OnOutgoingLine(from) && OnOutgoingLine(to)
    ensures CanTransition(Outgoing, from, to) <==> OutgoingStep(from, to)
  {
  }

  lemma BuildingEdges(from: State, to: State)
    requires OnOutgoingLine(to) && Rank(BuildingTransaction) <= Rank(from) < Rank(Pending)
    ensures CanTransition(Outgoing, from, to) <==> OutgoingStep(from, to)
  {
    match from {
      case BuildingTransaction =>
      case AwaitingSignature =>
      case Submitting =>
    }
  }

  lemma ChainEdges(from: State, to: State)
    requires OnOutgoingLine(to) && Rank(Pending) <= Rank(from) < Rank(DownloadedByRecipient)
    ensures CanTransition(Outgoing, from, to) <==> OutgoingStep(from, to)
  {
    match from {
      case Pending =>
      case Committed =>
      case AvailableOnChain =>
    }
  }

  lemma LateEdges(from: State, to: State)
    requires OnOutgoingLine(to) && Rank(from) >= Rank(DownloadedByRecipient)
    ensures CanTransition(Outgoing, from, to) <==> OutgoingStep(from, to)
  {
    match from {
      case DownloadedByRecipient =>
      case Acknowledged =>
      case ReclaimQueued =>
      case ReclaimPending =>
      case Reclaimed =>
    }
  }

  lemma EdgesIntoSides(from: State, to: State)
    requires !OnOutgoingLine(to) && OnOutgoingLine(from)
    ensures CanTransition(Outgoing, from, to) <==> OutgoingStep(from, to)
  {
    match from {
      case Queued =>
      case Pending =>
      case Reclaimed =>
      case _ =>
    }
  }

  lemma EdgesOffTheLine(from: State, to: State)
    requires !OnOutgoingLine(to) && !OnOutgoingLine(from)
    ensures CanTransition(Outgoing, from, to) <==> OutgoingStep(from, to)
  {
  }

  /** An outgoing row advances along its line one state at a time; it may fail at any point before
      the end; it may expire in the queue or while pending; a pending reclaim may be queued again; a
      failed row may be queued again. Nothing else. */
  lemma OutgoingEdgesExactly(from: State, to: State)
    ensures CanTransition(Outgoing, from, to) <==> OutgoingStep(from, to)
  {
    if !OnOutgoingLine(to) {
      if OnOutgoingLine(from) { EdgesIntoSides(from, to); } else { EdgesOffTheLine(from, to); }
    } else if !OnOutgoingLine(from) {
      EdgesOntoTheLine(from, to);
    } else if Rank(from) < Rank(BuildingTransaction) {
      EarlyEdges(from, to);
    } else if Rank(from) < Rank(Pending) {
      BuildingEdges(from, to);
    } else if Rank(from) < Rank(DownloadedByRecipient) {
      ChainEdges(from, to);
    } else {
      LateEdges(from, to);
    }
  }

  /** An incoming row advances along its line one state at a time and may turn out invalid at any
      point before the end. */
  lemma IncomingEdgesExactly(from: State, to: State)
    ensures CanTransition(Incoming, from, to)
            <==> IncomingRank(from) > 0 && from != RemoteReclaimed
                 && (IncomingRank(to) == IncomingRank(from) + 1 || to == Invalid)
  {
  }

  /** A history of one outgoing row: each entry repeats the last one or follows a legal edge. */
  ghost predicate LegalHistory(h: seq<State>) {
    forall i :: 0 < i < |h| ==> Transition(Outgoing, h[i - 1], h[i]).Some?
  }

  /** No legal history reaches a state without passing through every earlier milestone:
      the table lets nothing jump over a state on the main line. */
  lemma {:induction false} MilestonesAreNotSkipped(h: seq<State>, m: State)
    requires h != [] && LegalHistory(h)
    requires Rank(h[0]) < Rank(m) <= Rank(h[|h| - 1]) && Rank(m) >= 2
    ensures m in h
  {
    var rest := h[1..];
    assert forall i :: 0 <= i < |rest| ==> rest[i] == h[i + 1];
    assert h[1] == rest[0] && Transition(Outgoing, h[0], h[1]).Some?;
    if Rank(h[1]) < Rank(m) {
      forall i | 0 < i < |rest| ensures Transition(Outgoing, rest[i - 1], rest[i]).Some? {
        assert Transition(Outgoing, h[i], h[i + 1]).Some?;
      }
      MilestonesAreNotSkipped(rest, m);
    } else {
      assert h[1] == m;
    }
  }

  // ---------------------------------------------------------------- the publisher's walk

  const PATH_LENGTH: nat := 9

  /** The outgoing publish path, by position. */
  function PathState(i: nat): State
    requires i < PATH_LENGTH
  {
    match i
    case 0 => Draft case 1 => Queued case 2 => Encrypting case 3 => BuildingTransaction
    case 4 => AwaitingSignature case 5 => Submitting case 6 => Pending case 7 => Committed
    case _ => AvailableOnChain
  }

  predicate OnPath(s: State) {
    s == Draft || 1 <= Rank(s) < PATH_LENGTH
  }

  /** A state's position in the path is its rank, and nothing else is on the path. */
  lemma PathPosition(s: State)
    ensures OnPath(s) <==> exists i :: 0 <= i < PATH_LENGTH && PathState(i) == s
    ensures OnPath(s) ==> PathState(Rank(s)) == s
    ensures forall i :: 0 <= i < PATH_LENGTH ==> Rank(PathState(i)) == i
  {
    assert OnPath(s) ==> PathState(Rank(s)) == s;
  }

  /** The path states after position `i` up to position `j`. */
  function PathSteps(i: nat, j: nat): seq<State>
    requires j < PATH_LENGTH
    decreases j - i
  {
    if i >= j then [] else [PathState(i + 1)] + PathSteps(i + 1, j)
  }

  /** The requests the walk makes from `current` towards `target`: none when the row is at
      or past the target on the path, from `queued` on when the row is off the path. */
  function WalkRequests(current: State, target: State): seq<State> {
    if !OnPath(target) then []
    else PathSteps(if OnPath(current) then Rank(current) else 0, Rank(target))
  }

  /** Walking on from any point of the path takes every step to the target. */
  lemma {:induction false} WalkFrom(i: nat, j: nat)
    requires i <= j < PATH_LENGTH
    ensures TransitionAll(Outgoing, PathState(i), PathSteps(i, j)) == Some(PathState(j))
    decreases j - i
  {
    if i < j {
      WalkFrom(i + 1, j);
      assert PathSteps(i, j)[1..] == PathSteps(i + 1, j);
    }
  }

  /** Off the path list only a failed row can be queued. */
  lemma OnlyFailedIsQueued(current: State, rest: seq<State>)
    requires !OnPath(current)
    ensures TransitionAll(Outgoing, current, [Queued] + rest)
         == if current == Failed then TransitionAll(Outgoing, Queued, rest) else None
  {
    assert ([Queued] + rest)[1..] == rest;
    assert Queued in OutgoingEdges(current) <==> current == Failed;
  }

  /** Off the path list the walk starts at `queued`, which only a failed row can reach. */
  lemma OffThePath(current: State, target: State)
    requires !OnPath(current) && OnPath(target) && target != Draft
    ensures TransitionAll(Outgoing, current, WalkRequests(current, target))
            == if current == Failed then Some(target) else None
  {
    PathPosition(target);
    var r := Rank(target);
    assert WalkRequests(current, target) == [Queued] + PathSteps(1, r);
    OnlyFailedIsQueued(current, PathSteps(1, r));
    WalkFrom(1, r);
  }

  /** The walk succeeds exactly for rows on the path and for failed rows. A row past the end
      of the path is off the list, so the walk asks it for `queued` and the store throws: the
      walk is not the no-op its comment promises there. */
  lemma WalkSucceedsExactly(current: State, target: State)
    requires OnPath(target) && target != Draft
    ensures TransitionAll(Outgoing, current, WalkRequests(current, target))
         == if OnPath(current) && Rank(current) >= Rank(target) then Some(current)
            else if OnPath(current) || current == Failed then Some(target)
            else None
  {
    PathPosition(current);
    PathPosition(target);
    if OnPath(current) {
      if Rank(current) < Rank(target) {
        WalkFrom(Rank(current), Rank(target));
      }
    } else {
      OffThePath(current, target);
    }
  }

  /** A row the recipient has already acknowledged makes the walk throw. */
  lemma WalkPastThePathThrows()
    ensures TransitionAll(Outgoing, DownloadedByRecipient,
                          WalkRequests(DownloadedByRecipient, AvailableOnChain)).None?
  {
    WalkSucceedsExactly(DownloadedByRecipient, AvailableOnChain);
  }
}
