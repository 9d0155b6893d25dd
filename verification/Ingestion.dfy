/** Incoming messages on one device: the ingest tail that first discovery, rescans and the
    gateway poll share, the healer for rows an interruption left half way, and the queueing of
    the one acknowledgement response. One message is worked on by one pass at a time; a pass may
    be cut off after any of its store calls. */
module Ingestion {
  import opened Options
  import opened MessageStates

  type Cell = nat

  /** The UNIQUE logical ids: `FromPeer` is derived from the envelope's message id, `Response`
      and `AttachmentAck` are that id behind the `response:` and `ack-attachment:` prefixes,
      `Own` is anything the user composes. */
  datatype LogicalId = FromPeer(m: nat) | Response(m: nat) | AttachmentAck(m: nat) | Own(n: nat)

  datatype Row = Row(logical: LogicalId, state: State, ref: Option<Cell>, replyTo: Option<Cell>)

  /** The message table in row-id order, and the notifications posted so far. */
  datatype Store = Store(rows: seq<Row>, notices: seq<nat>)

  const LIST_LIMIT: nat := 500

  function Find(rows: seq<Row>, l: LogicalId): (r: Option<nat>)
    ensures r.Some? ==> r.value < |rows| && rows[r.value].logical == l
    ensures r.None? ==> forall i :: 0 <= i < |rows| ==> rows[i].logical != l
  {
    if rows == [] then None
    else if rows[|rows| - 1].logical == l then Some(|rows| - 1)
    else Find(rows[..|rows| - 1], l)
  }

  predicate Has(s: Store, l: LogicalId) {
    Find(s.rows, l).Some?
  }

  function RowOf(s: Store, l: LogicalId): (row: Row)
    requires Has(s, l)
    ensures row.logical == l
  {
    s.rows[Find(s.rows, l).value]
  }

  function Replace(s: Store, l: LogicalId, row: Row): Store
    requires Has(s, l)
  {
    s.(rows := s.rows[Find(s.rows, l).value := row])
  }

  // ---------------------------------------------------------------- store calls

  datatype Op =
    | Insert(l: LogicalId, state: State)
    | SetRef(l: LogicalId, cell: Cell)
    | SetReplyTo(l: LogicalId, cell: Cell)
    | To(l: LogicalId, state: State)
    | Notify(m: nat)

  /** One call. Inserting is idempotent on the logical id; a transition must be a legal edge,
      and asking for the current state is not counted as one here. None is a throw. */
  function Apply(s: Store, op: Op): Option<Store> {
    match op
    case Insert(l, state) => Some(if Has(s, l) then s else s.(rows := s.rows + [Row(l, state, None, None)]))
    case SetRef(l, cell) =>
      if Has(s, l) then Some(Replace(s, l, RowOf(s, l).(ref := Some(cell)))) else None
    case SetReplyTo(l, cell) =>
      if Has(s, l) then Some(Replace(s, l, RowOf(s, l).(replyTo := Some(cell)))) else None
    case To(l, state) =>
      if Has(s, l) && CanTransition(Incoming, RowOf(s, l).state, state)
      then Some(Replace(s, l, RowOf(s, l).(state := state))) else None
    case Notify(m) => Some(s.(notices := s.notices + [m]))
  }

  function ApplyAll(s: Store, ops: seq<Op>): Option<Store>
    decreases |ops|
  {
    if ops == [] then Some(s)
    else
      match Apply(s, ops[0])
      case None => None
      case Some(t) => ApplyAll(t, ops[1..])
  }

  /** The outstanding transitions up to `received`. */
  function AdvanceSteps(l: LogicalId, from: State): seq<Op> {
    match from
    case Discovered => [To(l, Downloading), To(l, Decrypting), To(l, Received)]
    case Downloading => [To(l, Decrypting), To(l, Received)]
    case Decrypting => [To(l, Received)]
    case _ => []
  }

  predicate Strandable(state: State) {
    state == Discovered || state == Downloading || state == Decrypting
  }

  /** Queueing the acknowledgement: nothing when the response row exists. */
  function AckOps(s: Store, m: nat, cell: Option<Cell>): seq<Op> {
    if cell == None || Has(s, Response(m)) then []
    else [Insert(Response(m), Queued), SetReplyTo(Response(m), cell.value)]
  }

  /** Drive the row up to `received`, notify, queue the acknowledgement. */
  function AdvanceOps(s: Store, m: nat, from: State, cell: Option<Cell>): seq<Op> {
    if !Strandable(from) then []
    else AdvanceSteps(FromPeer(m), from) + ([Notify(m)] + AckOps(s, m, cell))
  }

  /** The store calls of one content message from `source`, None for a source without a chain
      outpoint. */
  function IngestOps(s: Store, m: nat, source: Option<Cell>): seq<Op> {
    var from := if Has(s, FromPeer(m)) then RowOf(s, FromPeer(m)).state else Discovered;
    var tail := AdvanceOps(s, m, from, source);
    [Insert(FromPeer(m), Discovered)]
    + (if Strandable(from) && source.Some? then [SetRef(FromPeer(m), source.value)] + tail else tail)
  }

  /** The store calls of the healer for one row it listed. */
  function HealOps(s: Store, m: nat): seq<Op> {
    if Has(s, FromPeer(m)) then
      AdvanceOps(s, m, RowOf(s, FromPeer(m)).state, RowOf(s, FromPeer(m)).ref)
    else []
  }

  /** The store calls that confirm a downloaded attachment: one row per message, none without the
      cell to answer to. */
  function ConfirmOps(s: Store, m: nat): seq<Op> {
    if !Has(s, FromPeer(m)) || Has(s, AttachmentAck(m)) || RowOf(s, FromPeer(m)).ref == None then []
    else [Insert(AttachmentAck(m), Queued), SetReplyTo(AttachmentAck(m), RowOf(s, FromPeer(m)).ref.value)]
  }

  predicate Stranded(row: Row) {
    row.logical.FromPeer? && (row.state == Downloading || row.state == Decrypting)
  }

  // ---------------------------------------------------------------- runs

  datatype Event =
    | Ingest(m: nat, source: Option<Cell>, calls: nat)
    | Heal(m: nat, calls: nat)
    | Confirm(m: nat, calls: nat)
    | RowMoves(l: LogicalId, state: State)     // display, response sender, the publisher
    | Compose(n: nat)

  function Prefix(ops: seq<Op>, calls: nat): seq<Op> {
    if calls < |ops| then ops[..calls] else ops
  }

  /** Nobody else moves an incoming row before it is received. */
  predicate MayMove(s: Store, l: LogicalId, state: State) {
    Has(s, l)
    && if l.FromPeer? then !Strandable(RowOf(s, l).state) && CanTransition(Incoming, RowOf(s, l).state, state)
       else CanTransition(Outgoing, RowOf(s, l).state, state)
  }

  function After(s: Store, ops: seq<Op>): Store {
    match ApplyAll(s, ops) case Some(t) => t case None => s
  }

  function Step(s: Store, e: Event): Store {
    match e
    case Ingest(m, source, calls) => After(s, Prefix(IngestOps(s, m, source), calls))
    case Heal(m, calls) =>
      if Has(s, FromPeer(m)) && Stranded(RowOf(s, FromPeer(m))) then After(s, Prefix(HealOps(s, m), calls)) else s
    case Confirm(m, calls) => After(s, Prefix(ConfirmOps(s, m), calls))
    case RowMoves(l, state) => if MayMove(s, l, state) then Replace(s, l, RowOf(s, l).(state := state)) else s
    case Compose(n) => After(s, [Insert(Own(n), Draft)])
  }

  function Run(s: Store, events: seq<Event>): Store
    decreases |events|
  {
    if events == [] then s else Run(Step(s, events[0]), events[1..])
  }

  const Empty := Store([], [])

  // ---------------------------------------------------------------- the invariant

  ghost predicate Unique(rows: seq<Row>) {
    forall i, j :: 0 <= i < j < |rows| ==> rows[i].logical != rows[j].logical
  }

  /** Received, or further on. */
  predicate Arrived(s: Store, m: nat) {
    Has(s, FromPeer(m)) && !Strandable(RowOf(s, FromPeer(m)).state)
  }

  ghost predicate Inv(s: Store) {
    && Unique(s.rows)
    && (forall i, j :: 0 <= i < j < |s.notices| ==> s.notices[i] != s.notices[j])
    && (forall i :: 0 <= i < |s.notices| ==> Arrived(s, s.notices[i]))
    && (forall m :: Has(s, Response(m)) ==> Arrived(s, m))
    && (forall m :: Has(s, AttachmentAck(m)) ==> Has(s, FromPeer(m)))
  }

  lemma FindUnique(rows: seq<Row>, i: nat)
    requires Unique(rows) && i < |rows|
    ensures Find(rows, rows[i].logical) == Some(i)
  {
  }

  /** Replacing a row under its own logical id leaves every other row where it was. */
  lemma ReplaceKeeps(s: Store, l: LogicalId, row: Row)
    requires Unique(s.rows) && Has(s, l) && row.logical == l
    ensures Unique(Replace(s, l, row).rows)
    ensures forall k :: Has(Replace(s, l, row), k) <==> Has(s, k)
    ensures forall k :: Has(s, k) ==> RowOf(Replace(s, l, row), k) == if k == l then row else RowOf(s, k)
  {
    var t := Replace(s, l, row);
    forall k | Has(s, k) ensures Has(t, k) && RowOf(t, k) == if k == l then row else RowOf(s, k) {
      FindUnique(t.rows, Find(s.rows, k).value);
    }
    forall k | Has(t, k) ensures Has(s, k) {
      FindUnique(s.rows, Find(t.rows, k).value);
    }
  }

  lemma InsertKeeps(s: Store, l: LogicalId, state: State)
    requires Unique(s.rows)
    ensures var t := Apply(s, Insert(l, state)).value;
            && Unique(t.rows) && t.notices == s.notices && Has(t, l)
            && (forall k :: k != l ==> (Has(t, k) <==> Has(s, k)))
            && (forall k :: Has(s, k) ==> RowOf(t, k) == RowOf(s, k))
            && (!Has(s, l) ==> RowOf(t, l) == Row(l, state, None, None))
  {
    var t := Apply(s, Insert(l, state)).value;
    if !Has(s, l) {
      FindUnique(t.rows, |s.rows|);
      forall k | Has(s, k) ensures Has(t, k) && RowOf(t, k) == RowOf(s, k) {
        FindUnique(t.rows, Find(s.rows, k).value);
      }
      forall k | Has(t, k) && k != l ensures Has(s, k) {
        FindUnique(s.rows, Find(t.rows, k).value);
      }
    }
  }

  // ---------------------------------------------------------------- single calls

  /** How far an incoming row has come. */
  function Progress(state: State): nat {
    match state
    case Discovered => 0 case Downloading => 1 case Decrypting => 2 case Received => 3
    case Displayed => 4 case ResponseQueued => 5 case ResponseSent => 6
    case AwaitingRemoteReclaim => 7 case RemoteReclaimed => 8 case Invalid => 9
    case _ => 0
  }

  /** Nothing is lost from `s` to `t`: rows stay, incoming rows only move forward, notifications
      stay posted. */
  ghost predicate Later(s: Store, t: Store) {
    && (forall k :: Has(s, k) ==> Has(t, k))
    && (forall k :: Has(s, k) && k.FromPeer? ==> Progress(RowOf(s, k).state) <= Progress(RowOf(t, k).state))
    && s.notices <= t.notices
  }

  /** A call that cannot throw and is allowed to happen: no transition off the table, no response
      and no notification ahead of the message, no second notification. */
  predicate Safe(s: Store, op: Op) {
    match op
    case Insert(l, _) => (l.Response? ==> Arrived(s, l.m)) && (l.AttachmentAck? ==> Has(s, FromPeer(l.m)))
    case SetRef(l, _) => Has(s, l)
    case SetReplyTo(l, _) => Has(s, l)
    case To(l, state) => l.FromPeer? && Apply(s, op).Some?
    case Notify(m) => Arrived(s, m) && m !in s.notices
  }

  predicate Cautious(s: Store, ops: seq<Op>)
    decreases |ops|
  {
    ops == [] || (Safe(s, ops[0]) && Apply(s, ops[0]).Some? && Cautious(Apply(s, ops[0]).value, ops[1..]))
  }

  lemma InsertIsFine(s: Store, op: Op)
    requires Inv(s) && op.Insert? && Safe(s, op)
    ensures Inv(Apply(s, op).value) && Later(s, Apply(s, op).value)
  {
    InsertKeeps(s, op.l, op.state);
    var t := Apply(s, op).value;
    assert forall m :: Arrived(s, m) ==> Arrived(t, m);
  }

  lemma ReplaceMovesForward(s: Store, l: LogicalId, row: Row)
    requires Unique(s.rows) && Has(s, l) && row.logical == l
    requires l.FromPeer? ==> row.state == RowOf(s, l).state || CanTransition(Incoming, RowOf(s, l).state, row.state)
    ensures var t := Replace(s, l, row);
            Unique(t.rows) && t.notices == s.notices && Later(s, t) && forall k :: Has(t, k) ==> Has(s, k)
    ensures forall m :: Arrived(s, m) ==> Arrived(Replace(s, l, row), m)
  {
    ReplaceKeeps(s, l, row);
    var t := Replace(s, l, row);
    forall m | Arrived(s, m) ensures Arrived(t, m) {
      assert Has(t, FromPeer(m));
    }
  }

  lemma ReplaceIsFine(s: Store, l: LogicalId, row: Row)
    requires Inv(s) && Has(s, l) && row.logical == l
    requires l.FromPeer? ==> row.state == RowOf(s, l).state || CanTransition(Incoming, RowOf(s, l).state, row.state)
    ensures Inv(Replace(s, l, row)) && Later(s, Replace(s, l, row))
  {
    ReplaceMovesForward(s, l, row);
  }

  lemma CallKeeps(s: Store, op: Op)
    requires Inv(s) && Safe(s, op)
    ensures Apply(s, op).Some? && Inv(Apply(s, op).value) && Later(s, Apply(s, op).value)
  {
    match op
    case Insert(_, _) => InsertIsFine(s, op);
    case SetRef(l, cell) => ReplaceIsFine(s, l, RowOf(s, l).(ref := Some(cell)));
    case SetReplyTo(l, cell) => ReplaceIsFine(s, l, RowOf(s, l).(replyTo := Some(cell)));
    case To(l, state) => ReplaceIsFine(s, l, RowOf(s, l).(state := state));
    case Notify(m) =>
      var t := Apply(s, op).value;
      assert forall k :: Arrived(s, k) ==> Arrived(t, k);
  }

  lemma LaterTwice(s: Store, t: Store, u: Store)
    requires Later(s, t) && Later(t, u)
    ensures Later(s, u)
  {
  }

  /** Cut off after any number of its calls, a careful pass has thrown nowhere and kept the
      invariant. */
  lemma {:induction false} PartialPassKeeps(s: Store, ops: seq<Op>, calls: nat)
    requires Inv(s) && Cautious(s, ops)
    ensures ApplyAll(s, Prefix(ops, calls)).Some?
    ensures Inv(After(s, Prefix(ops, calls))) && Later(s, After(s, Prefix(ops, calls)))
    decreases |ops|
  {
    if ops != [] && calls > 0 {
      CallKeeps(s, ops[0]);
      var t := Apply(s, ops[0]).value;
      PartialPassKeeps(t, ops[1..], calls - 1);
      assert Prefix(ops, calls)[0] == ops[0] && Prefix(ops, calls)[1..] == Prefix(ops[1..], calls - 1);
      var u := After(t, Prefix(ops[1..], calls - 1));
      assert ApplyAll(s, Prefix(ops, calls)) == Some(u);
      LaterTwice(s, t, u);
    } else {
      assert Prefix(ops, calls) == [];
    }
  }

  // ---------------------------------------------------------------- the advance

  /** Everything an advance of message `m` may change, and that it arrives. */
  ghost predicate Advanced(s: Store, t: Store, m: nat, cell: Option<Cell>) {
    && Has(t, FromPeer(m)) && RowOf(t, FromPeer(m)).state == Received
    && (Has(s, FromPeer(m)) && RowOf(s, FromPeer(m)).ref == cell ==> RowOf(t, FromPeer(m)).ref == cell)
    && t.notices == s.notices + [m]
    && Answered(s, t, m, cell)
    && OthersKept(s, t, m)
  }

  /** The response row: as it was if there was one, else queued for this cell if there is a cell. */
  ghost predicate Answered(s: Store, t: Store, m: nat, cell: Option<Cell>) {
    if Has(s, Response(m)) then Has(t, Response(m)) && RowOf(t, Response(m)) == RowOf(s, Response(m))
    else if cell.Some? then Has(t, Response(m)) && RowOf(t, Response(m)) == Row(Response(m), Queued, None, cell)
    else !Has(t, Response(m))
  }

  ghost predicate OthersKept(s: Store, t: Store, m: nat) {
    && (forall k :: k != FromPeer(m) && k != Response(m) ==> (Has(t, k) <==> Has(s, k)))
    && (forall k :: k != FromPeer(m) && k != Response(m) && Has(s, k) ==> RowOf(t, k) == RowOf(s, k))
  }

  ghost predicate Acked(s: Store, t: Store, m: nat, cell: Option<Cell>) {
    && Has(s, FromPeer(m)) && Has(t, FromPeer(m)) && RowOf(t, FromPeer(m)) == RowOf(s, FromPeer(m))
    && t.notices == s.notices
    && Answered(s, t, m, cell)
    && OthersKept(s, t, m)
  }

  lemma AckIsCautious(s: Store, m: nat, cell: Cell)
    requires Inv(s) && Arrived(s, m) && !Has(s, Response(m))
    ensures var ops := [Insert(Response(m), Queued), SetReplyTo(Response(m), cell)];
            Cautious(s, ops) && ApplyAll(s, ops).Some? && Acked(s, After(s, ops), m, Some(cell))
  {
    var ops := [Insert(Response(m), Queued), SetReplyTo(Response(m), cell)];
    var inserted := Apply(s, ops[0]).value;
    InsertKeeps(s, Response(m), Queued);
    var row := RowOf(inserted, Response(m)).(replyTo := Some(cell));
    ReplaceKeeps(inserted, Response(m), row);
    var t := Replace(inserted, Response(m), row);
    assert ops[1..] == [ops[1]] && ops[1..][1..] == [];
    assert Apply(inserted, ops[1]) == Some(t) && ApplyAll(t, []) == Some(t);
  }

  lemma AckPart(s: Store, m: nat, cell: Option<Cell>, before: Store)
    requires Inv(s) && Arrived(s, m)
    requires Has(before, Response(m)) <==> Has(s, Response(m))
    ensures var ops := AckOps(before, m, cell);
            Cautious(s, ops) && ApplyAll(s, ops).Some? && Acked(s, After(s, ops), m, cell)
  {
    if cell.Some? && !Has(s, Response(m)) {
      AckIsCautious(s, m, cell.value);
    }
  }

  lemma NotifyIsFine(s: Store, m: nat)
    requires Inv(s) && Arrived(s, m) && m !in s.notices
    ensures Inv(s.(notices := s.notices + [m]))
  {
    assert forall k :: Arrived(s, k) ==> Arrived(s.(notices := s.notices + [m]), k);
  }

  /** After `Received`: post the notification, queue the acknowledgement. */
  lemma TailIsCautious(s: Store, m: nat, cell: Option<Cell>, before: Store)
    requires Inv(s) && Has(s, FromPeer(m)) && RowOf(s, FromPeer(m)).state == Received && m !in s.notices
    requires Has(before, Response(m)) <==> Has(s, Response(m))
    ensures var ops := [Notify(m)] + AckOps(before, m, cell);
            Cautious(s, ops) && ApplyAll(s, ops).Some? && Advanced(s, After(s, ops), m, cell)
  {
    var noticed := s.(notices := s.notices + [m]);
    NotifyIsFine(s, m);
    AckPart(noticed, m, cell, before);
    PassBegins(s, Notify(m), AckOps(before, m, cell), noticed);
    AckedIsAdvanced(s, After(noticed, AckOps(before, m, cell)), m, cell);
  }

  lemma AckedIsAdvanced(s: Store, t: Store, m: nat, cell: Option<Cell>)
    requires Has(s, FromPeer(m)) && RowOf(s, FromPeer(m)).state == Received
    requires Acked(s.(notices := s.notices + [m]), t, m, cell)
    ensures Advanced(s, t, m, cell)
  {
  }

  lemma StepForward(s: Store, l: LogicalId)
    requires Inv(s) && l.FromPeer? && Has(s, l) && Strandable(RowOf(s, l).state)
    ensures var steps := AdvanceSteps(l, RowOf(s, l).state);
            && Safe(s, steps[0]) && steps[0].To? && steps[0].l == l
            && var t := Replace(s, l, RowOf(s, l).(state := steps[0].state));
            && Apply(s, steps[0]) == Some(t) && Inv(t) && t.notices == s.notices && OthersKept(s, t, l.m)
            && Has(t, l) && RowOf(t, l) == RowOf(s, l).(state := steps[0].state)
            && (Has(t, Response(l.m)) <==> Has(s, Response(l.m)))
            && (Has(s, Response(l.m)) ==> RowOf(t, Response(l.m)) == RowOf(s, Response(l.m)))
            && AdvanceSteps(l, steps[0].state) == steps[1..]
            && Progress(steps[0].state) == Progress(RowOf(s, l).state) + 1 <= 3
  {
    var op := AdvanceSteps(l, RowOf(s, l).state)[0];
    CallKeeps(s, op);
    ReplaceKeeps(s, l, RowOf(s, l).(state := op.state));
  }

  lemma OthersKeptTwice(s: Store, t: Store, u: Store, m: nat)
    requires OthersKept(s, t, m) && OthersKept(t, u, m)
    ensures OthersKept(s, u, m)
  {
  }

  lemma PassBegins(s: Store, op: Op, rest: seq<Op>, t: Store)
    requires Safe(s, op) && Apply(s, op) == Some(t) && Cautious(t, rest)
    ensures Cautious(s, [op] + rest) && ApplyAll(s, [op] + rest) == ApplyAll(t, rest)
  {
    assert ([op] + rest)[1..] == rest;
  }

  lemma AdvancedFromBefore(s: Store, t: Store, u: Store, m: nat, cell: Option<Cell>)
    requires Advanced(t, u, m, cell) && OthersKept(s, t, m) && t.notices == s.notices
    requires Has(s, Response(m)) <==> Has(t, Response(m))
    requires Has(s, Response(m)) ==> RowOf(t, Response(m)) == RowOf(s, Response(m))
    requires Has(s, FromPeer(m)) ==> Has(t, FromPeer(m)) && RowOf(t, FromPeer(m)).ref == RowOf(s, FromPeer(m)).ref
    ensures Advanced(s, u, m, cell)
  {
    OthersKeptTwice(s, t, u, m);
  }

  function Stepped(s: Store, m: nat): Store
    requires Has(s, FromPeer(m)) && Strandable(RowOf(s, FromPeer(m)).state)
  {
    var row := RowOf(s, FromPeer(m));
    Replace(s, FromPeer(m), row.(state := AdvanceSteps(FromPeer(m), row.state)[0].state))
  }

  lemma SteppedIsFine(s: Store, m: nat)
    requires Inv(s) && Has(s, FromPeer(m)) && Strandable(RowOf(s, FromPeer(m)).state)
    ensures var t := Stepped(s, m); var state := RowOf(s, FromPeer(m)).state;
            && Inv(t) && Has(t, FromPeer(m)) && t.notices == s.notices
            && (Strandable(RowOf(t, FromPeer(m)).state) || RowOf(t, FromPeer(m)).state == Received)
            && (Has(t, Response(m)) <==> Has(s, Response(m)))
            && AdvanceSteps(FromPeer(m), RowOf(t, FromPeer(m)).state) == AdvanceSteps(FromPeer(m), state)[1..]
            && Progress(state) < Progress(RowOf(t, FromPeer(m)).state) <= 3
  {
    StepForward(s, FromPeer(m));
  }

  lemma StepThenRest(s: Store, m: nat, cell: Option<Cell>, rest: seq<Op>)
    requires Inv(s) && Has(s, FromPeer(m)) && Strandable(RowOf(s, FromPeer(m)).state)
    requires var t := Stepped(s, m);
             Cautious(t, rest) && ApplyAll(t, rest).Some? && Advanced(t, After(t, rest), m, cell)
    ensures var ops := [AdvanceSteps(FromPeer(m), RowOf(s, FromPeer(m)).state)[0]] + rest;
            Cautious(s, ops) && ApplyAll(s, ops).Some? && Advanced(s, After(s, ops), m, cell)
  {
    StepForward(s, FromPeer(m));
    PassBegins(s, AdvanceSteps(FromPeer(m), RowOf(s, FromPeer(m)).state)[0], rest, Stepped(s, m));
    AdvancedFromBefore(s, Stepped(s, m), After(Stepped(s, m), rest), m, cell);
  }

  /** One outstanding transition, then the rest. */
  lemma {:induction false} AdvanceIsCautious(s: Store, m: nat, cell: Option<Cell>, before: Store)
    requires Inv(s) && Has(s, FromPeer(m)) && m !in s.notices
    requires Strandable(RowOf(s, FromPeer(m)).state) || RowOf(s, FromPeer(m)).state == Received
    requires Has(before, Response(m)) <==> Has(s, Response(m))
    ensures var ops := AdvanceSteps(FromPeer(m), RowOf(s, FromPeer(m)).state) + ([Notify(m)] + AckOps(before, m, cell));
            Cautious(s, ops) && ApplyAll(s, ops).Some? && Advanced(s, After(s, ops), m, cell)
    decreases 3 - Progress(RowOf(s, FromPeer(m)).state)
  {
    var l := FromPeer(m);
    var tail := [Notify(m)] + AckOps(before, m, cell);
    var steps := AdvanceSteps(l, RowOf(s, l).state);
    if RowOf(s, l).state == Received {
      assert steps + tail == tail;
      TailIsCautious(s, m, cell, before);
    } else {
      SteppedIsFine(s, m);
      AdvanceIsCautious(Stepped(s, m), m, cell, before);
      StepBeforeTheRest(s, m, cell, tail);
    }
  }

  lemma StepBeforeTheRest(s: Store, m: nat, cell: Option<Cell>, tail: seq<Op>)
    requires Inv(s) && Has(s, FromPeer(m)) && Strandable(RowOf(s, FromPeer(m)).state)
    requires var rest := AdvanceSteps(FromPeer(m), RowOf(s, FromPeer(m)).state)[1..] + tail; var t := Stepped(s, m);
             Cautious(t, rest) && ApplyAll(t, rest).Some? && Advanced(t, After(t, rest), m, cell)
    ensures var ops := AdvanceSteps(FromPeer(m), RowOf(s, FromPeer(m)).state) + tail;
            Cautious(s, ops) && ApplyAll(s, ops).Some? && Advanced(s, After(s, ops), m, cell)
  {
    var steps := AdvanceSteps(FromPeer(m), RowOf(s, FromPeer(m)).state);
    StepThenRest(s, m, cell, steps[1..] + tail);
    FirstAndRest(steps, tail);
  }

  lemma FirstAndRest(a: seq<Op>, b: seq<Op>)
    requires a != []
    ensures a + b == [a[0]] + (a[1..] + b)
  {
  }

  lemma HealIsCautious(s: Store, m: nat)
    requires Inv(s) && Has(s, FromPeer(m)) && Strandable(RowOf(s, FromPeer(m)).state)
    ensures Cautious(s, HealOps(s, m)) && ApplyAll(s, HealOps(s, m)).Some?
    ensures Advanced(s, After(s, HealOps(s, m)), m, RowOf(s, FromPeer(m)).ref)
  {
    AdvanceIsCautious(s, m, RowOf(s, FromPeer(m)).ref, s);
  }

  /** What follows the insert of a row that has not arrived: the source cell, then the advance. */
  lemma MarkAndAdvance(s: Store, m: nat, source: Option<Cell>, before: Store)
    requires Inv(s) && Has(s, FromPeer(m)) && Strandable(RowOf(s, FromPeer(m)).state) && m !in s.notices
    requires Has(before, Response(m)) <==> Has(s, Response(m))
    ensures var tail := AdvanceOps(before, m, RowOf(s, FromPeer(m)).state, source);
            var ops := if source.Some? then [SetRef(FromPeer(m), source.value)] + tail else tail;
            Cautious(s, ops) && ApplyAll(s, ops).Some? && Advanced(s, After(s, ops), m, source)
            && (source.Some? ==> RowOf(After(s, ops), FromPeer(m)).ref == source)
  {
    var l := FromPeer(m);
    if source.Some? {
      var marked := RowOf(s, l).(ref := source);
      var u := Replace(s, l, marked);
      ReplaceKeeps(s, l, marked);
      ReplaceIsFine(s, l, marked);
      AdvanceIsCautious(u, m, source, before);
      PassBegins(s, SetRef(l, source.value), AdvanceOps(before, m, marked.state, source), u);
    } else {
      AdvanceIsCautious(s, m, source, before);
    }
  }

  /** A first sight or a rescan: careful, and if the message had not arrived it has now, with its
      one notification and, for a chain source, the response that names the source cell. */
  lemma IngestIsCautious(s: Store, m: nat, source: Option<Cell>)
    requires Inv(s)
    ensures Cautious(s, IngestOps(s, m, source)) && ApplyAll(s, IngestOps(s, m, source)).Some?
    ensures Arrived(s, m) ==> After(s, IngestOps(s, m, source)) == s
    ensures !Arrived(s, m) ==> Advanced(s, After(s, IngestOps(s, m, source)), m, source)
    ensures !Arrived(s, m) && source.Some? ==> RowOf(After(s, IngestOps(s, m, source)), FromPeer(m)).ref == source
  {
    var insert := Insert(FromPeer(m), Discovered);
    var ops := IngestOps(s, m, source);
    var t := Apply(s, insert).value;
    InsertKeeps(s, FromPeer(m), Discovered);
    InsertIsFine(s, insert);
    if Arrived(s, m) {
      assert ops == [insert] + [];
      PassBegins(s, insert, [], t);
    } else {
      MarkAndAdvance(t, m, source, s);
      var tail := AdvanceOps(s, m, RowOf(t, FromPeer(m)).state, source);
      var rest := if source.Some? then [SetRef(FromPeer(m), source.value)] + tail else tail;
      assert ops == [insert] + rest;
      PassBegins(s, insert, rest, t);
      AdvancedFromBefore(s, t, After(t, rest), m, source);
    }
  }

  // ---------------------------------------------------------------- every run

  lemma IngestKeeps(s: Store, m: nat, source: Option<Cell>, calls: nat)
    requires Inv(s)
    ensures Inv(Step(s, Ingest(m, source, calls))) && Later(s, Step(s, Ingest(m, source, calls)))
  {
    IngestIsCautious(s, m, source);
    PartialPassKeeps(s, IngestOps(s, m, source), calls);
  }

  lemma HealKeeps(s: Store, m: nat, calls: nat)
    requires Inv(s)
    ensures Inv(Step(s, Heal(m, calls))) && Later(s, Step(s, Heal(m, calls)))
  {
    if Has(s, FromPeer(m)) && Stranded(RowOf(s, FromPeer(m))) {
      HealIsCautious(s, m);
      PartialPassKeeps(s, HealOps(s, m), calls);
    }
  }

  lemma ConfirmKeeps(s: Store, m: nat, calls: nat)
    requires Inv(s)
    ensures Inv(Step(s, Confirm(m, calls))) && Later(s, Step(s, Confirm(m, calls)))
  {
    var ops := ConfirmOps(s, m);
    if ops != [] {
      InsertKeeps(s, AttachmentAck(m), Queued);
      assert ops[1..] == [ops[1]] && ops[1..][1..] == [];
    }
    PartialPassKeeps(s, ops, calls);
  }

  lemma ComposeKeeps(s: Store, n: nat)
    requires Inv(s)
    ensures Inv(Step(s, Compose(n))) && Later(s, Step(s, Compose(n)))
  {
    InsertIsFine(s, Insert(Own(n), Draft));
    var t := Apply(s, Insert(Own(n), Draft)).value;
    assert ApplyAll(s, [Insert(Own(n), Draft)]) == ApplyAll(t, []);
  }

  lemma StepKeeps(s: Store, e: Event)
    requires Inv(s)
    ensures Inv(Step(s, e)) && Later(s, Step(s, e))
  {
    if e.Ingest? {
      IngestKeeps(s, e.m, e.source, e.calls);
    } else if e.Heal? {
      HealKeeps(s, e.m, e.calls);
    } else if e.Confirm? {
      ConfirmKeeps(s, e.m, e.calls);
    } else if e.Compose? {
      ComposeKeeps(s, e.n);
    } else if MayMove(s, e.l, e.state) {
      ReplaceIsFine(s, e.l, RowOf(s, e.l).(state := e.state));
    }
  }

  lemma {:induction false} RunKeeps(s: Store, events: seq<Event>)
    requires Inv(s)
    ensures Inv(Run(s, events)) && Later(s, Run(s, events))
    decreases |events|
  {
    if events != [] {
      StepKeeps(s, events[0]);
      RunKeeps(Step(s, events[0]), events[1..]);
      LaterTwice(s, Step(s, events[0]), Run(s, events));
    }
  }

  /** After any number of rescans, heals, interruptions and other moves: no logical id has two
      rows, hence one row and at most one response row per message; no message was notified
      twice; and nothing was notified or answered before it had arrived. */
  lemma OneRowOneResponseOneNotice(events: seq<Event>)
    ensures var s := Run(Empty, events);
            && Unique(s.rows)
            && (forall i, j :: 0 <= i < j < |s.notices| ==> s.notices[i] != s.notices[j])
            && (forall i :: 0 <= i < |s.notices| ==> Arrived(s, s.notices[i]))
            && (forall m :: Has(s, Response(m)) ==> Arrived(s, m))
  {
    RunKeeps(Empty, events);
  }

  /** Wherever a run has been cut off, the next pass over a message asks for legal edges only: no
      store call throws, at whatever call that pass is cut off in its turn; and incoming rows have
      moved forward only. */
  lemma OnlyLegalForwardEdges(events: seq<Event>, more: seq<Event>, m: nat, source: Option<Cell>, calls: nat)
    ensures var s := Run(Empty, events);
            && ApplyAll(s, Prefix(IngestOps(s, m, source), calls)).Some?
            && (Has(s, FromPeer(m)) ==> ApplyAll(s, Prefix(HealOps(s, m), calls)).Some?)
            && Later(s, Run(s, more))
  {
    RunKeeps(Empty, events);
    var s := Run(Empty, events);
    RunKeeps(s, more);
    IngestIsCautious(s, m, source);
    PartialPassKeeps(s, IngestOps(s, m, source), calls);
    if Has(s, FromPeer(m)) && Strandable(RowOf(s, FromPeer(m)).state) {
      HealIsCautious(s, m);
      PartialPassKeeps(s, HealOps(s, m), calls);
    }
  }

  /** One uninterrupted pass over a message is enough, whatever state earlier passes left it in: it is
      received, notified once more and, for a chain source, its row names that cell and a response
      naming the cell is queued; a pass over a message that has arrived changes nothing. */
  lemma OnePassIsEnough(events: seq<Event>, m: nat, source: Option<Cell>)
    ensures var s := Run(Empty, events);
            var t := After(s, IngestOps(s, m, source));
            if Has(s, FromPeer(m)) && RowOf(s, FromPeer(m)).state !in {Discovered, Downloading, Decrypting} then t == s
            else
              && Has(t, FromPeer(m)) && RowOf(t, FromPeer(m)).state == Received && t.notices == s.notices + [m]
              && (source.Some? ==> RowOf(t, FromPeer(m)).ref == source && Has(t, Response(m))
                                   && RowOf(t, Response(m)) == Row(Response(m), Queued, None, source))
              && (source.None? ==> !Has(t, Response(m))) && OthersKept(s, t, m)
  {
    RunKeeps(Empty, events);
    IngestIsCautious(Run(Empty, events), m, source);
  }

  /** Confirming a downloaded attachment queues one confirmation, which names the message's cell; there
      is none without a cell, and never a second one. */
  lemma OneConfirmation(events: seq<Event>, m: nat)
    ensures var s := Run(Empty, events); var t := After(s, ConfirmOps(s, m));
            if !Has(s, FromPeer(m)) || RowOf(s, FromPeer(m)).ref.None? || Has(s, AttachmentAck(m)) then t == s
            else
              && Has(t, AttachmentAck(m)) && t.notices == s.notices
              && RowOf(t, AttachmentAck(m)) == Row(AttachmentAck(m), Queued, None, RowOf(s, FromPeer(m)).ref)
              && (forall k :: k != AttachmentAck(m) ==> (Has(t, k) <==> Has(s, k)))
              && (forall k :: Has(s, k) ==> RowOf(t, k) == RowOf(s, k))
  {
    RunKeeps(Empty, events);
    var s := Run(Empty, events);
    if Has(s, FromPeer(m)) && RowOf(s, FromPeer(m)).ref.Some? && !Has(s, AttachmentAck(m)) {
      ConfirmationQueued(s, m, RowOf(s, FromPeer(m)).ref.value);
    }
  }

  lemma ConfirmationQueued(s: Store, m: nat, cell: Cell)
    requires Inv(s) && !Has(s, AttachmentAck(m))
    ensures var t := After(s, [Insert(AttachmentAck(m), Queued), SetReplyTo(AttachmentAck(m), cell)]);
            && Has(t, AttachmentAck(m)) && t.notices == s.notices
            && RowOf(t, AttachmentAck(m)) == Row(AttachmentAck(m), Queued, None, Some(cell))
            && (forall k :: k != AttachmentAck(m) ==> (Has(t, k) <==> Has(s, k)))
            && (forall k :: Has(s, k) ==> RowOf(t, k) == RowOf(s, k))
  {
    var l := AttachmentAck(m);
    var inserted := Apply(s, Insert(l, Queued)).value;
    InsertKeeps(s, l, Queued);
    var row := RowOf(inserted, l).(replyTo := Some(cell));
    ReplaceKeeps(inserted, l, row);
    TwoCalls(s, Insert(l, Queued), inserted, SetReplyTo(l, cell), Replace(inserted, l, row));
  }

  lemma TwoCalls(s: Store, a: Op, t: Store, b: Op, u: Store)
    requires Apply(s, a) == Some(t) && Apply(t, b) == Some(u)
    ensures After(s, [a, b]) == u
  {
    assert [a, b][1..] == [b] && [b][1..] == [];
    assert ApplyAll(u, []) == Some(u);
    assert ApplyAll(t, [b]) == Some(u);
  }

  // ---------------------------------------------------------------- the healer

  predicate StrandedIn(s: Store, m: nat) {
    Has(s, FromPeer(m)) && Stranded(RowOf(s, FromPeer(m)))
  }

  /** The message ids of the stranded rows, in row order. */
  function StrandedIds(rows: seq<Row>): (ids: seq<nat>)
    ensures forall k :: 0 <= k < |ids| ==>
            exists i :: 0 <= i < |rows| && rows[i].logical == FromPeer(ids[k]) && Stranded(rows[i])
  {
    if rows == [] then []
    else
      var last := rows[|rows| - 1];
      StrandedIds(rows[..|rows| - 1]) + if Stranded(last) then [last.logical.m] else []
  }

  /** The listing is cut at the store's default limit. */
  function Listing(s: Store): seq<nat> {
    var ids := StrandedIds(s.rows);
    if |ids| <= LIST_LIMIT then ids else ids[..LIST_LIMIT]
  }

  lemma {:induction false} StrandedIdsAreExact(rows: seq<Row>)
    requires Unique(rows)
    ensures forall i :: 0 <= i < |rows| && Stranded(rows[i]) ==> rows[i].logical.m in StrandedIds(rows)
    ensures forall j, k :: 0 <= j < k < |StrandedIds(rows)| ==> StrandedIds(rows)[j] != StrandedIds(rows)[k]
  {
    if rows != [] {
      var n := |rows| - 1;
      StrandedIdsAreExact(rows[..n]);
      var ids := StrandedIds(rows[..n]);
      if Stranded(rows[n]) {
        forall k | 0 <= k < |ids| ensures ids[k] != rows[n].logical.m {
          var i :| 0 <= i < n && rows[..n][i].logical == FromPeer(ids[k]);
          assert rows[i].logical != rows[n].logical;
        }
      }
      forall i | 0 <= i < |rows| && Stranded(rows[i]) ensures rows[i].logical.m in StrandedIds(rows) {
        if i < n {
          assert rows[..n][i] == rows[i];
        }
      }
    }
  }

  /** Between `discovered` and `received`, where an interrupted pass may leave a message. */
  predicate HalfWay(s: Store, m: nat) {
    Has(s, FromPeer(m)) && RowOf(s, FromPeer(m)).state in {Downloading, Decrypting}
  }

  lemma StrandedInIds(s: Store, m: nat)
    requires Inv(s)
    ensures StrandedIn(s, m) <==> m in StrandedIds(s.rows)
    ensures StrandedIn(s, m) <==> HalfWay(s, m)
  {
    StrandedIdsAreExact(s.rows);
    if m in StrandedIds(s.rows) {
      var i :| 0 <= i < |s.rows| && s.rows[i].logical == FromPeer(m) && Stranded(s.rows[i]);
      FindUnique(s.rows, i);
    }
  }

  /** Received, notified, and answered if the source cell is known. */
  predicate Healed(t: Store, m: nat) {
    && Has(t, FromPeer(m)) && RowOf(t, FromPeer(m)).state == Received && m in t.notices
    && (RowOf(t, FromPeer(m)).ref.Some?
        ==> Has(t, Response(m)) && RowOf(t, Response(m)).replyTo == RowOf(t, FromPeer(m)).ref)
  }

  lemma HealOne(s: Store, m: nat)
    requires Inv(s) && StrandedIn(s, m)
    ensures var t := After(s, HealOps(s, m));
            && Inv(t) && Later(s, t)
            && (forall k :: StrandedIn(t, k) <==> StrandedIn(s, k) && k != m)
            && Healed(t, m) && (forall k :: Healed(s, k) ==> Healed(t, k))
  {
    HealIsCautious(s, m);
    PartialPassKeeps(s, HealOps(s, m), |HealOps(s, m)|);
    assert Prefix(HealOps(s, m), |HealOps(s, m)|) == HealOps(s, m);
    assert m == After(s, HealOps(s, m)).notices[|s.notices|];
  }

  /** The rows still stranded when the first `i` of the listing have been healed. */
  ghost predicate LeftOver(t: Store, ids: seq<nat>, i: nat) {
    i <= |ids|
    && (forall m :: StrandedIn(t, m) <==> m in ids[i..])
    && (forall j :: 0 <= j < i ==> Healed(t, ids[j]))
  }

  lemma HealNext(t: Store, ids: seq<nat>, i: nat)
    requires Inv(t) && i < |ids| && LeftOver(t, ids, i)
    requires forall j, k :: 0 <= j < k < |ids| ==> ids[j] != ids[k]
    ensures Inv(After(t, HealOps(t, ids[i]))) && Later(t, After(t, HealOps(t, ids[i])))
    ensures LeftOver(After(t, HealOps(t, ids[i])), ids, i + 1)
  {
    assert ids[i..] == [ids[i]] + ids[i + 1..];
    assert ids[i] in ids[i..] && ids[i] !in ids[i + 1..];
    assert forall m :: m in ids[i..] && m != ids[i] <==> m in ids[i + 1..];
    HealOne(t, ids[i]);
  }

  /** The healer. Every listed row is received, notified and answered afterwards. A pass leaves nothing at
      `downloading` or `decrypting` exactly when the listing was not cut: at most 500 rows were
      stranded. */
  method HealStrandedIncoming(s: Store) returns (t: Store)
    requires Inv(s)
    ensures Inv(t) && Later(s, t)
    ensures forall m :: m in Listing(s) ==> Healed(t, m)
    ensures forall m :: m in StrandedIds(s.rows) <==> HalfWay(s, m)
    ensures forall j, k :: 0 <= j < k < |StrandedIds(s.rows)| ==> StrandedIds(s.rows)[j] != StrandedIds(s.rows)[k]
    ensures (forall m :: !HalfWay(t, m)) <==> |StrandedIds(s.rows)| <= 500
  {
    t := s;
    var stranded := Listing(s);
    ghost var ids := StrandedIds(s.rows);
    forall m ensures (StrandedIn(s, m) <==> m in ids) && (StrandedIn(s, m) <==> HalfWay(s, m)) {
      StrandedInIds(s, m);
    }
    StrandedIdsAreExact(s.rows);
    var i := 0;
    while i < |stranded|
      invariant 0 <= i <= |stranded| && Inv(t) && Later(s, t) && LeftOver(t, ids, i)
    {
      HealNext(t, ids, i);
      LaterTwice(s, t, After(t, HealOps(t, stranded[i])));
      t := After(t, HealOps(t, stranded[i]));
      i := i + 1;
    }
    forall m ensures StrandedIn(t, m) <==> HalfWay(t, m) { StrandedInIds(t, m); }
    if |ids| > LIST_LIMIT {
      assert StrandedIn(t, ids[i..][0]);
    }
  }
}
