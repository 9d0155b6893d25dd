/** Two devices that answer each other: ingestion and the response sender on both sides of a
    network that may deliver anything late, repeatedly or never. Acknowledgements answer content
    and are themselves never answered, so a bounded number of user messages makes a bounded number
    of logical messages in every run. */
module Exchange {
  import opened Options
  import opened MessageStates
  import opened Ingestion
  import R = Receipts

  /** What one logical message of a device puts on chain. `receipts` confirm messages by their ids. */
  datatype Envelope = Envelope(from: bool, logical: LogicalId, text: string, receipts: seq<R.Receipt>)

  /** An empty body with receipts: advances the sender's rows and is neither shown nor answered. */
  predicate PureAck(e: Envelope) {
    |e.text| == 0 && |e.receipts| > 0
  }

  /** `sends` says which device composed a message id; ids are random, so no two are equal. */
  datatype World = World(left: Store, right: Store, sends: map<nat, bool>, envelopes: set<Envelope>)

  function StoreOf(w: World, d: bool): Store {
    if d then w.left else w.right
  }

  function WithStore(w: World, d: bool, s: Store): World {
    if d then w.(left := s) else w.(right := s)
  }

  datatype Event =
    | UserSend(d: bool, n: nat, text: string, receipts: seq<R.Receipt>)
    | Deliver(d: bool, envelope: Envelope, source: Option<Cell>, accepted: bool, calls: nat)
    | Publish(d: bool, m: nat, kind: Kind)
    | Local(d: bool, local: Ingestion.Event)

  datatype Kind = Receipt01 | Receipt05

  /** The row a receipt of either kind is queued under. */
  function ResponseId(kind: Kind, m: nat): LogicalId {
    if kind.Receipt01? then Response(m) else AttachmentAck(m)
  }

  /** The one receipt such a row is published with. */
  function ReceiptOf(kind: Kind, m: nat): R.Receipt {
    R.Receipt(m, if kind.Receipt01? then 0x01 else 0x05)
  }

  /** `accepted` is false for a blocked sender and over the rate limit. */
  function Receive(s: Store, e: Envelope, source: Option<Cell>, accepted: bool, calls: nat): Store {
    if PureAck(e) || !accepted then s
    else
      var id := match e.logical case Own(n) => n case l => l.m;
      Ingestion.Step(s, Ingest(id, source, calls))
  }

  function Step(w: World, e: Event): World {
    match e
    case UserSend(d, n, text, receipts) =>
      var envelope := Envelope(d, Own(n), text, receipts);
      if n in w.sends || PureAck(envelope) then w
      else
        WithStore(w, d, Ingestion.Step(StoreOf(w, d), Compose(n)))
          .(sends := w.sends[n := d], envelopes := w.envelopes + {envelope})
    case Deliver(d, envelope, source, accepted, calls) =>
      if envelope in w.envelopes && envelope.from != d
      then WithStore(w, d, Receive(StoreOf(w, d), envelope, source, accepted, calls)) else w
    case Publish(d, m, kind) =>
      var s, l := StoreOf(w, d), ResponseId(kind, m);
      if Has(s, l) && RowOf(s, l).state == Queued && RowOf(s, l).replyTo.Some? && Has(s, FromPeer(m))
      then w.(envelopes := w.envelopes + {Envelope(d, l, "", [ReceiptOf(kind, m)])}) else w
    case Local(d, local) =>
      if local.Heal? || local.Confirm? || local.RowMoves?
      then WithStore(w, d, Ingestion.Step(StoreOf(w, d), local)) else w
  }

  function Run(w: World, events: seq<Event>): World
    decreases |events|
  {
    if events == [] then w else Run(Step(w, events[0]), events[1..])
  }

  const Start := World(Empty, Empty, map[], {})

  function UserSends(events: seq<Event>): nat {
    if events == [] then 0 else (if events[0].UserSend? then 1 else 0) + UserSends(events[1..])
  }

  // ---------------------------------------------------------------- what a pass adds

  lemma CallAdds(s: Store, op: Op)
    requires Unique(s.rows) && Apply(s, op).Some?
    ensures Unique(Apply(s, op).value.rows)
    ensures forall k :: Has(Apply(s, op).value, k) ==> Has(s, k) || (op.Insert? && op.l == k)
  {
    match op
    case Insert(l, state) => InsertKeeps(s, l, state);
    case SetRef(l, cell) => ReplaceKeeps(s, l, RowOf(s, l).(ref := Some(cell)));
    case SetReplyTo(l, cell) => ReplaceKeeps(s, l, RowOf(s, l).(replyTo := Some(cell)));
    case To(l, state) => ReplaceKeeps(s, l, RowOf(s, l).(state := state));
    case Notify(_) =>
  }

  ghost predicate Inserts(ops: seq<Op>, k: LogicalId) {
    exists i :: 0 <= i < |ops| && ops[i].Insert? && ops[i].l == k
  }

  lemma {:induction false} PassAdds(s: Store, ops: seq<Op>)
    requires Unique(s.rows)
    ensures forall k :: Has(After(s, ops), k) ==> Has(s, k) || Inserts(ops, k)
    decreases |ops|
  {
    if ops != [] && Apply(s, ops[0]).Some? {
      var t := Apply(s, ops[0]).value;
      CallAdds(s, ops[0]);
      PassAdds(t, ops[1..]);
      forall k | Has(After(s, ops), k) ensures Has(s, k) || Inserts(ops, k) {
        if !Has(s, k) && Has(After(t, ops[1..]), k) && !Has(t, k) {
          var i :| 0 <= i < |ops[1..]| && ops[1..][i].Insert? && ops[1..][i].l == k;
          assert ops[i + 1].Insert? && ops[i + 1].l == k;
        }
      }
    }
  }

  lemma AdvanceInserts(s: Store, m: nat, from: State, cell: Option<Cell>, k: LogicalId)
    requires Inserts(AdvanceOps(s, m, from, cell), k)
    ensures k == Response(m)
  {
    var ops := AdvanceOps(s, m, from, cell);
    var steps := AdvanceSteps(FromPeer(m), from);
    var tail := [Notify(m)] + AckOps(s, m, cell);
    assert ops == steps + tail;
    var i :| 0 <= i < |ops| && ops[i].Insert? && ops[i].l == k;
    StepsInsertNothing(m, from);
    assert i >= |steps| && ops[i] == tail[i - |steps|];
  }

  lemma StepsInsertNothing(m: nat, from: State)
    ensures forall j :: 0 <= j < |AdvanceSteps(FromPeer(m), from)| ==> AdvanceSteps(FromPeer(m), from)[j].To?
  {
  }

  lemma PrefixInserts(ops: seq<Op>, calls: nat, k: LogicalId)
    requires Inserts(Prefix(ops, calls), k)
    ensures Inserts(ops, k)
  {
    var i :| 0 <= i < |Prefix(ops, calls)| && Prefix(ops, calls)[i].Insert? && Prefix(ops, calls)[i].l == k;
    assert ops[i].Insert? && ops[i].l == k;
  }

  lemma IngestInserts(s: Store, m: nat, source: Option<Cell>, k: LogicalId)
    requires Inserts(IngestOps(s, m, source), k)
    ensures k == FromPeer(m) || k == Response(m)
  {
    var ops := IngestOps(s, m, source);
    var from := if Has(s, FromPeer(m)) then RowOf(s, FromPeer(m)).state else Discovered;
    var tail := AdvanceOps(s, m, from, source);
    var i :| 0 <= i < |ops| && ops[i].Insert? && ops[i].l == k;
    if k != FromPeer(m) {
      var j := i - (|ops| - |tail|);
      assert tail[j] == ops[i];
      AdvanceInserts(s, m, from, source, k);
    }
  }

  /** The ids a local event or an ingest pass can add: no content row of the peer's except the one
      being ingested, no row of the user's own. */
  lemma IngestAdds(s: Store, m: nat, source: Option<Cell>, calls: nat, k: LogicalId)
    requires Unique(s.rows)
    ensures Has(Ingestion.Step(s, Ingest(m, source, calls)), k) && !Has(s, k) ==> k == FromPeer(m) || k == Response(m)
  {
    var ops := Prefix(IngestOps(s, m, source), calls);
    PassAdds(s, ops);
    if Inserts(ops, k) {
      PrefixInserts(IngestOps(s, m, source), calls, k);
      IngestInserts(s, m, source, k);
    }
  }

  lemma LocalAdds(s: Store, e: Ingestion.Event, k: LogicalId)
    requires Unique(s.rows) && (e.Heal? || e.Confirm? || e.RowMoves?)
    ensures Has(Ingestion.Step(s, e), k) && !Has(s, k) ==> k.Response? || k.AttachmentAck?
  {
    if e.RowMoves? && MayMove(s, e.l, e.state) {
      ReplaceKeeps(s, e.l, RowOf(s, e.l).(state := e.state));
    } else if e.Heal? {
      var ops := Prefix(HealOps(s, e.m), e.calls);
      PassAdds(s, ops);
      if Inserts(ops, k) {
        PrefixInserts(HealOps(s, e.m), e.calls, k);
        AdvanceInserts(s, e.m, RowOf(s, FromPeer(e.m)).state, RowOf(s, FromPeer(e.m)).ref, k);
      }
    } else if e.Confirm? {
      var ops := Prefix(ConfirmOps(s, e.m), e.calls);
      PassAdds(s, ops);
      if Inserts(ops, k) {
        PrefixInserts(ConfirmOps(s, e.m), e.calls, k);
      }
    }
  }

  lemma ComposeAdds(s: Store, n: nat)
    requires Unique(s.rows)
    ensures forall k :: Has(Ingestion.Step(s, Compose(n)), k) <==> Has(s, k) || k == Own(n)
  {
    InsertKeeps(s, Own(n), Draft);
    var t := Apply(s, Insert(Own(n), Draft)).value;
    assert ApplyAll(s, [Insert(Own(n), Draft)]) == ApplyAll(t, []);
  }

  // ---------------------------------------------------------------- the invariant

  /** The content message an id is about. */
  function Subject(l: LogicalId): nat {
    match l case Own(n) => n case FromPeer(m) => m case Response(m) => m case AttachmentAck(m) => m
  }

  /** The id belongs on device `d`: content composed there, everything else about content the
      other device composed. */
  predicate Belongs(w: World, d: bool, l: LogicalId) {
    Subject(l) in w.sends && (w.sends[Subject(l)] == d <==> l.Own?)
  }

  ghost predicate StoreOk(w: World, d: bool) {
    Ingestion.Inv(StoreOf(w, d)) && forall k :: Has(StoreOf(w, d), k) ==> Belongs(w, d, k)
  }

  predicate EnvelopeOk(w: World, e: Envelope) {
    && Belongs(w, e.from, e.logical)
    && !e.logical.FromPeer?
    && (PureAck(e) <==> !e.logical.Own?)
    && (PureAck(e) ==> e.receipts == [R.Receipt(e.logical.m, if e.logical.Response? then 0x01 else 0x05)])
    && Has(StoreOf(w, e.from), e.logical)
  }

  ghost predicate Inv(w: World) {
    && StoreOk(w, true) && StoreOk(w, false)
    && forall e :: e in w.envelopes ==> EnvelopeOk(w, e)
  }

  lemma StoreChange(w: World, d: bool, t: Store)
    requires Inv(w) && Ingestion.Inv(t) && Later(StoreOf(w, d), t)
    requires forall k :: Has(t, k) && !Has(StoreOf(w, d), k) ==> Belongs(w, d, k)
    ensures Inv(WithStore(w, d, t))
  {
    var v := WithStore(w, d, t);
    assert StoreOf(v, d) == t && StoreOf(v, !d) == StoreOf(w, !d);
    forall k | Has(t, k) ensures Belongs(v, d, k) {
      assert Belongs(w, d, k);
    }
    forall e | e in v.envelopes ensures EnvelopeOk(v, e) {
      assert EnvelopeOk(w, e);
    }
  }

  lemma SendKeeps(w: World, e: Event)
    requires Inv(w) && e.UserSend?
    ensures Inv(Step(w, e))
  {
    var envelope := Envelope(e.d, Own(e.n), e.text, e.receipts);
    if e.n !in w.sends && !PureAck(envelope) {
      var s := StoreOf(w, e.d);
      var u := w.(sends := w.sends[e.n := e.d]);
      assert forall d, k :: Belongs(w, d, k) ==> Belongs(u, d, k);
      assert Inv(u) by {
        assert forall x: Envelope :: x in w.envelopes ==> EnvelopeOk(w, x) && EnvelopeOk(u, x);
      }
      ComposeAdds(s, e.n);
      Ingestion.StepKeeps(s, Compose(e.n));
      StoreChange(u, e.d, Ingestion.Step(s, Compose(e.n)));
      var v := WithStore(u, e.d, Ingestion.Step(s, Compose(e.n)));
      assert Inv(v) && EnvelopeOk(v, envelope);
      assert Step(w, e) == v.(envelopes := v.envelopes + {envelope});
    }
  }

  lemma DeliverKeeps(w: World, e: Event)
    requires Inv(w) && e.Deliver?
    ensures Inv(Step(w, e))
  {
    if e.envelope in w.envelopes && e.envelope.from != e.d {
      var s := StoreOf(w, e.d);
      assert EnvelopeOk(w, e.envelope);
      if PureAck(e.envelope) || !e.accepted {
        assert WithStore(w, e.d, s) == w;
      } else {
        var m := e.envelope.logical.n;
        Ingestion.StepKeeps(s, Ingest(m, e.source, e.calls));
        var t := Ingestion.Step(s, Ingest(m, e.source, e.calls));
        forall k | Has(t, k) && !Has(s, k) ensures Belongs(w, e.d, k) {
          IngestAdds(s, m, e.source, e.calls, k);
        }
        StoreChange(w, e.d, t);
      }
    }
  }

  lemma LocalKeeps(w: World, e: Event)
    requires Inv(w) && (e.Local? || e.Publish?)
    ensures Inv(Step(w, e))
  {
    if e.Local? && (e.local.Heal? || e.local.Confirm? || e.local.RowMoves?) {
      var s := StoreOf(w, e.d);
      Ingestion.StepKeeps(s, e.local);
      var t := Ingestion.Step(s, e.local);
      forall k | Has(t, k) && !Has(s, k) ensures Belongs(w, e.d, k) {
        LocalBelongs(w, e.d, e.local, k);
      }
      StoreChange(w, e.d, t);
    }
  }

  lemma LocalBelongs(w: World, d: bool, e: Ingestion.Event, k: LogicalId)
    requires Inv(w) && (e.Heal? || e.Confirm? || e.RowMoves?)
    requires Ingestion.Inv(Ingestion.Step(StoreOf(w, d), e))
    requires Has(Ingestion.Step(StoreOf(w, d), e), k) && !Has(StoreOf(w, d), k)
    ensures Belongs(w, d, k)
  {
    LocalAdds(StoreOf(w, d), e, k);
    assert Has(Ingestion.Step(StoreOf(w, d), e), FromPeer(k.m));
    LocalAdds(StoreOf(w, d), e, FromPeer(k.m));
    assert Belongs(w, d, FromPeer(k.m));
  }

  lemma {:induction false} RunKeeps(w: World, events: seq<Event>)
    requires Inv(w)
    ensures Inv(Run(w, events)) && |Run(w, events).sends| <= |w.sends| + UserSends(events)
    decreases |events|
  {
    if events != [] {
      var e := events[0];
      if e.UserSend? {
        SendKeeps(w, e);
      } else if e.Deliver? {
        DeliverKeeps(w, e);
      } else {
        LocalKeeps(w, e);
      }
      RunKeeps(Step(w, e), events[1..]);
    }
  }

  // ---------------------------------------------------------------- counting

  type Placed = (bool, LogicalId)

  ghost predicate AllBelong(w: World, items: set<Placed>) {
    forall x: Placed :: x in items ==> Belongs(w, x.0, x.1)
  }

  function AboutOne(d: bool, n: nat): set<Placed> {
    {(d, Own(n)), (!d, FromPeer(n)), (!d, Response(n)), (!d, AttachmentAck(n))}
  }

  lemma AboutThatOne(w: World, x: Placed, n: nat)
    requires n in w.sends && Belongs(w, x.0, x.1)
    ensures Subject(x.1) == n <==> x in AboutOne(w.sends[n], n)
  {
  }

  /** Four ids at most go with one content message: its own row and, on the other device, the
      received row and the two acknowledgements; three if received rows are left out. */
  /** The part of the items that is about one content message. */
  lemma AboutOneCount(items: set<Placed>, d: bool, n: nat)
    ensures |items * AboutOne(d, n)| <= 4
    ensures (forall x: Placed :: x in items ==> !x.1.FromPeer?) ==> |items * AboutOne(d, n)| <= 3
  {
    SubsetSize(items * AboutOne(d, n), AboutOne(d, n));
    if forall x: Placed :: x in items ==> !x.1.FromPeer? {
      SubsetSize(items * AboutOne(d, n), {(d, Own(n)), (!d, Response(n)), (!d, AttachmentAck(n))});
    }
  }

  lemma OthersBelong(w: World, items: set<Placed>, n: nat)
    requires AllBelong(w, items) && n in w.sends
    ensures AllBelong(w.(sends := w.sends - {n}), items - AboutOne(w.sends[n], n))
  {
    forall x: Placed | x in items - AboutOne(w.sends[n], n) ensures Belongs(w.(sends := w.sends - {n}), x.0, x.1) {
      AboutThatOne(w, x, n);
    }
  }

  lemma SplitCount(items: set<Placed>, one: set<Placed>)
    ensures |items| == |items * one| + |items - one|
  {
    assert items == items * one + (items - one);
  }

  /** Four ids at most go with one content message: its own row and, on the other device, the
      received row and the two acknowledgements; three if received rows are left out. */
  lemma {:induction false} AtMostFourEach(w: World, items: set<Placed>)
    requires AllBelong(w, items)
    ensures |items| <= 4 * |w.sends|
    ensures (forall x: Placed :: x in items ==> !x.1.FromPeer?) ==> |items| <= 3 * |w.sends|
    decreases |w.sends|
  {
    if w.sends == map[] {
      assert items == {};
    } else {
      var n :| n in w.sends;
      OthersBelong(w, items, n);
      AtMostFourEach(w.(sends := w.sends - {n}), items - AboutOne(w.sends[n], n));
      AboutOneCount(items, w.sends[n], n);
      SplitCount(items, AboutOne(w.sends[n], n));
    }
  }

  lemma {:induction false} SubsetSize<T>(a: set<T>, b: set<T>)
    requires a <= b
    ensures |a| <= |b|
  {
    if a != {} {
      var x :| x in a;
      SubsetSize(a - {x}, b - {x});
    }
  }

  function RowIds(d: bool, rows: seq<Row>): set<Placed> {
    set i | 0 <= i < |rows| :: (d, rows[i].logical)
  }

  lemma {:induction false} RowIdsCount(d: bool, rows: seq<Row>)
    requires Unique(rows)
    ensures |RowIds(d, rows)| == |rows|
  {
    if rows != [] {
      var n := |rows| - 1;
      RowIdsCount(d, rows[..n]);
      assert RowIds(d, rows) == RowIds(d, rows[..n]) + {(d, rows[n].logical)};
      assert (d, rows[n].logical) !in RowIds(d, rows[..n]);
    }
  }

  function Logicals(w: World): set<Placed> {
    set e | e in w.envelopes :: (e.from, e.logical)
  }

  /** In every run, however often messages are delivered, rescanned, healed and answered: the two
      devices together hold at most four rows, and send at most three logical messages, for each
      message a user sent. */
  lemma TheExchangeIsBounded(events: seq<Event>)
    ensures var w := Run(Start, events);
            && |w.left.rows| + |w.right.rows| <= 4 * UserSends(events)
            && |Logicals(w)| <= 3 * UserSends(events)
  {
    RunKeeps(Start, events);
    var w := Run(Start, events);
    var l, r := RowIds(true, w.left.rows), RowIds(false, w.right.rows);
    RowIdsCount(true, w.left.rows);
    RowIdsCount(false, w.right.rows);
    forall x: Placed | x in l + r ensures Belongs(w, x.0, x.1) {
      RowBelongs(w, x);
    }
    AtMostFourEach(w, l + r);
    assert l !! r;
    forall x: Placed | x in Logicals(w) ensures Belongs(w, x.0, x.1) && !x.1.FromPeer? {
      var e :| e in w.envelopes && x == (e.from, e.logical);
      assert EnvelopeOk(w, e);
    }
    AtMostFourEach(w, Logicals(w));
  }

  lemma RowBelongs(w: World, x: Placed)
    requires Inv(w) && (x in RowIds(true, w.left.rows) || x in RowIds(false, w.right.rows))
    ensures Belongs(w, x.0, x.1)
  {
    var rows := StoreOf(w, x.0).rows;
    var i :| 0 <= i < |rows| && rows[i].logical == x.1;
    FindUnique(rows, i);
  }

  /** Acknowledgements end the exchange: what a device received, answered or confirmed is content
      the other device's user composed; an envelope is a pure acknowledgement exactly when it is
      not content; and every acknowledgement on chain answers content the answering device holds,
      with the one receipt of its kind. */
  lemma OnlyContentIsAnswered(events: seq<Event>, d: bool, m: nat)
    ensures var w := Run(Start, events);
            && (Has(StoreOf(w, d), FromPeer(m)) || Has(StoreOf(w, d), Response(m))
                || Has(StoreOf(w, d), AttachmentAck(m))
                ==> m in w.sends && w.sends[m] != d && Has(StoreOf(w, d), FromPeer(m)))
            && (forall e :: e in w.envelopes ==> (PureAck(e) <==> !e.logical.Own?))
            && (forall e :: e in w.envelopes && PureAck(e)
                  ==> Subject(e.logical) in w.sends && w.sends[Subject(e.logical)] != e.from
                      && Has(StoreOf(w, e.from), FromPeer(Subject(e.logical)))
                      && e.receipts == [R.Receipt(Subject(e.logical), if e.logical.Response? then 0x01 else 0x05)])
  {
    RunKeeps(Start, events);
    var w := Run(Start, events);
    HeldIsContent(w, d, m);
    forall e | e in w.envelopes
      ensures PureAck(e) <==> !e.logical.Own?
      ensures PureAck(e)
        ==> Subject(e.logical) in w.sends && w.sends[Subject(e.logical)] != e.from
            && Has(StoreOf(w, e.from), FromPeer(Subject(e.logical)))
            && e.receipts == [R.Receipt(Subject(e.logical), if e.logical.Response? then 0x01 else 0x05)]
    {
      assert EnvelopeOk(w, e);
      HeldIsContent(w, e.from, Subject(e.logical));
    }
  }

  lemma HeldIsContent(w: World, d: bool, m: nat)
    requires Inv(w)
    ensures Has(StoreOf(w, d), FromPeer(m)) || Has(StoreOf(w, d), Response(m)) || Has(StoreOf(w, d), AttachmentAck(m))
      ==> m in w.sends && w.sends[m] != d && Has(StoreOf(w, d), FromPeer(m))
  {
    assert StoreOk(w, d);
    assert Has(StoreOf(w, d), FromPeer(m)) ==> Belongs(w, d, FromPeer(m));
  }

  /** Delivering an acknowledgement changes no table. */
  lemma AcksAreNeverAnswered(events: seq<Event>, e: Event)
    requires e.Deliver? && e.envelope in Run(Start, events).envelopes && !e.envelope.logical.Own?
    ensures Step(Run(Start, events), e) == Run(Start, events)
  {
    RunKeeps(Start, events);
    assert EnvelopeOk(Run(Start, events), e.envelope);
  }

  // ---------------------------------------------------------------- what does happen

  /** What a user sends is on chain and in the sender's table, once for each id, unless it is an empty
      body with receipts. */
  lemma SentIsOnChain(events: seq<Event>, d: bool, n: nat, text: string, receipts: seq<R.Receipt>)
    requires n !in Run(Start, events).sends && (text != "" || receipts == [])
    ensures var v := Step(Run(Start, events), UserSend(d, n, text, receipts));
            && n in v.sends && v.sends[n] == d && Envelope(d, Own(n), text, receipts) in v.envelopes
            && Has(StoreOf(v, d), Own(n))
  {
    RunKeeps(Start, events);
    ComposeAdds(StoreOf(Run(Start, events), d), n);
  }

  lemma PassInFull(s: Store, m: nat, source: Option<Cell>, calls: nat)
    requires calls >= 8
    ensures Ingestion.Step(s, Ingest(m, source, calls)) == After(s, IngestOps(s, m, source))
  {
  }

  /** A row queued for its cell is published as the envelope of its kind, and nothing else happens. */
  lemma QueuedIsPublished(w: World, d: bool, m: nat, kind: Kind, cell: Cell)
    requires var s := StoreOf(w, d); var l := ResponseId(kind, m);
             Has(s, FromPeer(m)) && Has(s, l) && RowOf(s, l) == Row(l, Queued, None, Some(cell))
    ensures var receipt := R.Receipt(m, if kind.Receipt01? then 0x01 else 0x05);
            Step(w, Publish(d, m, kind))
            == w.(envelopes := w.envelopes + {Envelope(d, ResponseId(kind, m), "", [receipt])})
  {
  }

  /** What a full pass from the chain leaves in the table. */
  ghost predicate ReceivedFrom(s: Store, t: Store, n: nat, cell: Cell) {
    && Has(t, FromPeer(n)) && RowOf(t, FromPeer(n)).state == Received && RowOf(t, FromPeer(n)).ref == Some(cell)
    && t.notices == s.notices + [n]
    && Has(t, Response(n)) && RowOf(t, Response(n)) == Row(Response(n), Queued, None, Some(cell))
  }

  lemma PassReceives(s: Store, n: nat, cell: Cell, calls: nat)
    requires Ingestion.Inv(s) && !Arrived(s, n) && calls >= 8
    ensures ReceivedFrom(s, Ingestion.Step(s, Ingest(n, Some(cell), calls)), n, cell)
  {
    PassInFull(s, n, Some(cell), calls);
    IngestIsCautious(s, n, Some(cell));
    assert !Has(s, Response(n));
  }

  lemma DeliveredTo(w: World, d: bool, n: nat, text: string, receipts: seq<R.Receipt>, source: Option<Cell>, calls: nat)
    requires Inv(w) && Envelope(!d, Own(n), text, receipts) in w.envelopes
    ensures Step(w, Deliver(d, Envelope(!d, Own(n), text, receipts), source, true, calls))
            == WithStore(w, d, Ingestion.Step(StoreOf(w, d), Ingest(n, source, calls)))
  {
    assert EnvelopeOk(w, Envelope(!d, Own(n), text, receipts));
  }

  /** Content that is delivered from the chain and accepted, in a pass that is not cut off, is answered:
      the row is received, notified and names its cell, and the response sender then puts exactly one
      `0x01` receipt for it on chain. */
  lemma ContentIsAnswered(events: seq<Event>, d: bool, n: nat, text: string, receipts: seq<R.Receipt>, cell: Cell,
        calls: nat)
    requires var w := Run(Start, events);
             Envelope(!d, Own(n), text, receipts) in w.envelopes && !Arrived(StoreOf(w, d), n) && calls >= 8
    ensures var w := Run(Start, events);
            var v := Step(w, Deliver(d, Envelope(!d, Own(n), text, receipts), Some(cell), true, calls));
            && ReceivedFrom(StoreOf(w, d), StoreOf(v, d), n, cell) && StoreOf(v, !d) == StoreOf(w, !d)
            && Step(v, Publish(d, n, Receipt01))
               == v.(envelopes := v.envelopes + {Envelope(d, Response(n), "", [R.Receipt(n, 0x01)])})
  {
    RunKeeps(Start, events);
    var w := Run(Start, events);
    DeliveredTo(w, d, n, text, receipts, Some(cell), calls);
    PassReceives(StoreOf(w, d), n, cell, calls);
    QueuedIsPublished(WithStore(w, d, Ingestion.Step(StoreOf(w, d), Ingest(n, Some(cell), calls))), d, n, Receipt01,
                      cell);
  }

  lemma ConfirmQueues(s: Store, m: nat, cell: Cell, calls: nat)
    requires Ingestion.Inv(s) && Has(s, FromPeer(m)) && RowOf(s, FromPeer(m)).ref == Some(cell)
    requires !Has(s, AttachmentAck(m)) && calls >= 2
    ensures var t := Ingestion.Step(s, Confirm(m, calls)); var l := AttachmentAck(m);
            Has(t, FromPeer(m)) && Has(t, l) && RowOf(t, l) == Row(l, Queued, None, Some(cell))
  {
    assert Prefix(ConfirmOps(s, m), calls) == ConfirmOps(s, m);
    ConfirmationQueued(s, m, cell);
  }

  /** A downloaded attachment is confirmed by exactly one `0x05` receipt. */
  lemma DownloadsAreConfirmed(events: seq<Event>, d: bool, m: nat, cell: Cell, calls: nat)
    requires var s := StoreOf(Run(Start, events), d);
             Has(s, FromPeer(m)) && RowOf(s, FromPeer(m)).ref == Some(cell) && !Has(s, AttachmentAck(m)) && calls >= 2
    ensures var v := Step(Run(Start, events), Local(d, Confirm(m, calls)));
            Step(v, Publish(d, m, Receipt05))
            == v.(envelopes := v.envelopes + {Envelope(d, AttachmentAck(m), "", [R.Receipt(m, 0x05)])})
  {
    RunKeeps(Start, events);
    var w := Run(Start, events);
    ConfirmQueues(StoreOf(w, d), m, cell, calls);
    ConfirmedTo(w, d, m, calls);
    QueuedIsPublished(Step(w, Local(d, Confirm(m, calls))), d, m, Receipt05, cell);
  }

  lemma ConfirmedTo(w: World, d: bool, m: nat, calls: nat)
    ensures StoreOf(Step(w, Local(d, Confirm(m, calls))), d) == Ingestion.Step(StoreOf(w, d), Confirm(m, calls))
  {
  }
}
