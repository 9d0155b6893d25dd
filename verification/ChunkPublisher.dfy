/** Publishing the chunk cells of one attachment: journal, broadcast, and a resume that looks at
    submitted records only. Every await is one step and a crash or a throw may come at any of them;
    calls do not overlap. The waits that only inform the coin selector or the ledger are left out. */
module ChunkPublisher {
  import opened Options
  import opened Chain
  import opened Journal

  /** A record under the purpose `attachment-chunks:<id>` with the signed transaction that a resume
      sends again. */
  type Entry = Record<Option<Tx>>

  datatype Pc =
    | Idle | Find
    | ResumeAsk(tx: Tx, stored: Option<Tx>) | ResumeSend(tx: Tx, wire: Tx) | ResumeWait(tx: Tx)
    | MarkAbandoned(tx: Tx) | MarkCommitted(tx: Tx)
    | Build | JournalTx(tx: Tx) | Send(tx: Tx) | Wait(tx: Tx)

  /** `repeats` counts the calls that found the latest record already committed. */
  datatype World = World(chain: Chain, journal: seq<Entry>, pc: Pc, repeats: nat)

  datatype Event =
    | Call
    | Crash                                            // or a throw
    | Done
    | Answer(status: Status)
    | Sent(result: SendResult, delivered: bool)
    | Built(tx: Tx)
    | Elsewhere(move: ChainEvent)
    | WorkerMark(tx: Tx, status: Status)

  predicate FindsCommitted(w: World) {
    w.pc == Find && w.journal != [] && w.journal[|w.journal| - 1].state == CommittedTx
  }

  /** The latest record decides: submitted is resumed; committed, rejected and abandoned ones are all
      answered by a fresh build. */
  function Found(w: World): World {
    if w.journal != [] && w.journal[|w.journal| - 1].state == Submitted
    then w.(pc := ResumeAsk(w.journal[|w.journal| - 1].tx, w.journal[|w.journal| - 1].details))
    else w.(pc := Build, repeats := if FindsCommitted(w) then w.repeats + 1 else w.repeats)
  }

  function Returns(w: World): World {
    match w.pc
    case Find => Found(w)
    case MarkAbandoned(tx) => w.(journal := Marked(w.journal, tx, Abandoned), pc := Build)
    case MarkCommitted(tx) => w.(journal := Marked(w.journal, tx, CommittedTx), pc := Idle)
    case JournalTx(tx) => w.(journal := Recorded(w.journal, Record(tx, Some(tx), Submitted)), pc := Send(tx))
    case _ => w
  }

  function StatusAnswered(pc: Pc, status: Status): Pc {
    match pc
    case ResumeAsk(tx, stored) =>
      (match status
       case IsCommitted => MarkCommitted(tx)
       case IsRejected => MarkAbandoned(tx)
       case InPool => ResumeWait(tx)
       case Unknown => if stored.Some? then ResumeSend(tx, stored.value) else MarkAbandoned(tx))
    case ResumeWait(tx) => WaitAnswered(pc, tx, status)
    case Wait(tx) => WaitAnswered(pc, tx, status)
    case _ => pc
  }

  function WaitAnswered(pc: Pc, tx: Tx, status: Status): Pc {
    match status
    case IsCommitted => MarkCommitted(tx)
    case IsRejected => Idle
    case _ => pc
  }

  function SendAnswered(pc: Pc, result: SendResult): Pc {
    match pc
    case ResumeSend(tx, _) =>
      if result == Accepted then ResumeWait(tx) else if result == SpentError then MarkAbandoned(tx) else Idle
    case Send(tx) => if result == Accepted then Wait(tx) else Idle
    case _ => pc
  }

  function OnTheWire(pc: Pc): Tx
    requires pc.Send? || pc.ResumeSend?
  {
    if pc.ResumeSend? then pc.wire else pc.tx
  }

  /** An answer that is possible: the node accepts under the transaction's own hash, and an error
      matched as spent is final. */
  ghost predicate CanAnswer(w: World, result: SendResult) {
    && (w.pc.Send? || w.pc.ResumeSend?)
    && (result == Accepted ==> OnTheWire(w.pc) == w.pc.tx)
    && (result == SpentError ==> Dead(w.chain, w.pc.tx))
  }

  ghost function Step(w: World, e: Event): World {
    match e
    case Call => if w.pc == Idle then w.(pc := Find) else w
    case Crash => w.(pc := Idle)
    case Done => Returns(w)
    case Built(tx) => if w.pc == Build then w.(pc := JournalTx(tx)) else w
    case Answer(status) =>
      if (w.pc.ResumeAsk? || w.pc.ResumeWait? || w.pc.Wait?) && Truthful(w.chain, w.pc.tx, status)
      then w.(pc := StatusAnswered(w.pc, status)) else w
    case Sent(result, delivered) =>
      if !CanAnswer(w, result) then w
      else
        w.(chain := if delivered || result == Accepted then Deliver(w.chain, OnTheWire(w.pc)) else w.chain,
           pc := SendAnswered(w.pc, result))
    case Elsewhere(move) => w.(chain := Evolve(w.chain, move))
    case WorkerMark(tx, status) =>
      if !Truthful(w.chain, tx, status) || (status != IsCommitted && status != IsRejected) then w
      else w.(journal := Marked(w.journal, tx, if status == IsCommitted then CommittedTx else RejectedTx))
  }

  ghost function Run(w: World, events: seq<Event>): World
    decreases |events|
  {
    if events == [] then w else Run(Step(w, events[0]), events[1..])
  }

  const Initial := World(EmptyChain, [], Idle, 0)

  // ---------------------------------------------------------------- the invariant

  /** How many journaled transactions could still be, or are, on the chain. */
  ghost function Alive(c: Chain, journal: seq<Entry>): nat {
    if journal == [] then 0
    else Alive(c, journal[..|journal| - 1]) + if Dead(c, journal[|journal| - 1].tx) then 0 else 1
  }

  function Earlier(journal: seq<Entry>): seq<Entry> {
    if journal == [] then [] else journal[..|journal| - 1]
  }

  /** Records hold their transaction, and what is marked is true of the chain. */
  ghost predicate JournalOk(c: Chain, journal: seq<Entry>) {
    forall i :: 0 <= i < |journal| ==>
      && journal[i].details == Some(journal[i].tx)
      && (journal[i].state == CommittedTx ==> journal[i].tx in c.committed)
      && (journal[i].state == RejectedTx || journal[i].state == Abandoned ==> Dead(c, journal[i].tx))
  }

  ghost predicate PcOk(c: Chain, journal: seq<Entry>, pc: Pc, repeats: nat) {
    match pc
    case Idle => true
    case Find => true
    case ResumeAsk(tx, stored) => IsLatest(journal, tx) && stored == Some(tx)
    case ResumeSend(tx, wire) => IsLatest(journal, tx) && wire == tx
    case ResumeWait(tx) => IsLatest(journal, tx)
    case MarkAbandoned(tx) => IsLatest(journal, tx) && Dead(c, tx)
    case MarkCommitted(tx) => tx in c.committed
    case Build => Alive(c, journal) <= repeats
    case JournalTx(_) => Alive(c, journal) <= repeats
    case Send(tx) => Holds(journal, tx)
    case Wait(tx) => Holds(journal, tx)
  }

  ghost predicate Inv(w: World) {
    && ChainOk(w.chain) && JournalOk(w.chain, w.journal)
    && (forall tx :: tx in w.chain.seen ==> Holds(w.journal, tx))
    && Alive(w.chain, Earlier(w.journal)) <= w.repeats
    && PcOk(w.chain, w.journal, w.pc, w.repeats)
  }

  /** Nothing comes back to life, and marks do not matter. */
  lemma {:induction false} AliveShrinks(c: Chain, a: seq<Entry>, d: Chain, b: seq<Entry>)
    requires SameTxs(a, b) && forall tx :: Dead(c, tx) ==> Dead(d, tx)
    ensures Alive(d, b) <= Alive(c, a)
    decreases |a|
  {
    if a != [] {
      AliveShrinks(c, a[..|a| - 1], d, b[..|b| - 1]);
    }
  }

  lemma HoldsStays(a: seq<Entry>, b: seq<Entry>)
    requires |a| <= |b| && forall i :: 0 <= i < |a| ==> a[i].tx == b[i].tx
    ensures forall tx :: Holds(a, tx) ==> Holds(b, tx)
  {
    forall tx | Holds(a, tx) ensures Holds(b, tx) {
      var i :| 0 <= i < |a| && a[i].tx == tx;
      assert b[i].tx == tx;
    }
  }

  /** The chain moves on, or marks change. */
  lemma OutsideKeeps(w: World, d: Chain, journal: seq<Entry>)
    requires Inv(w) && ChainOk(d) && SameTxs(w.journal, journal) && JournalOk(d, journal)
    requires w.chain.committed <= d.committed && forall tx :: Dead(w.chain, tx) ==> Dead(d, tx)
    requires forall tx :: tx in d.seen ==> Holds(w.journal, tx)
    ensures Inv(w.(chain := d, journal := journal))
    ensures Alive(d, journal) <= Alive(w.chain, w.journal)
  {
    HoldsStays(w.journal, journal);
    AliveShrinks(w.chain, w.journal, d, journal);
    AliveShrinks(w.chain, Earlier(w.journal), d, Earlier(journal));
  }

  lemma JournalStays(c: Chain, d: Chain, journal: seq<Entry>)
    requires JournalOk(c, journal) && c.committed <= d.committed && forall tx :: Dead(c, tx) ==> Dead(d, tx)
    ensures JournalOk(d, journal)
  {
  }

  lemma MarkKeeps(w: World, tx: Tx, state: JournalState)
    requires Inv(w) && state != Submitted && (state == CommittedTx ==> tx in w.chain.committed)
    requires state != CommittedTx ==> Dead(w.chain, tx)
    ensures Inv(w.(journal := Marked(w.journal, tx, state)))
    ensures Alive(w.chain, Marked(w.journal, tx, state)) <= Alive(w.chain, w.journal)
  {
    OutsideKeeps(w, w.chain, Marked(w.journal, tx, state));
  }

  lemma AliveEndsWith(c: Chain, journal: seq<Entry>)
    requires journal != []
    ensures Alive(c, journal) == Alive(c, Earlier(journal)) + if Dead(c, journal[|journal| - 1].tx) then 0 else 1
  {
  }

  lemma FindKeeps(w: World)
    requires Inv(w) && w.pc == Find
    ensures Inv(Returns(w))
  {
    if w.journal != [] {
      AliveEndsWith(w.chain, w.journal);
    }
  }

  lemma AbandonKeeps(w: World)
    requires Inv(w) && w.pc.MarkAbandoned?
    ensures Inv(Returns(w))
  {
    AliveEndsWith(w.chain, w.journal);
    MarkKeeps(w, w.pc.tx, Abandoned);
  }

  lemma JournalGrows(c: Chain, journal: seq<Entry>, tx: Tx)
    requires JournalOk(c, journal)
    ensures var longer := journal + [Record(tx, Some(tx), Submitted)];
            JournalOk(c, longer) && Earlier(longer) == journal && Holds(longer, tx)
            && forall t :: Holds(journal, t) ==> Holds(longer, t)
  {
    var longer := journal + [Record(tx, Some(tx), Submitted)];
    HoldsStays(journal, longer);
    assert longer[|journal|].tx == tx;
  }

  lemma RecordKeeps(w: World)
    requires Inv(w) && w.pc.JournalTx?
    ensures Inv(Returns(w))
  {
    if !Holds(w.journal, w.pc.tx) {
      JournalGrows(w.chain, w.journal, w.pc.tx);
      var v := Returns(w);
      assert v.journal == w.journal + [Record(w.pc.tx, Some(w.pc.tx), Submitted)];
      assert Alive(v.chain, Earlier(v.journal)) <= v.repeats;
    }
  }

  lemma ReturnKeeps(w: World)
    requires Inv(w)
    ensures Inv(Returns(w))
  {
    if w.pc.Find? {
      FindKeeps(w);
    } else if w.pc.MarkAbandoned? {
      AbandonKeeps(w);
    } else if w.pc.MarkCommitted? {
      MarkKeeps(w, w.pc.tx, CommittedTx);
    } else if w.pc.JournalTx? {
      RecordKeeps(w);
    }
  }

  lemma SentKeeps(w: World, e: Event)
    requires Inv(w) && e.Sent? && CanAnswer(w, e.result)
    ensures Inv(Step(w, e))
  {
    DeliverKeeps(w.chain, w.pc.tx);
    HoldsLatest(w.journal, w.pc.tx);
    var d := if e.delivered || e.result == Accepted then Deliver(w.chain, w.pc.tx) else w.chain;
    JournalStays(w.chain, d, w.journal);
    OutsideKeeps(w, d, w.journal);
    SentMoves(w.(chain := d), e.result);
  }

  lemma HoldsLatest(journal: seq<Entry>, tx: Tx)
    ensures IsLatest(journal, tx) ==> Holds(journal, tx)
  {
  }

  lemma SentMoves(w: World, result: SendResult)
    requires Inv(w) && (w.pc.Send? || w.pc.ResumeSend?) && (result == SpentError ==> Dead(w.chain, w.pc.tx))
    ensures Inv(w.(pc := SendAnswered(w.pc, result)))
  {
  }

  lemma StepKeeps(w: World, e: Event)
    requires Inv(w)
    ensures Inv(Step(w, e))
  {
    match e
    case Done => ReturnKeeps(w);
    case Sent(result, _) => if CanAnswer(w, result) { SentKeeps(w, e); }
    case Elsewhere(move) =>
      EvolveKeeps(w.chain, move);
      JournalStays(w.chain, Evolve(w.chain, move), w.journal);
      OutsideKeeps(w, Evolve(w.chain, move), w.journal);
    case WorkerMark(tx, status) =>
      if Truthful(w.chain, tx, status) {
        if status == IsCommitted { MarkKeeps(w, tx, CommittedTx); }
        if status == IsRejected { MarkKeeps(w, tx, RejectedTx); }
      }
    case _ =>
  }

  lemma {:induction false} RunKeeps(w: World, events: seq<Event>)
    requires Inv(w)
    ensures Inv(Run(w, events))
    decreases |events|
  {
    if events != [] {
      StepKeeps(w, events[0]);
      RunKeeps(Step(w, events[0]), events[1..]);
    }
  }

  // ---------------------------------------------------------------- the results

  /** The attachment's journaled transactions that are committed. */
  ghost function Copies(c: Chain, journal: seq<Entry>): set<Tx> {
    set tx | tx in c.committed && Holds(journal, tx)
  }

  lemma {:induction false} CopiesAreAlive(c: Chain, journal: seq<Entry>)
    ensures |Copies(c, journal)| <= Alive(c, journal)
    decreases |journal|
  {
    if journal != [] {
      var rest, last := journal[..|journal| - 1], journal[|journal| - 1].tx;
      CopiesAreAlive(c, rest);
      HoldsStays(rest, journal);
      forall tx | tx in Copies(c, journal) ensures tx in Copies(c, rest) || (tx == last && tx in c.committed) {
        var i :| 0 <= i < |journal| && journal[i].tx == tx;
        assert i < |rest| ==> rest[i].tx == tx;
      }
      if last in c.committed {
        assert Copies(c, journal) <= Copies(c, rest) + {last};
        SubsetSize(Copies(c, journal), Copies(c, rest) + {last});
      } else {
        assert Copies(c, journal) <= Copies(c, rest);
        SubsetSize(Copies(c, journal), Copies(c, rest));
      }
    } else {
      assert Copies(c, journal) == {};
    }
  }

  lemma {:induction false} SubsetSize(a: set<Tx>, b: set<Tx>)
    requires a <= b
    ensures |a| <= |b|
    decreases |a|
  {
    if a != {} {
      var x :| x in a;
      SubsetSize(a - {x}, b - {x});
    }
  }

  /** Over every run: the chunks of one attachment are committed at most once, and once more for each
      call that found the latest record already committed. */
  lemma OneUploadPerRepeat(events: seq<Event>)
    ensures var v := Run(Initial, events); |Copies(v.chain, v.journal)| <= 1 + v.repeats
  {
    RunKeeps(Initial, events);
    var v := Run(Initial, events);
    CopiesAreAlive(v.chain, v.journal);
    if v.journal != [] {
      AliveEndsWith(v.chain, v.journal);
    }
  }

  lemma StepThenRun(w: World, e: Event, rest: seq<Event>)
    ensures Run(w, [e] + rest) == Run(Step(w, e), rest)
  {
    assert ([e] + rest)[1..] == rest;
  }

  lemma SentAndAccepted(w: World, tx: Tx)
    requires w.pc == Send(tx)
    ensures Step(w, Sent(Accepted, true)) == w.(chain := Deliver(w.chain, tx), pc := Wait(tx))
  {
  }

  lemma ThreeSteps(w: World, d: Event, e: Event, f: Event)
    ensures Run(w, [d, e, f]) == Step(Step(Step(w, d), e), f)
  {
    var a := Step(w, d);
    var b := Step(a, e);
    assert [d, e, f] == [d] + ([e] + ([f] + []));
    StepThenRun(w, d, [e] + ([f] + []));
    StepThenRun(a, e, [f] + []);
    StepThenRun(b, f, []);
    assert Run(Step(b, f), []) == Step(b, f);
  }

  lemma FreshUpload(w: World, tx: Tx)
    requires w.pc == Build && !Holds(w.journal, tx)
    ensures Run(w, [Built(tx), Done, Sent(Accepted, true)])
            == w.(journal := w.journal + [Record(tx, Some(tx), Submitted)], chain := Deliver(w.chain, tx),
               pc := Wait(tx))
  {
    ThreeSteps(w, Built(tx), Done, Sent(Accepted, true));
    var journaled := w.(journal := w.journal + [Record(tx, Some(tx), Submitted)], pc := Send(tx));
    assert Step(Step(w, Built(tx)), Done) == journaled;
    SentAndAccepted(journaled, tx);
  }

  lemma {:induction false} RunAppends(w: World, a: seq<Event>, b: seq<Event>)
    ensures Run(w, a + b) == Run(Run(w, a), b)
    decreases |a|
  {
    if a == [] {
      assert a + b == b;
    } else {
      assert (a + b)[0] == a[0] && (a + b)[1..] == a[1..] + b;
      RunAppends(Step(w, a[0]), a[1..], b);
    }
  }

  /** A call that finds the latest record committed, up to the commit of what it builds. */
  function RepeatedCall(tx: Tx): seq<Event> {
    [Call] + ([Done] + ([Built(tx), Done, Sent(Accepted, true)] + [Elsewhere(Mine(tx))]))
  }

  lemma RepeatedCallRuns(w: World, tx: Tx) returns (sent: World)
    requires w.pc == Idle && FindsCommitted(w.(pc := Find)) && !Holds(w.journal, tx)
    ensures sent == World(Deliver(w.chain, tx), w.journal + [Record(tx, Some(tx), Submitted)], Wait(tx), w.repeats + 1)
    ensures Run(w, RepeatedCall(tx)) == Step(sent, Elsewhere(Mine(tx)))
  {
    var a := w.(pc := Build, repeats := w.repeats + 1);
    var upload, mine := [Built(tx), Done, Sent(Accepted, true)], [Elsewhere(Mine(tx))];
    StepThenRun(w, Call, [Done] + (upload + mine));
    StepThenRun(w.(pc := Find), Done, upload + mine);
    RunAppends(a, upload, mine);
    FreshUpload(a, tx);
    sent := Run(a, upload);
    assert mine == mine + [];
    StepThenRun(sent, Elsewhere(Mine(tx)), []);
    assert Run(Step(sent, Elsewhere(Mine(tx))), []) == Step(sent, Elsewhere(Mine(tx)));
  }

  /** And such a call does upload again: from any idle world whose latest record is committed, one
      more call can commit any fresh transaction over unspent cells beside the copies there are. */
  lemma ARepeatedCallUploadsAgain(w: World, tx: Tx)
    requires w.pc == Idle && FindsCommitted(w.(pc := Find)) && !Holds(w.journal, tx)
    requires CanCommit(Deliver(w.chain, tx), tx)
    ensures var v := Run(w, RepeatedCall(tx));
            && v.repeats == w.repeats + 1
            && Copies(v.chain, v.journal) == Copies(w.chain, w.journal) + {tx}
            && tx !in Copies(w.chain, w.journal)
  {
    var sent := RepeatedCallRuns(w, tx);
    var journal := sent.journal;
    HoldsStays(w.journal, journal);
    assert journal[|w.journal|].tx == tx;
    forall t | Holds(journal, t) ensures Holds(w.journal, t) || t == tx {
      var i :| 0 <= i < |journal| && journal[i].tx == t;
      assert i < |w.journal| ==> w.journal[i].tx == t;
    }
  }
}
