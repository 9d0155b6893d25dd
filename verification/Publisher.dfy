/** One logical message's publish protocol: `publishText`, the journaled-broadcast resume it
    starts with, and the monitor it ends with, as a step system. Every await is one step, a
    crash or a thrown store or network error may come at any of them, and the node may answer
    anything that the chain does not contradict. The journal, the row and the chain survive a
    crash; the program counter does not. */
module Publisher {
  import opened Options
  import opened MessageStates
  import opened Chain
  import opened Journal

  /** A row under the purpose `message:<id>`; the latest one is the last. Next to the hash it holds
      the signed transaction that a resume sends again; None in rows of older versions. */
  type Entry = Record<Option<Tx>>

  /** Where the call in progress is waiting. */
  datatype Pc =
    | Idle
    | Find
    | ResumeAsk(tx: Tx, stored: Option<Tx>)
    | ResumeSend(tx: Tx, wire: Tx)
    | ResumeWait(tx: Tx, rebroadcast: bool)
    | ResumeTrack(tx: Tx)
    | MarkAbandoned(tx: Tx)
    | ToEncrypting | Resolve | ToBuilding | Build | ToAwaiting(tx: Tx) | Sign(tx: Tx)
    | ToSubmitting(tx: Tx) | JournalTx(tx: Tx) | SetRef(tx: Tx) | SetEnvelopeId(tx: Tx)
    | Send(tx: Tx)
    | Track(tx: Tx) | ToPending(tx: Tx)
    | WalkRead(tx: Tx, target: State)
    | Walk(tx: Tx, target: State, requests: seq<State>)
    | MonitorWait(tx: Tx) | MonitorMark(tx: Tx) | MonitorRef(tx: Tx) | Reserve(tx: Tx)
    | ToFailed

  /** `ref` is the transaction whose first output the row names as its outpoint. */
  datatype World = World(chain: Chain, journal: seq<Entry>, row: State, pc: Pc, ref: Option<Tx>)

  datatype Event =
    | Call
    | Crash
    | Throw
    | Done                                             // the awaited store or local call returns
    | Answer(status: Status)                           // `getTransaction`
    | Sent(result: SendResult, delivered: bool)        // `sendTransaction`
    | Built(tx: Tx)                                    // the transaction builder
    | Elsewhere(move: ChainEvent)                      // the chain moves on
    | Retry                                            // the user queues the row (again)
    | WorkerMark(tx: Tx, status: Status)               // the pending-transaction worker
    | WorkerAdvance
    | Acked(next: State)                               // receipts and reclaim move the row on

  /** Once the call has set its `broadcast` flag a failure no longer marks the row. */
  predicate Broadcast(pc: Pc) {
    pc.Track? || pc.ToPending? || pc.WalkRead? || pc.Walk? || pc.MonitorWait? || pc.MonitorMark?
    || pc.MonitorRef? || pc.Reserve?
  }

  function Thrown(w: World): World {
    if w.pc == Idle || w.pc == ToFailed || Broadcast(w.pc) then w.(pc := Idle)
    else w.(pc := ToFailed)
  }

  /** A row transition at an await: the next step when the store accepts it, else a throw. */
  function Request(w: World, target: State, next: Pc): World {
    match Transition(Outgoing, w.row, target)
    case None => Thrown(w)
    case Some(row) => w.(row := row, pc := next)
  }

  function Fresh(tx: Tx): Entry {
    Record(tx, Some(tx), Submitted)
  }

  /** The awaited store call, or local computation, at the program counter returns. */
  function Returns(w: World): World {
    match w.pc
    case Find =>
      if w.journal == [] then w.(pc := ToEncrypting)
      else w.(pc := ResumeAsk(w.journal[|w.journal| - 1].tx, w.journal[|w.journal| - 1].details))
    case ResumeTrack(tx) => w.(pc := WalkRead(tx, Pending))
    case MarkAbandoned(tx) => w.(journal := Marked(w.journal, tx, Abandoned), pc := ToEncrypting)
    case ToEncrypting => Request(w, Encrypting, Resolve)
    case Resolve => w.(pc := ToBuilding)
    case ToBuilding => Request(w, BuildingTransaction, Build)
    case ToAwaiting(tx) => Request(w, AwaitingSignature, Sign(tx))
    case Sign(tx) => w.(pc := ToSubmitting(tx))
    case ToSubmitting(tx) => Request(w, Submitting, JournalTx(tx))
    case JournalTx(tx) => w.(journal := Recorded(w.journal, Fresh(tx)), pc := SetRef(tx))
    case SetRef(tx) => w.(ref := Some(tx), pc := SetEnvelopeId(tx))
    case SetEnvelopeId(tx) => w.(pc := Send(tx))
    case Track(tx) => w.(pc := ToPending(tx))
    case ToPending(tx) => Request(w, Pending, MonitorWait(tx))
    case WalkRead(tx, target) => w.(pc := Walk(tx, target, WalkRequests(w.row, target)))
    case Walk(tx, target, requests) =>
      if requests != [] then Request(w, requests[0], Walk(tx, target, requests[1..]))
      else w.(pc := if target == Pending then MonitorWait(tx) else Reserve(tx))
    case MonitorMark(tx) => w.(journal := Marked(w.journal, tx, CommittedTx), pc := MonitorRef(tx))
    case MonitorRef(tx) => w.(ref := Some(tx), pc := WalkRead(tx, AvailableOnChain))
    case Reserve(_) => w.(pc := Idle)
    case ToFailed =>
      (match Transition(Outgoing, w.row, Failed)
       case None => w.(pc := Idle)
       case Some(row) => w.(row := row, pc := Idle))
    case _ => w
  }

  function StatusAnswered(w: World, status: Status): World {
    match w.pc
    case ResumeAsk(tx, stored) =>
      (match status
       case IsCommitted => w.(pc := WalkRead(tx, Pending))
       case IsRejected => w.(pc := MarkAbandoned(tx))
       case InPool => w.(pc := ResumeWait(tx, false))
       case Unknown => w.(pc := if stored.Some? then ResumeSend(tx, stored.value) else MarkAbandoned(tx)))
    case ResumeWait(tx, rebroadcast) =>
      (match status
       case IsCommitted => w.(pc := if rebroadcast then ResumeTrack(tx) else WalkRead(tx, Pending))
       case IsRejected => Thrown(w)
       case _ => w)
    case MonitorWait(tx) =>
      (match status
       case IsCommitted => w.(pc := MonitorMark(tx))
       case IsRejected => Thrown(w)
       case _ => w)
    case _ => w
  }

  function SendAnswered(w: World, result: SendResult): World {
    match w.pc
    case ResumeSend(tx, _) =>
      (match result
       case Accepted => w.(pc := ResumeWait(tx, true))
       case SpentError => w.(pc := MarkAbandoned(tx))
       case _ => Thrown(w))
    case Send(tx) => if result == Accepted then w.(pc := Track(tx)) else Thrown(w)
    case _ => w
  }

  predicate Journaled(w: World, tx: Tx) {
    Holds(w.journal, tx)
  }

  /** What is sent: the stored transaction when resuming. */
  function OnTheWire(pc: Pc): Tx
    requires pc.Send? || pc.ResumeSend?
  {
    if pc.ResumeSend? then pc.wire else pc.tx
  }

  /** One step. `spentIsFinal` says whether an error the resume matches as spent means that the
      transaction can never land. An event that does not apply changes nothing. */
  ghost function Step(spentIsFinal: bool, w: World, e: Event): World {
    match e
    case Call => if w.pc == Idle then w.(pc := Find) else w
    case Crash => w.(pc := Idle)
    case Throw => Thrown(w)
    case Done => Returns(w)
    case Built(tx) => if w.pc == Build then w.(pc := ToAwaiting(tx)) else w
    case Answer(status) =>
      if (w.pc.ResumeAsk? || w.pc.ResumeWait? || w.pc.MonitorWait?) && Truthful(w.chain, w.pc.tx, status)
      then StatusAnswered(w, status) else w
    case Sent(result, delivered) =>
      if !(w.pc.Send? || w.pc.ResumeSend?) then w
      else if result == SpentError && spentIsFinal && !Dead(w.chain, w.pc.tx) then w
      else if result == Accepted && OnTheWire(w.pc) != w.pc.tx then w
      else
        var chain := if delivered || result == Accepted then Deliver(w.chain, OnTheWire(w.pc)) else w.chain;
        SendAnswered(w.(chain := chain), result)
    case Elsewhere(move) => w.(chain := Evolve(w.chain, move))
    case Retry => if w.row == Draft || w.row == Failed then w.(row := Queued) else w
    case WorkerMark(tx, status) =>
      if !Journaled(w, tx) || !Truthful(w.chain, tx, status) then w
      else if status == IsCommitted then w.(journal := Marked(w.journal, tx, CommittedTx))
      else if status == IsRejected then w.(journal := Marked(w.journal, tx, RejectedTx))
      else w
    case WorkerAdvance =>
      if w.journal != [] && w.journal[|w.journal| - 1].state == CommittedTx
         && (w.row == Pending || w.row == Committed)
      then w.(row := AvailableOnChain) else w
    case Acked(next) =>
      if Rank(w.row) >= Rank(AvailableOnChain) && next != Failed && CanTransition(Outgoing, w.row, next)
      then w.(row := next) else w
  }

  ghost function Run(spentIsFinal: bool, w: World, events: seq<Event>): World
    decreases |events|
  {
    if events == [] then w else Run(spentIsFinal, Step(spentIsFinal, w, events[0]), events[1..])
  }

  /** A new message: nothing journaled, nothing sent, no outpoint. The row is a draft or already
      queued. */
  ghost predicate Initial(w: World) {
    w.chain == EmptyChain && w.journal == [] && w.pc == Idle && w.ref == None && (w.row == Draft || w.row == Queued)
  }

  // ---------------------------------------------------------------- the invariant

  ghost predicate AllDead(w: World) {
    forall i :: 0 <= i < |w.journal| ==> Dead(w.chain, w.journal[i].tx)
  }

  ghost predicate AllButLastDead(w: World) {
    forall i :: 0 <= i < |w.journal| - 1 ==> Dead(w.chain, w.journal[i].tx)
  }

  /** The stretches of the call, by what it may rely on. */
  datatype Phase = Outside | Resuming | Condemning | Rebuilding | InFlight | Landed

  function PhaseOf(pc: Pc): Phase {
    match pc
    case Idle => Outside case Find => Outside case ToFailed => Outside
    case ResumeAsk(_, _) => Resuming case ResumeSend(_, _) => Resuming case ResumeWait(_, _) => Resuming
    case MarkAbandoned(_) => Condemning
    case ToEncrypting => Rebuilding case Resolve => Rebuilding case ToBuilding => Rebuilding
    case Build => Rebuilding case ToAwaiting(_) => Rebuilding case Sign(_) => Rebuilding
    case ToSubmitting(_) => Rebuilding case JournalTx(_) => Rebuilding
    case SetRef(_) => InFlight case SetEnvelopeId(_) => InFlight case Send(_) => InFlight
    case Track(_) => InFlight case ToPending(_) => InFlight case MonitorWait(_) => InFlight
    case ResumeTrack(_) => Landed case WalkRead(_, _) => Landed case Walk(_, _, _) => Landed
    case MonitorMark(_) => Landed case MonitorRef(_) => Landed case Reserve(_) => Landed
  }

  /** What a resume would send is the transaction of the record. */
  predicate SendsItself(pc: Pc) {
    (pc.ResumeAsk? ==> pc.stored == Some(pc.tx)) && (pc.ResumeSend? ==> pc.wire == pc.tx)
  }

  /** What the call in progress knows where it is waiting. */
  ghost predicate PcOk(w: World) {
    match PhaseOf(w.pc)
    case Outside => true
    case Resuming => IsLatest(w.journal, w.pc.tx) && SendsItself(w.pc)
    case Condemning => IsLatest(w.journal, w.pc.tx) && Dead(w.chain, w.pc.tx)
    case Rebuilding => AllDead(w)
    case InFlight => Journaled(w, w.pc.tx) && (IsLatest(w.journal, w.pc.tx) || AllDead(w))
    case Landed => IsLatest(w.journal, w.pc.tx) && w.pc.tx in w.chain.committed
  }

  ghost predicate Inv(w: World) {
    && (forall i :: 0 <= i < |w.journal| ==> w.journal[i].details == Some(w.journal[i].tx))
    && (forall tx :: tx in w.chain.seen ==> Journaled(w, tx))
    && AllButLastDead(w)
    && MarksAreTrue(w)
    && (Rank(w.row) >= Rank(Committed) ==> SomeCommitted(w))
    && (w.ref.Some? ==> Journaled(w, w.ref.value))
    && PcOk(w)
  }

  ghost predicate MarksAreTrue(w: World) {
    forall i :: 0 <= i < |w.journal| && w.journal[i].state == CommittedTx
      ==> w.journal[i].tx in w.chain.committed
  }

  ghost predicate SomeCommitted(w: World) {
    exists i :: 0 <= i < |w.journal| && w.journal[i].tx in w.chain.committed
  }

  lemma LatestIsJournaled(w: World, tx: Tx)
    ensures IsLatest(w.journal, tx) ==> Journaled(w, tx)
  {
  }

  /** The chain moving on and the journal's marks changing break nothing the call knows. */
  lemma OutsideMovesKeep(w: World, c: Chain, journal: seq<Entry>)
    requires Inv(w) && SameTxs(w.journal, journal)
    requires w.chain.committed <= c.committed && forall tx :: Dead(w.chain, tx) ==> Dead(c, tx)
    requires forall tx :: tx in c.seen ==> Journaled(w, tx)
    requires MarksAreTrue(w.(chain := c, journal := journal))
    ensures Inv(w.(chain := c, journal := journal))
    ensures AllDead(w) ==> AllDead(w.(chain := c, journal := journal))
  {
    var v := w.(chain := c, journal := journal);
    forall t | Journaled(w, t) ensures Journaled(v, t) {
      var i :| 0 <= i < |w.journal| && w.journal[i].tx == t;
      assert v.journal[i].tx == t;
    }
    if Rank(w.row) >= Rank(Committed) {
      var i :| 0 <= i < |w.journal| && w.journal[i].tx in w.chain.committed;
      assert v.journal[i].tx in c.committed;
    }
  }

  lemma MarkKeeps(w: World, tx: Tx, state: JournalState)
    requires Inv(w) && (state == CommittedTx ==> tx in w.chain.committed)
    ensures Inv(w.(journal := Marked(w.journal, tx, state)))
    ensures AllDead(w) ==> AllDead(w.(journal := Marked(w.journal, tx, state)))
    ensures forall t :: Journaled(w, t) ==> Journaled(w.(journal := Marked(w.journal, tx, state)), t)
  {
    var v := w.(journal := Marked(w.journal, tx, state));
    OutsideMovesKeep(w, w.chain, v.journal);
    forall t | Journaled(w, t) ensures Journaled(v, t) {
      var i :| 0 <= i < |w.journal| && w.journal[i].tx == t;
      assert v.journal[i].tx == t;
    }
  }

  /** A fresh record only joins a journal of dead transactions. */
  lemma RecordKeeps(w: World, tx: Tx)
    requires Inv(w) && w.pc == JournalTx(tx)
    ensures Inv(w.(journal := Recorded(w.journal, Fresh(tx)), pc := SetRef(tx)))
  {
    var v := w.(journal := Recorded(w.journal, Fresh(tx)), pc := SetRef(tx));
    forall t | Journaled(w, t) ensures Journaled(v, t) {
      var i :| 0 <= i < |w.journal| && w.journal[i].tx == t;
      assert v.journal[i].tx == t;
    }
    if !Journaled(w, tx) {
      assert v.journal[|w.journal|].tx == tx;
    }
  }

  /** Steps that move only the row and the program counter. */
  lemma LocalMoveKeeps(w: World, row: State, pc: Pc)
    requires Inv(w) && PcOk(w.(pc := pc))
    requires Rank(row) >= Rank(Committed) ==> Rank(w.row) >= Rank(Committed) || PhaseOf(w.pc).Landed?
    ensures Inv(w.(row := row, pc := pc))
  {
    if PhaseOf(w.pc).Landed? {
      var i :| 0 <= i < |w.journal| && w.journal[i].tx == w.pc.tx;
      assert SomeCommitted(w);
    }
  }

  /** Most awaits return into the row, the program counter and the outpoint alone. */
  lemma ReturnsShape(w: World)
    requires !w.pc.JournalTx? && !w.pc.MarkAbandoned? && !w.pc.MonitorMark?
    ensures Returns(w) == w.(row := Returns(w).row, pc := Returns(w).pc, ref := Returns(w).ref)
    ensures Returns(w).ref == w.ref || ((w.pc.SetRef? || w.pc.MonitorRef?) && Returns(w).ref == Some(w.pc.tx))
  {
  }

  lemma FindLocally(w: World)
    requires w.pc.Find? && forall i :: 0 <= i < |w.journal| ==> w.journal[i].details == Some(w.journal[i].tx)
    ensures PcOk(w.(pc := Returns(w).pc))
  {
  }

  lemma ResumeOrBuildKnows(w: World)
    requires PcOk(w) && (PhaseOf(w.pc).Resuming? || PhaseOf(w.pc).Rebuilding? || PhaseOf(w.pc).Outside?)
    requires !w.pc.Find? && !w.pc.JournalTx?
    ensures PcOk(w.(pc := Returns(w).pc))
  {
  }

  lemma InFlightOrLandedKnows(w: World)
    requires PcOk(w) && (PhaseOf(w.pc).InFlight? || PhaseOf(w.pc).Landed?) && !w.pc.MonitorMark?
    ensures PcOk(w.(pc := Returns(w).pc))
  {
    LatestIsJournaled(w, w.pc.tx);
  }

  lemma ReturnsKnow(w: World)
    requires PcOk(w) && !w.pc.Find? && !w.pc.JournalTx? && !w.pc.MarkAbandoned? && !w.pc.MonitorMark?
    ensures PcOk(w.(pc := Returns(w).pc))
  {
    if PhaseOf(w.pc).InFlight? || PhaseOf(w.pc).Landed? { InFlightOrLandedKnows(w); } else { ResumeOrBuildKnows(w); }
  }

  lemma ReturnsLocally(w: World)
    requires PcOk(w) && forall i :: 0 <= i < |w.journal| ==> w.journal[i].details == Some(w.journal[i].tx)
    requires !w.pc.JournalTx? && !w.pc.MarkAbandoned? && !w.pc.MonitorMark?
    ensures Returns(w) == w.(row := Returns(w).row, pc := Returns(w).pc, ref := Returns(w).ref)
    ensures Returns(w).ref == w.ref || ((w.pc.SetRef? || w.pc.MonitorRef?) && Returns(w).ref == Some(w.pc.tx))
    ensures PcOk(w.(pc := Returns(w).pc))
  {
    ReturnsShape(w);
    if w.pc.Find? { FindLocally(w); } else { ReturnsKnow(w); }
  }

  /** Only a call that has seen its transaction committed moves the row to `committed`. */
  lemma ReturnsPromoteLate(w: World)
    requires Rank(Returns(w).row) >= Rank(Committed)
    ensures Rank(w.row) >= Rank(Committed) || PhaseOf(w.pc).Landed?
  {
  }

  lemma LocalReturnKeeps(w: World)
    requires Inv(w) && !w.pc.JournalTx? && !w.pc.MarkAbandoned? && !w.pc.MonitorMark?
    ensures Inv(Returns(w))
  {
    var v := Returns(w);
    ReturnsLocally(w);
    if Rank(v.row) >= Rank(Committed) {
      ReturnsPromoteLate(w);
    }
    LocalMoveKeeps(w, v.row, v.pc);
    if v.ref != w.ref {
      LatestIsJournaled(w, w.pc.tx);
    }
  }

  lemma AbandonKeeps(w: World)
    requires Inv(w) && w.pc.MarkAbandoned?
    ensures Inv(w.(journal := Marked(w.journal, w.pc.tx, Abandoned), pc := ToEncrypting))
  {
    MarkKeeps(w, w.pc.tx, Abandoned);
    assert AllDead(w);
  }

  lemma CommitMarkKeeps(w: World)
    requires Inv(w) && w.pc.MonitorMark?
    ensures Inv(w.(journal := Marked(w.journal, w.pc.tx, CommittedTx), pc := MonitorRef(w.pc.tx)))
  {
    MarkKeeps(w, w.pc.tx, CommittedTx);
  }

  lemma ReturnKeeps(w: World)
    requires Inv(w)
    ensures Inv(Returns(w))
  {
    if w.pc.JournalTx? {
      RecordKeeps(w, w.pc.tx);
    } else if w.pc.MarkAbandoned? {
      AbandonKeeps(w);
    } else if w.pc.MonitorMark? {
      CommitMarkKeeps(w);
    } else {
      LocalReturnKeeps(w);
    }
  }

  lemma SendKeeps(w: World, result: SendResult)
    requires Inv(w) && (w.pc.Send? || w.pc.ResumeSend?)
    requires result == SpentError ==> Dead(w.chain, w.pc.tx)
    ensures Inv(SendAnswered(w, result))
  {
    LocalMoveKeeps(w, w.row, SendAnswered(w, result).pc);
  }

  lemma AnswerKeeps(w: World, status: Status)
    requires Inv(w) && (w.pc.ResumeAsk? || w.pc.ResumeWait? || w.pc.MonitorWait?)
    requires Truthful(w.chain, w.pc.tx, status)
    ensures Inv(StatusAnswered(w, status))
  {
    LocalMoveKeeps(w, w.row, StatusAnswered(w, status).pc);
  }

  lemma WorkerKeeps(w: World, tx: Tx, status: Status)
    requires Inv(w) && Truthful(w.chain, tx, status)
    ensures Inv(Step(true, w, WorkerMark(tx, status)))
  {
    if status == IsCommitted { MarkKeeps(w, tx, CommittedTx); }
    if status == IsRejected { MarkKeeps(w, tx, RejectedTx); }
  }

  lemma CallerEventKeeps(w: World, e: Event)
    requires Inv(w) && (e.Call? || e.Crash? || e.Throw? || e.Built?)
    ensures Inv(Step(true, w, e))
  {
  }

  /** Crashes, throws, the caller and the other owners of the row. */
  lemma OtherEventKeeps(w: World, e: Event)
    requires Inv(w)
    requires e.Call? || e.Crash? || e.Throw? || e.Built? || e.Retry? || e.WorkerAdvance? || e.Acked?
    ensures Inv(Step(true, w, e))
  {
    if e.Call? || e.Crash? || e.Throw? || e.Built? {
      CallerEventKeeps(w, e);
    } else if e.WorkerAdvance? && w.journal != [] && w.journal[|w.journal| - 1].state == CommittedTx {
      assert SomeCommitted(w);
    }
  }

  lemma ElsewhereKeeps(w: World, move: ChainEvent)
    requires ChainOk(w.chain) && Inv(w)
    ensures Inv(w.(chain := Evolve(w.chain, move)))
  {
    EvolveKeeps(w.chain, move);
    OutsideMovesKeep(w, Evolve(w.chain, move), w.journal);
  }

  lemma DeliveredKeeps(w: World)
    requires ChainOk(w.chain) && Inv(w) && (w.pc.Send? || w.pc.ResumeSend?)
    ensures OnTheWire(w.pc) == w.pc.tx && Inv(w.(chain := Deliver(w.chain, w.pc.tx)))
    ensures Dead(w.chain, w.pc.tx) ==> Dead(Deliver(w.chain, w.pc.tx), w.pc.tx)
  {
    DeliverKeeps(w.chain, w.pc.tx);
    LatestIsJournaled(w, w.pc.tx);
    OutsideMovesKeep(w, Deliver(w.chain, w.pc.tx), w.journal);
  }

  lemma SentKeeps(w: World, e: Event)
    requires ChainOk(w.chain) && Inv(w) && e.Sent?
    ensures Inv(Step(true, w, e))
  {
    if (w.pc.Send? || w.pc.ResumeSend?) && (e.result == SpentError ==> Dead(w.chain, w.pc.tx)) {
      DeliveredKeeps(w);
      var v := if e.delivered || e.result == Accepted then w.(chain := Deliver(w.chain, w.pc.tx)) else w;
      SendKeeps(v, e.result);
      assert Step(true, w, e) == SendAnswered(v, e.result);
    }
  }

  /** Every step keeps the invariant, when an error matched as spent is final. */
  lemma StepKeeps(w: World, e: Event)
    requires ChainOk(w.chain) && Inv(w)
    ensures Inv(Step(true, w, e))
  {
    if e.Done? {
      ReturnKeeps(w);
    } else if e.Elsewhere? {
      ElsewhereKeeps(w, e.move);
    } else if e.Sent? {
      SentKeeps(w, e);
    } else if e.Answer? {
      if (w.pc.ResumeAsk? || w.pc.ResumeWait? || w.pc.MonitorWait?) && Truthful(w.chain, w.pc.tx, e.status) {
        AnswerKeeps(w, e.status);
      }
    } else if e.WorkerMark? {
      if Truthful(w.chain, e.tx, e.status) {
        WorkerKeeps(w, e.tx, e.status);
      }
    } else {
      OtherEventKeeps(w, e);
    }
  }

  /** The chain itself only moves forward, whatever the errors mean. */
  lemma StepKeepsChain(spentIsFinal: bool, w: World, e: Event)
    requires ChainOk(w.chain)
    ensures ChainOk(Step(spentIsFinal, w, e).chain)
  {
    if e.Elsewhere? {
      EvolveKeeps(w.chain, e.move);
    } else if e.Sent? && (w.pc.Send? || w.pc.ResumeSend?) {
      DeliverKeeps(w.chain, w.pc.tx);
    }
  }

  lemma {:induction false} RunKeeps(w: World, events: seq<Event>)
    requires ChainOk(w.chain) && Inv(w)
    ensures ChainOk(Run(true, w, events).chain) && Inv(Run(true, w, events))
    decreases |events|
  {
    if events != [] {
      StepKeeps(w, events[0]);
      StepKeepsChain(true, w, events[0]);
      RunKeeps(Step(true, w, events[0]), events[1..]);
    }
  }

  // ---------------------------------------------------------------- journal before broadcast

  /** The transaction's record holds what was signed. */
  ghost predicate SignedRecord(w: World, tx: Tx) {
    exists i :: 0 <= i < |w.journal| && w.journal[i].tx == tx && w.journal[i].details == Some(tx)
  }

  /** The part of the invariant that asks nothing of the node. */
  ghost predicate JournalFirst(w: World) {
    && (forall i :: 0 <= i < |w.journal| ==> w.journal[i].details == Some(w.journal[i].tx))
    && (forall tx :: tx in w.chain.seen ==> SignedRecord(w, tx))
    && (!PhaseOf(w.pc).Outside? && !PhaseOf(w.pc).Rebuilding? ==> SignedRecord(w, w.pc.tx))
    && SendsItself(w.pc)
  }

  /** Records are only added, and only by the journaling step. */
  lemma RecordsStay(spentIsFinal: bool, w: World, e: Event, tx: Tx)
    requires SignedRecord(w, tx)
    ensures SignedRecord(Step(spentIsFinal, w, e), tx)
  {
    var i :| 0 <= i < |w.journal| && w.journal[i].tx == tx && w.journal[i].details == Some(tx);
    var v := Step(spentIsFinal, w, e);
    assert v.journal[i].tx == tx && v.journal[i].details == Some(tx);
  }

  lemma JournalingKeepsJournal(w: World)
    requires JournalFirst(w) && w.pc.JournalTx?
    requires forall tx :: SignedRecord(w, tx) ==> SignedRecord(Returns(w), tx)
    ensures JournalFirst(Returns(w))
  {
    var v := Returns(w);
    if v.journal == w.journal {
      var i :| 0 <= i < |w.journal| && w.journal[i].tx == w.pc.tx;
      assert w.journal[i].details == Some(w.journal[i].tx);
    } else {
      assert v.journal[|w.journal|] == Fresh(w.pc.tx);
    }
  }

  /** Every other return goes on with the transaction it had, unless it has just looked one up. */
  lemma ReturnKeepsTx(w: World)
    requires !w.pc.JournalTx? && !w.pc.Find?
    ensures var p := Returns(w).pc;
            p == w.pc || (!p.ResumeAsk? && !p.ResumeSend?)
    ensures var p := Returns(w).pc;
            !PhaseOf(p).Outside? && !PhaseOf(p).Rebuilding?
            ==> !PhaseOf(w.pc).Outside? && !PhaseOf(w.pc).Rebuilding? && p.tx == w.pc.tx
  {
  }

  lemma ReturnKeepsDetails(w: World)
    requires !w.pc.JournalTx? && forall i :: 0 <= i < |w.journal| ==> w.journal[i].details == Some(w.journal[i].tx)
    ensures Returns(w).chain == w.chain
    ensures forall i :: 0 <= i < |Returns(w).journal|
                ==> Returns(w).journal[i].details == Some(Returns(w).journal[i].tx)
  {
  }

  lemma ReturnKeepsJournal(w: World)
    requires JournalFirst(w)
    requires forall tx :: SignedRecord(w, tx) ==> SignedRecord(Returns(w), tx)
    ensures JournalFirst(Returns(w))
  {
    if w.pc.JournalTx? {
      JournalingKeepsJournal(w);
    } else {
      ReturnKeepsDetails(w);
      if w.pc.Find? {
        assert w.journal != [] ==> SignedRecord(w, w.journal[|w.journal| - 1].tx);
      } else {
        ReturnKeepsTx(w);
      }
    }
  }

  lemma StepKeepsJournal(spentIsFinal: bool, w: World, e: Event)
    requires JournalFirst(w)
    ensures JournalFirst(Step(spentIsFinal, w, e))
  {
    var v := Step(spentIsFinal, w, e);
    forall tx | SignedRecord(w, tx) ensures SignedRecord(v, tx) {
      RecordsStay(spentIsFinal, w, e, tx);
    }
    if e.Done? {
      ReturnKeepsJournal(w);
    } else {
      EventKeepsJournal(spentIsFinal, w, e);
    }
  }

  lemma EventKeepsJournal(spentIsFinal: bool, w: World, e: Event)
    requires JournalFirst(w) && !e.Done?
    requires forall tx :: SignedRecord(w, tx) ==> SignedRecord(Step(spentIsFinal, w, e), tx)
    ensures JournalFirst(Step(spentIsFinal, w, e))
  {
    if e.Sent? {
      SendKeepsJournal(spentIsFinal, w, e);
    } else if e.Answer? {
      AnswerKeepsJournal(spentIsFinal, w, e);
    } else {
      assert forall tx :: tx in Step(spentIsFinal, w, e).chain.seen ==> tx in w.chain.seen;
    }
  }

  lemma SendKeepsJournal(spentIsFinal: bool, w: World, e: Event)
    requires JournalFirst(w) && e.Sent?
    requires forall tx :: SignedRecord(w, tx) ==> SignedRecord(Step(spentIsFinal, w, e), tx)
    ensures JournalFirst(Step(spentIsFinal, w, e))
  {
  }

  lemma AnswerKeepsJournal(spentIsFinal: bool, w: World, e: Event)
    requires JournalFirst(w) && e.Answer?
    requires forall tx :: SignedRecord(w, tx) ==> SignedRecord(Step(spentIsFinal, w, e), tx)
    ensures JournalFirst(Step(spentIsFinal, w, e))
  {
  }

  lemma {:induction false} RunKeepsJournal(spentIsFinal: bool, w: World, events: seq<Event>)
    requires JournalFirst(w)
    ensures JournalFirst(Run(spentIsFinal, w, events))
    decreases |events|
  {
    if events != [] {
      StepKeepsJournal(spentIsFinal, w, events[0]);
      RunKeepsJournal(spentIsFinal, Step(spentIsFinal, w, events[0]), events[1..]);
    }
  }

  // ---------------------------------------------------------------- the results

  /** Over every run, with a crash or a throw allowed at every await: at most one transaction
      journaled for the message ever commits. */
  lemma AtMostOneCommit(w: World, events: seq<Event>, s: Tx, t: Tx)
    requires Initial(w)
    requires var v := Run(true, w, events); Journaled(v, s) && Journaled(v, t)
    requires var v := Run(true, w, events); s in v.chain.committed && t in v.chain.committed
    ensures s == t
  {
    RunKeeps(w, events);
    OneCommitted(Run(true, w, events), s, t);
  }

  lemma OneCommitted(v: World, s: Tx, t: Tx)
    requires AllButLastDead(v) && Journaled(v, s) && Journaled(v, t)
    requires s in v.chain.committed && t in v.chain.committed
    ensures s == t
  {
  }

  /** Journal before broadcast, whatever errors mean: the network has only seen transactions whose
      record is in the journal together with the transaction itself, and a resume sends nothing but
      the transaction of the record it resumes. */
  lemma JournaledBeforeBroadcast(spentIsFinal: bool, w: World, events: seq<Event>, tx: Tx)
    requires Initial(w) && tx in Run(spentIsFinal, w, events).chain.seen
    ensures SignedRecord(Run(spentIsFinal, w, events), tx)
    ensures SendsItself(Run(spentIsFinal, w, events).pc)
  {
    RunKeepsJournal(spentIsFinal, w, events);
  }

  /** A row shown as committed or later has its one transaction on the chain. */
  lemma CommittedRowsAreOnChain(w: World, events: seq<Event>)
    requires Initial(w) && Rank(Run(true, w, events).row) >= Rank(Committed)
    ensures exists tx :: tx in Run(true, w, events).chain.committed && Journaled(Run(true, w, events), tx)
  {
    RunKeeps(w, events);
    var v := Run(true, w, events);
    var i :| 0 <= i < |v.journal| && v.journal[i].tx in v.chain.committed;
    assert Journaled(v, v.journal[i].tx);
  }
}
