/** What one upload of an attachment's chunks achieves when nothing disturbs it. */
module ChunksArrive {
  import opened Options
  import opened Chain
  import opened Journal
  import opened ChunkPublisher
  import U = Undisturbed

  /** What the call is waiting for, when all goes well; `built` is what the builder would return. */
  ghost function Prompt(w: World, built: Tx): Event {
    match w.pc
    case Build => Built(built)
    case Send(tx) => Sent(HonestSend(w.chain, tx), !Dead(w.chain, tx))
    case ResumeSend(tx, _) => Sent(HonestSend(w.chain, tx), !Dead(w.chain, tx))
    case ResumeAsk(tx, _) => Answer(HonestAnswer(w.chain, tx))
    case ResumeWait(tx) => if tx in w.chain.committed then Answer(IsCommitted) else Elsewhere(Mine(tx))
    case Wait(tx) => if tx in w.chain.committed then Answer(IsCommitted) else Elsewhere(Mine(tx))
    case _ => Done
  }

  /** A call left to itself. */
  ghost function Alone(built: Tx): World -> World {
    w => Step(w, Prompt(w, built))
  }

  ghost predicate Leads(w: World, built: Tx, v: World) {
    U.Leads(Alone(built), w, v)
  }

  ghost predicate EndsAs(w: World, built: Tx, v: World) {
    v.pc == Idle && U.EndsAs(Alone(built), w, v)
  }

  lemma Next(w: World, built: Tx, v: World)
    requires Step(w, Prompt(w, built)) == v
    ensures Leads(w, built, v)
  {
    U.Next(Alone(built), w, v);
  }

  lemma Then(w: World, built: Tx, u: World, v: World)
    requires Leads(w, built, u) && Leads(u, built, v)
    ensures Leads(w, built, v)
  {
    U.Then(Alone(built), w, u, v);
  }

  lemma ThenNext(w: World, built: Tx, u: World, v: World)
    requires Leads(w, built, u) && Step(u, Prompt(u, built)) == v
    ensures Leads(w, built, v)
  {
    Next(u, built, v);
    Then(w, built, u, v);
  }

  lemma Ends(w: World, built: Tx, v: World)
    requires Leads(w, built, v) && v.pc == Idle
    ensures EndsAs(w, built, v)
  {
    U.Ends(Alone(built), w, v);
  }

  // ---------------------------------------------------------------- the stretches of a call

  ghost predicate Minable(c: Chain, tx: Tx) {
    CanCommit(Deliver(c, tx), tx)
  }

  ghost function Mined(c: Chain, tx: Tx): Chain {
    Evolve(Deliver(c, tx), Mine(tx))
  }

  /** A wait that hears its commit marks the record. */
  lemma WaitEnds(w: World, built: Tx, tx: Tx)
    requires (w.pc == Wait(tx) || w.pc == ResumeWait(tx)) && tx in w.chain.committed
    ensures Leads(w, built, w.(journal := Marked(w.journal, tx, CommittedTx), pc := Idle))
  {
    Next(w, built, w.(pc := MarkCommitted(tx)));
    ThenNext(w, built, w.(pc := MarkCommitted(tx)), w.(journal := Marked(w.journal, tx, CommittedTx), pc := Idle));
  }

  /** Sent, mined, heard, marked. */
  lemma SendEnds(w: World, built: Tx, tx: Tx)
    requires w.pc == Send(tx) || w.pc == ResumeSend(tx, tx)
    requires Minable(w.chain, tx)
    ensures Leads(w, built, w.(chain := Mined(w.chain, tx), journal := Marked(w.journal, tx, CommittedTx), pc := Idle))
  {
    var u := w.(chain := Deliver(w.chain, tx), pc := if w.pc.Send? then Wait(tx) else ResumeWait(tx));
    var v := u.(chain := Mined(w.chain, tx));
    Next(w, built, u);
    ThenNext(w, built, u, v);
    WaitEnds(v, built, tx);
    Then(w, built, v, v.(journal := Marked(w.journal, tx, CommittedTx), pc := Idle));
  }

  /** One more record, committed. */
  ghost function Uploaded(w: World, tx: Tx): World {
    w.(chain := Mined(w.chain, tx), journal := Marked(w.journal + [Record(tx, Some(tx), Submitted)], tx, CommittedTx),
       pc := Idle)
  }

  lemma BuildEnds(w: World, tx: Tx)
    requires w.pc == Build && !Holds(w.journal, tx) && Minable(w.chain, tx)
    ensures Leads(w, tx, Uploaded(w, tx))
  {
    Next(w, tx, w.(pc := JournalTx(tx)));
    var v := w.(journal := w.journal + [Record(tx, Some(tx), Submitted)], pc := Send(tx));
    ThenNext(w, tx, w.(pc := JournalTx(tx)), v);
    SendEnds(v, tx, tx);
    Then(w, tx, v, Uploaded(w, tx));
  }

  // ---------------------------------------------------------------- whole calls

  /** The call ends with the transaction committed and its record, the latest, saying so. */
  ghost predicate Arrives(w: World, built: Tx, tx: Tx) {
    exists v :: EndsAs(w, built, v) && tx in v.chain.committed && IsLatest(v.journal, tx)
      && v.journal[|v.journal| - 1].state == CommittedTx
  }

  lemma UploadedArrives(w: World, u: World, tx: Tx)
    requires Leads(w, tx, Uploaded(u, tx)) && Minable(u.chain, tx)
    ensures Arrives(w, tx, tx)
  {
    Ends(w, tx, Uploaded(u, tx));
  }

  lemma FreshCallArrives(w: World, tx: Tx)
    requires w.pc == Find && (w.journal == [] || w.journal[|w.journal| - 1].state != Submitted)
    requires !Holds(w.journal, tx) && Minable(w.chain, tx)
    ensures Arrives(w, tx, tx)
  {
    var u := Found(w);
    Next(w, tx, u);
    BuildEnds(u, tx);
    Then(w, tx, u, Uploaded(u, tx));
    UploadedArrives(w, u, tx);
  }

  lemma MarkedHoldsTheSame(journal: seq<Entry>, dead: Tx, tx: Tx)
    ensures Holds(Marked(journal, dead, Abandoned), tx) ==> Holds(journal, tx)
  {
    var marked := Marked(journal, dead, Abandoned);
    if Holds(marked, tx) {
      var i :| 0 <= i < |marked| && marked[i].tx == tx;
      assert journal[i].tx == tx;
    }
  }

  lemma DeadIsGivenUp(w: World, built: Tx, dead: Tx)
    requires w.pc.ResumeAsk? && w.pc.tx == dead && Dead(w.chain, dead)
    ensures Leads(w, built, w.(pc := MarkAbandoned(dead)))
  {
    if dead in w.chain.condemned || w.pc.stored == None {
      Next(w, built, w.(pc := MarkAbandoned(dead)));
    } else {
      var u := w.(pc := ResumeSend(dead, w.pc.stored.value));
      Next(w, built, u);
      ThenNext(w, built, u, w.(pc := MarkAbandoned(dead)));
    }
  }

  lemma RebuildingCallArrives(w: World, tx: Tx)
    requires w.pc == Find && w.journal != [] && w.journal[|w.journal| - 1].state == Submitted
    requires Dead(w.chain, w.journal[|w.journal| - 1].tx) && !Holds(w.journal, tx) && Minable(w.chain, tx)
    ensures Arrives(w, tx, tx)
  {
    var last := w.journal[|w.journal| - 1];
    var u := w.(pc := ResumeAsk(last.tx, last.details));
    var v := w.(pc := MarkAbandoned(last.tx));
    var x := w.(journal := Marked(w.journal, last.tx, Abandoned), pc := Build);
    Next(w, tx, u);
    DeadIsGivenUp(u, tx, last.tx);
    Then(w, tx, u, v);
    ThenNext(w, tx, v, x);
    MarkedHoldsTheSame(w.journal, last.tx, tx);
    BuildEnds(x, tx);
    Then(w, tx, x, Uploaded(x, tx));
    UploadedArrives(w, x, tx);
  }

  /** Mined from the pool, or sent again and mined. */
  lemma RebroadcastEnds(w: World, built: Tx, tx: Tx)
    requires w.pc == ResumeAsk(tx, Some(tx)) && Minable(w.chain, tx)
    ensures Leads(w, built, w.(chain := Mined(w.chain, tx), journal := Marked(w.journal, tx, CommittedTx), pc := Idle))
  {
    var v := w.(chain := Mined(w.chain, tx), journal := Marked(w.journal, tx, CommittedTx), pc := Idle);
    if tx in w.chain.seen {
      assert Deliver(w.chain, tx) == w.chain;
      var u := w.(pc := ResumeWait(tx));
      Next(w, built, u);
      ThenNext(w, built, u, u.(chain := Mined(w.chain, tx)));
      WaitEnds(u.(chain := Mined(w.chain, tx)), built, tx);
      Then(w, built, u.(chain := Mined(w.chain, tx)), v);
    } else {
      Next(w, built, w.(pc := ResumeSend(tx, tx)));
      SendEnds(w.(pc := ResumeSend(tx, tx)), built, tx);
      Then(w, built, w.(pc := ResumeSend(tx, tx)), v);
    }
  }

  lemma ResumingCallArrives(w: World, built: Tx, tx: Tx)
    requires w.pc == Find && w.journal != [] && w.journal[|w.journal| - 1] == Record(tx, Some(tx), Submitted)
    requires tx in w.chain.committed || (Minable(w.chain, tx) && !Dead(w.chain, tx))
    ensures Arrives(w, built, tx)
  {
    var u := w.(pc := ResumeAsk(tx, Some(tx)));
    Next(w, built, u);
    if tx in w.chain.committed {
      var v := w.(journal := Marked(w.journal, tx, CommittedTx), pc := Idle);
      ThenNext(w, built, u, w.(pc := MarkCommitted(tx)));
      ThenNext(w, built, w.(pc := MarkCommitted(tx)), v);
      Ends(w, built, v);
    } else {
      var v := w.(chain := Mined(w.chain, tx), journal := Marked(w.journal, tx, CommittedTx), pc := Idle);
      RebroadcastEnds(u, built, tx);
      Then(w, built, u, v);
      Ends(w, built, v);
    }
  }

  /** The transaction that a call will see through: a submitted latest record's unless it is dead. */
  ghost function Subject(w: World, built: Tx): Tx {
    if w.journal != [] && w.journal[|w.journal| - 1].state == Submitted && !Dead(w.chain, w.journal[|w.journal| - 1].tx)
    then w.journal[|w.journal| - 1].tx else built
  }

  lemma CallArrives(w: World, built: Tx)
    requires w.pc == Find && !Holds(w.journal, built) && built !in w.chain.committed
    requires forall i :: 0 <= i < |w.journal| ==> w.journal[i].details == Some(w.journal[i].tx)
    requires Subject(w, built) in w.chain.committed || Minable(w.chain, Subject(w, built))
    ensures Arrives(w, built, Subject(w, built))
  {
    if w.journal == [] || w.journal[|w.journal| - 1].state != Submitted {
      FreshCallArrives(w, built);
    } else if Dead(w.chain, w.journal[|w.journal| - 1].tx) {
      RebuildingCallArrives(w, built);
    } else {
      ResumingCallArrives(w, built, Subject(w, built));
    }
  }

  /** Whatever calls, crashes and failures came before, one undisturbed upload ends with the chunks
      committed and on record. What the builder returns is new, and the transaction the call sees
      through can still be mined or is committed already. */
  lemma AnUploadArrives(before: seq<Event>, built: Tx)
    requires var w := Run(Initial, before);
             && w.pc == Idle && !Holds(w.journal, built)
             && (Subject(w, built) in w.chain.committed || Minable(w.chain, Subject(w, built)))
    ensures var w := Run(Initial, before); Arrives(Step(w, Call), built, Subject(w, built))
  {
    RunKeeps(Initial, before);
    var w := Run(Initial, before);
    CallArrives(w.(pc := Find), built);
  }
}
