/** What one poll of the response watches, and one finalized response, achieve when nobody disturbs
    them. */
module WatchesAlone {
  import opened Options
  import opened MessageStates
  import opened Chain
  import opened Purposes
  import opened Reclaim
  import opened ReclaimAlone

  type List = seq<(Cell, string)>

  /** The watch at this place is on a dead cell. */
  predicate Hit(list: List, seen: Cell -> CellStatus, k: nat) {
    k < |list| && seen(list[k].0) == DeadCell
  }

  ghost predicate CellHit(list: List, seen: Cell -> CellStatus, i: nat, cell: Cell) {
    exists k: nat :: i <= k && Hit(list, seen, k) && list[k].0 == cell
  }

  ghost predicate RowHit(list: List, seen: Cell -> CellStatus, i: nat, row: nat) {
    exists k: nat :: i <= k && Hit(list, seen, k) && ParseWatchPurpose(list[k].1) == Some(row)
  }

  predicate Awaiting(s: Store, row: nat) {
    row in s.inRows && (s.inRows[row] == AwaitingRemoteReclaim || s.inRows[row] == RemoteReclaimed)
  }

  /** What a poll relies on: each active watch is listed once, a dead cell is reported truly, and a
      response watch was registered after its row became awaiting_remote_reclaim. */
  ghost predicate Pollable(chain: Chain, s: Store, list: List, seen: Cell -> CellStatus, i: nat) {
    && (forall j, k :: 0 <= j < k < |list| ==> list[j].0 != list[k].0)
    && (forall k: nat :: i <= k < |list| ==> list[k].0 in s.watches && s.watches[list[k].0].spender == NotSpent)
    && (forall k: nat :: i <= k && Hit(list, seen, k) ==> list[k].0 in chain.spent)
    && (forall k: nat :: i <= k && Hit(list, seen, k) && ParseWatchPurpose(list[k].1).Some?
          ==> Awaiting(s, ParseWatchPurpose(list[k].1).value))
  }

  function Marked(s: Store, cell: Cell): Store
    requires cell in s.watches
  {
    s.(watches := s.watches[cell := s.watches[cell].(spender := SpentByUnknown)], dead := s.dead + {cell})
  }

  /** One dead watch dealt with. */
  function AfterHit(s: Store, cell: Cell, purpose: string): Store
    requires cell in s.watches
  {
    match ParseWatchPurpose(purpose)
    case None => Marked(s, cell)
    case Some(row) => Marked(s, cell).(inRows := s.inRows[row := RemoteReclaimed])
  }

  lemma DeadIsHeard(chain: Chain, s: Store, c: nat, env: Env, list: List, i: nat, hits: nat)
    requires Hit(list, env.seen, i) && list[i].0 in chain.spent
    ensures Leads(One(chain, s, c, Poll(list, i, hits)), c, env,
                  One(chain, s.(dead := s.dead + {list[i].0}), c, PollMark(list, i, hits)))
  {
    var w, e := One(chain, s, c, Poll(list, i, hits)), CellAnswer(c, DeadCell);
    assert ToldDead(w, e);
    MovedAlone(chain, s, c, Poll(list, i, hits), Outcome(Heard(w, e), Informed(w, e)));
    Next(w, c, env, One(chain, s.(dead := s.dead + {list[i].0}), c, PollMark(list, i, hits)));
  }

  lemma HitIsMarked(chain: Chain, s: Store, c: nat, env: Env, list: List, i: nat, hits: nat)
    requires Hit(list, env.seen, i) && list[i].0 in chain.spent
    requires list[i].0 in s.watches && s.watches[list[i].0].spender == NotSpent
    ensures Leads(One(chain, s, c, Poll(list, i, hits)), c, env,
                  One(chain, Marked(s, list[i].0), c, PollRow(list, i, hits)))
  {
    DeadIsHeard(chain, s, c, env, list, i, hits);
    ThenReturn(One(chain, s, c, Poll(list, i, hits)), chain, s.(dead := s.dead + {list[i].0}), c, env,
               PollMark(list, i, hits), Marked(s, list[i].0), PollRow(list, i, hits));
  }

  lemma RowIsMoved(chain: Chain, s: Store, c: nat, env: Env, list: List, i: nat, hits: nat)
    requires i < |list| && list[i].0 in s.watches
    requires ParseWatchPurpose(list[i].1).Some? ==> Awaiting(s, ParseWatchPurpose(list[i].1).value)
    ensures Leads(One(chain, Marked(s, list[i].0), c, PollRow(list, i, hits)), c, env,
                  One(chain, AfterHit(s, list[i].0, list[i].1), c, Poll(list, i + 1, hits + 1)))
  {
    Return(chain, Marked(s, list[i].0), c, env, PollRow(list, i, hits), AfterHit(s, list[i].0, list[i].1),
           Poll(list, i + 1, hits + 1));
  }

  lemma HitIsDone(chain: Chain, s: Store, c: nat, env: Env, list: List, i: nat, hits: nat)
    requires Pollable(chain, s, list, env.seen, i) && Hit(list, env.seen, i)
    ensures Leads(One(chain, s, c, Poll(list, i, hits)), c, env,
                  One(chain, AfterHit(s, list[i].0, list[i].1), c, Poll(list, i + 1, hits + 1)))
  {
    HitIsMarked(chain, s, c, env, list, i, hits);
    RowIsMoved(chain, s, c, env, list, i, hits);
    Then(One(chain, s, c, Poll(list, i, hits)), c, env, One(chain, Marked(s, list[i].0), c, PollRow(list, i, hits)),
         One(chain, AfterHit(s, list[i].0, list[i].1), c, Poll(list, i + 1, hits + 1)));
  }

  lemma MissIsPassed(chain: Chain, s: Store, c: nat, env: Env, list: List, i: nat, hits: nat)
    requires i < |list| && !Hit(list, env.seen, i)
    ensures Leads(One(chain, s, c, Poll(list, i, hits)), c, env, One(chain, s, c, Poll(list, i + 1, hits)))
  {
    var w, e := One(chain, s, c, Poll(list, i, hits)), CellAnswer(c, env.seen(list[i].0));
    MovedAlone(chain, s, c, Poll(list, i, hits), Outcome(Heard(w, e), Informed(w, e)));
    Next(w, c, env, One(chain, s, c, Poll(list, i + 1, hits)));
  }

  /** What the loop does from the i-th watch on. */
  ghost predicate PolledFrom(s: Store, t: Store, list: List, seen: Cell -> CellStatus, i: nat) {
    && t == s.(watches := t.watches, inRows := t.inRows, dead := t.dead)
    && t.watches.Keys == s.watches.Keys && t.inRows.Keys == s.inRows.Keys
    && (forall cell :: cell in s.watches ==>
          t.watches[cell]
          == if CellHit(list, seen, i, cell) then s.watches[cell].(spender := SpentByUnknown) else s.watches[cell])
    && (forall r :: r in s.inRows ==>
          t.inRows[r] == if RowHit(list, seen, i, r) then RemoteReclaimed else s.inRows[r])
  }

  lemma HitsFrom(list: List, seen: Cell -> CellStatus, i: nat, cell: Cell, row: nat)
    requires i < |list|
    ensures CellHit(list, seen, i, cell)
            <==> (Hit(list, seen, i) && list[i].0 == cell) || CellHit(list, seen, i + 1, cell)
    ensures RowHit(list, seen, i, row)
            <==> (Hit(list, seen, i) && ParseWatchPurpose(list[i].1) == Some(row)) || RowHit(list, seen, i + 1, row)
  {
  }

  /** One watch dealt with, dead or not. */
  function AfterPoll(s: Store, list: List, seen: Cell -> CellStatus, i: nat): Store {
    if Hit(list, seen, i) && list[i].0 in s.watches then AfterHit(s, list[i].0, list[i].1) else s
  }

  function MoreHits(list: List, seen: Cell -> CellStatus, i: nat, hits: nat): nat {
    if Hit(list, seen, i) then hits + 1 else hits
  }

  lemma PolledNext(s: Store, t: Store, list: List, seen: Cell -> CellStatus, i: nat)
    requires i < |list| && list[i].0 in s.watches
    requires Hit(list, seen, i) && ParseWatchPurpose(list[i].1).Some? ==> ParseWatchPurpose(list[i].1).value in s.inRows
    requires PolledFrom(AfterPoll(s, list, seen, i), t, list, seen, i + 1)
    ensures PolledFrom(s, t, list, seen, i)
  {
    forall cell | cell in s.watches
      ensures t.watches[cell]
              == if CellHit(list, seen, i, cell) then s.watches[cell].(spender := SpentByUnknown) else s.watches[cell]
    {
      HitsFrom(list, seen, i, cell, 0);
    }
    forall r | r in s.inRows
      ensures t.inRows[r] == if RowHit(list, seen, i, r) then RemoteReclaimed else s.inRows[r]
    {
      HitsFrom(list, seen, i, 0, r);
    }
  }

  lemma StillPollable(chain: Chain, s: Store, list: List, seen: Cell -> CellStatus, i: nat)
    requires Pollable(chain, s, list, seen, i) && i < |list|
    ensures list[i].0 in s.watches && Pollable(chain, AfterPoll(s, list, seen, i), list, seen, i + 1)
  {
  }

  lemma WatchIsPolled(chain: Chain, s: Store, c: nat, env: Env, list: List, i: nat, hits: nat)
    requires Pollable(chain, s, list, env.seen, i) && i < |list|
    ensures Leads(One(chain, s, c, Poll(list, i, hits)), c, env,
                  One(chain, AfterPoll(s, list, env.seen, i), c,
                      Poll(list, i + 1, MoreHits(list, env.seen, i, hits))))
  {
    if Hit(list, env.seen, i) {
      HitIsDone(chain, s, c, env, list, i, hits);
    } else {
      MissIsPassed(chain, s, c, env, list, i, hits);
    }
  }

  lemma SomeHit(list: List, seen: Cell -> CellStatus, i: nat, hits: nat)
    requires i < |list|
    ensures (MoreHits(list, seen, i, hits) > 0 || exists k: nat :: i + 1 <= k && Hit(list, seen, k))
            <==> (hits > 0 || exists k: nat :: i <= k && Hit(list, seen, k))
  {
  }

  lemma WatchThen(chain: Chain, s: Store, c: nat, env: Env, list: List, i: nat, hits: nat, v: World)
    requires Pollable(chain, s, list, env.seen, i) && i < |list|
    requires Leads(One(chain, AfterPoll(s, list, env.seen, i), c, Poll(list, i + 1, MoreHits(list, env.seen, i, hits))),
                   c, env, v)
    ensures Leads(One(chain, s, c, Poll(list, i, hits)), c, env, v)
  {
    WatchIsPolled(chain, s, c, env, list, i, hits);
    Then(One(chain, s, c, Poll(list, i, hits)), c, env,
         One(chain, AfterPoll(s, list, env.seen, i), c, Poll(list, i + 1, MoreHits(list, env.seen, i, hits))), v);
  }

  /** The loop over the watches. */
  lemma {:induction false} WatchesArePolled(chain: Chain, s: Store, c: nat, env: Env, list: List, i: nat, hits: nat)
      returns (t: Store, h: nat)
    requires i <= |list| && Pollable(chain, s, list, env.seen, i)
    ensures Leads(One(chain, s, c, Poll(list, i, hits)), c, env, One(chain, t, c, Poll(list, |list|, h)))
    ensures PolledFrom(s, t, list, env.seen, i)
    ensures h > 0 <==> hits > 0 || exists k: nat :: i <= k && Hit(list, env.seen, k)
    decreases |list| - i
  {
    if i == |list| {
      t, h := s, hits;
      Stays(One(chain, s, c, Poll(list, i, hits)), c, env);
    } else {
      StillPollable(chain, s, list, env.seen, i);
      t, h := WatchesArePolled(chain, AfterPoll(s, list, env.seen, i), c, env, list, i + 1,
                               MoreHits(list, env.seen, i, hits));
      WatchThen(chain, s, c, env, list, i, hits, One(chain, t, c, Poll(list, |list|, h)));
      PolledNext(s, t, list, env.seen, i);
      SomeHit(list, env.seen, i, hits);
    }
  }

  lemma PruneIsLast(chain: Chain, s: Store, c: nat, env: Env)
    ensures Leads(One(chain, s, c, Prune), c, env, Nobody(chain, s.(watches := Pruned(s.watches))))
  {
    ReturnLast(chain, s, c, env, Prune, s.(watches := Pruned(s.watches)));
  }

  lemma LoopIsOver(chain: Chain, s: Store, c: nat, env: Env, list: List, hits: nat)
    ensures Leads(One(chain, s, c, Poll(list, |list|, hits)), c, env,
                  if hits > 0 then One(chain, s, c, Prune) else Nobody(chain, s))
  {
    var pc := Poll(list, |list|, hits);
    MovedAlone(chain, s, c, pc, Outcome(s, if hits > 0 then Some(Prune) else None));
    Next(One(chain, s, c, pc), c, env, if hits > 0 then One(chain, s, c, Prune) else Nobody(chain, s));
  }

  lemma PollIsOver(chain: Chain, s: Store, c: nat, env: Env, list: List, hits: nat)
    ensures Leads(One(chain, s, c, Poll(list, |list|, hits)), c, env,
                  Nobody(chain, if hits > 0 then s.(watches := Pruned(s.watches)) else s))
  {
    LoopIsOver(chain, s, c, env, list, hits);
    if hits > 0 {
      PruneIsLast(chain, s, c, env);
      Then(One(chain, s, c, Poll(list, |list|, hits)), c, env, One(chain, s, c, Prune),
           Nobody(chain, s.(watches := Pruned(s.watches))));
    }
  }

  // ---------------------------------------------------------------- results

  /** What a poll leaves: the rows of response watches on dead cells are remotely reclaimed and those
      watches are gone with all spent ones; nothing else changes, and nothing at all without a dead
      cell. */
  ghost predicate PollDone(s: Store, t: Store, list: List, seen: Cell -> CellStatus) {
    && t == s.(watches := t.watches, inRows := t.inRows, dead := t.dead) && t.inRows.Keys == s.inRows.Keys
    && (forall r :: r in s.inRows ==>
          t.inRows[r] == if RowHit(list, seen, 0, r) then RemoteReclaimed else s.inRows[r])
    && if exists k: nat :: Hit(list, seen, k)
       then forall cell :: cell in t.watches || (cell in s.watches && s.watches[cell].spender == NotSpent
                                                 && !CellHit(list, seen, 0, cell))
              ==> cell in t.watches && cell in s.watches && t.watches[cell] == s.watches[cell]
                  && s.watches[cell].spender == NotSpent && !CellHit(list, seen, 0, cell)
       else t.watches == s.watches
  }

  lemma ListIsTaken(chain: Chain, s: Store, c: nat, env: Env)
    requires ListsWatches(s, env.watches)
    ensures Leads(One(chain, s, c, PollList), c, env, One(chain, s, c, Poll(env.watches, 0, 0)))
  {
    MovedAlone(chain, s, c, PollList, Outcome(s, Some(Poll(env.watches, 0, 0))));
    Next(One(chain, s, c, PollList), c, env, One(chain, s, c, Poll(env.watches, 0, 0)));
  }

  lemma PolledIsDone(s: Store, t: Store, list: List, seen: Cell -> CellStatus, hits: nat)
    requires PolledFrom(s, t, list, seen, 0) && (hits > 0 <==> exists k: nat :: 0 <= k && Hit(list, seen, k))
    ensures PollDone(s, if hits > 0 then t.(watches := Pruned(t.watches)) else t, list, seen)
  {
    forall cell, k: nat | Hit(list, seen, k) && list[k].0 == cell ensures CellHit(list, seen, 0, cell) {
    }
  }

  /** `pollWatchesOnce`, with truthful answers about dead cells. */
  lemma APollReclaims(chain: Chain, s: Store, c: nat, env: Env)
    requires ListsWatches(s, env.watches) && Pollable(chain, s, env.watches, env.seen, 0)
    ensures exists t :: EndsAs(One(chain, s, c, PollList), c, env, Nobody(chain, t))
              && PollDone(s, t, env.watches, env.seen)
  {
    var w, list := One(chain, s, c, PollList), env.watches;
    ListIsTaken(chain, s, c, env);
    var t, hits := WatchesArePolled(chain, s, c, env, list, 0, 0);
    Then(w, c, env, One(chain, s, c, Poll(list, 0, 0)), One(chain, t, c, Poll(list, |list|, hits)));
    PollIsOver(chain, t, c, env, list, hits);
    var v := if hits > 0 then t.(watches := Pruned(t.watches)) else t;
    Then(w, c, env, One(chain, t, c, Poll(list, |list|, hits)), Nobody(chain, v));
    Ends(w, c, env, chain, v);
    PolledIsDone(s, t, list, env.seen, hits);
  }

  lemma FinalizedRow(chain: Chain, s: Store, c: nat, env: Env, row: nat, cell: Cell)
    requires row in s.inRows && (s.inRows[row] == ResponseSent || s.inRows[row] == AwaitingRemoteReclaim)
    ensures Leads(One(chain, s, c, FinalizeRow(row, cell)), c, env,
                  One(chain, s.(inRows := s.inRows[row := AwaitingRemoteReclaim]), c, FinalizeWatch(row, cell)))
  {
    Return(chain, s, c, env, FinalizeRow(row, cell), s.(inRows := s.inRows[row := AwaitingRemoteReclaim]),
           FinalizeWatch(row, cell));
  }

  lemma FinalizedWatch(chain: Chain, s: Store, c: nat, env: Env, row: nat, cell: Cell) returns (t: Store)
    requires row > 0
    ensures Leads(One(chain, s, c, FinalizeWatch(row, cell)), c, env, Nobody(chain, t))
    ensures t == s.(watches := t.watches, watched := t.watched) && WatchAdded(s, t, row, cell)
  {
    t := FinalizeWatchStep(s, row, cell).store;
    ReturnLast(chain, s, c, env, FinalizeWatch(row, cell), t);
    WatchPurposeRoundTrip(row);
  }

  /** The cell is watched: as before if it was, else for this row. No other watch changes. */
  ghost predicate WatchAdded(s: Store, t: Store, row: nat, cell: Cell) {
    && cell in t.watches && t.watches - {cell} == s.watches - {cell}
    && if cell in s.watches then t.watches == s.watches
       else t.watches[cell].spender == NotSpent && ParseWatchPurpose(t.watches[cell].purpose) == Some(row)
  }

  /** `finalizeResponseSent`: the response awaits its reclaim, and the cell it answers is watched for
      it unless it is watched already. */
  lemma AFinalizedResponseIsWatched(chain: Chain, s: Store, c: nat, env: Env, row: nat, cell: Cell)
    requires row > 0 && row in s.inRows && (s.inRows[row] == ResponseSent || s.inRows[row] == AwaitingRemoteReclaim)
    ensures exists t :: EndsAs(One(chain, s, c, FinalizeRow(row, cell)), c, env, Nobody(chain, t))
              && t == s.(inRows := s.inRows[row := AwaitingRemoteReclaim], watches := t.watches, watched := t.watched)
              && WatchAdded(s, t, row, cell)
  {
    var w := One(chain, s, c, FinalizeRow(row, cell));
    var u := s.(inRows := s.inRows[row := AwaitingRemoteReclaim]);
    FinalizedRow(chain, s, c, env, row, cell);
    var t := FinalizedWatch(chain, u, c, env, row, cell);
    Then(w, c, env, One(chain, u, c, FinalizeWatch(row, cell)), Nobody(chain, t));
    Ends(w, c, env, chain, t);
  }
}
