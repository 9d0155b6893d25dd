/** The UTXO chain as the pipelines see it: cells are spent once, a transaction commits when
    nothing it spends is gone, and nothing is rolled back. What the node ANSWERS is separate
    from what is true; each pipeline says which answers it relies on. */
module Chain {

  type Cell = nat

  /** A message row's cell as a transaction spends it. */
  datatype Covered = Covered(row: nat, cell: Cell, capacity: nat)

  /** A signed transaction. `covers` are the message cells it reclaims, `wallet` the other
      inputs, `salt` everything else its hash depends on. Two equal values are one hash. */
  datatype Tx = Tx(covers: seq<Covered>, wallet: seq<Cell>, fee: nat, salt: nat)

  function Inputs(tx: Tx): (cells: seq<Cell>)
    ensures |cells| == |tx.covers| + |tx.wallet|
    ensures forall i :: 0 <= i < |tx.covers| ==> cells[i] == tx.covers[i].cell
  {
    seq(|tx.covers|, i requires 0 <= i < |tx.covers| => tx.covers[i].cell) + tx.wallet
  }

  ghost predicate Distinct(cells: seq<Cell>) {
    forall i, j :: 0 <= i < j < |cells| ==> cells[i] != cells[j]
  }

  /** `spent` cells, `committed` transactions, transactions the network has `seen`, and
      transactions the nodes have `condemned` for good. */
  datatype Chain = Chain(spent: set<Cell>, committed: set<Tx>, seen: set<Tx>, condemned: set<Tx>)

  datatype ChainEvent = Mine(tx: Tx) | SpendElsewhere(cell: Cell) | Condemn(tx: Tx)

  ghost predicate CanCommit(c: Chain, tx: Tx) {
    && tx in c.seen && tx !in c.committed && tx !in c.condemned
    && Distinct(Inputs(tx))
    && forall cell :: cell in Inputs(tx) ==> cell !in c.spent
  }

  /** One move of the rest of the world; a move that is not possible changes nothing. */
  ghost function Evolve(c: Chain, e: ChainEvent): Chain {
    match e
    case Mine(tx) =>
      if CanCommit(c, tx)
      then c.(committed := c.committed + {tx}, spent := c.spent + (set cell | cell in Inputs(tx)))
      else c
    case SpendElsewhere(cell) => c.(spent := c.spent + {cell})
    case Condemn(tx) => if tx in c.committed then c else c.(condemned := c.condemned + {tx})
  }

  /** The network receives a transaction. */
  function Deliver(c: Chain, tx: Tx): Chain {
    c.(seen := c.seen + {tx})
  }

  /** A transaction that can never commit any more. */
  ghost predicate Dead(c: Chain, tx: Tx) {
    tx !in c.committed && (tx in c.condemned || exists cell :: cell in Inputs(tx) && cell in c.spent)
  }

  ghost predicate ChainOk(c: Chain) {
    && c.committed <= c.seen
    && (forall tx :: tx in c.committed ==> Distinct(Inputs(tx)))
    && (forall tx, cell :: tx in c.committed && cell in Inputs(tx) ==> cell in c.spent)
    && (forall s, t, cell :: s in c.committed && t in c.committed && s != t && cell in Inputs(s)
          ==> cell !in Inputs(t))
  }

  /** `d` is a possible future of `c`. */
  ghost predicate Later(c: Chain, d: Chain) {
    c.spent <= d.spent && c.committed <= d.committed && c.seen <= d.seen && c.condemned <= d.condemned
  }

  // ---------------------------------------------------------------- what the node answers

  /** The answers of `getTransaction`. */
  datatype Status = IsCommitted | IsRejected | InPool | Unknown

  /** How `sendTransaction` ends: accepted under the same hash, under another hash, with an
      error the resume matches as spent, or with any other error. */
  datatype SendResult = Accepted | OtherHash | SpentError | OtherError

  /** The node answers about `tx` without contradicting the chain: `committed` is the truth and
      `rejected` is final. */
  ghost predicate Truthful(c: Chain, tx: Tx, status: Status) {
    && (status == IsCommitted ==> tx in c.committed)
    && (status == IsRejected ==> Dead(c, tx))
  }

  /** What an honest node says: it knows what is committed, condemned or waiting in its pool, and has
      forgotten a transaction whose inputs went elsewhere. */
  ghost function HonestAnswer(c: Chain, tx: Tx): Status {
    if tx in c.committed then IsCommitted
    else if tx in c.condemned then IsRejected
    else if tx in c.seen && !Dead(c, tx) then InPool
    else Unknown
  }

  ghost function HonestSend(c: Chain, tx: Tx): SendResult {
    if Dead(c, tx) then SpentError else Accepted
  }

  const EmptyChain := Chain({}, {}, {}, {})

  /** Every move keeps committed transactions free of shared inputs, takes nothing back, and
      leaves a dead transaction dead. */
  lemma EvolveKeeps(c: Chain, e: ChainEvent)
    requires ChainOk(c)
    ensures ChainOk(Evolve(c, e)) && Later(c, Evolve(c, e))
    ensures forall tx :: Dead(c, tx) ==> Dead(Evolve(c, e), tx)
    ensures Evolve(c, e).seen == c.seen
  {
    var d := Evolve(c, e);
    if e.Mine? && CanCommit(c, e.tx) {
      assert forall tx, cell :: tx in c.committed && cell in Inputs(tx) ==> cell !in Inputs(e.tx);
    }
    forall tx | Dead(c, tx) ensures Dead(d, tx) {
      if tx !in c.condemned {
        var cell :| cell in Inputs(tx) && cell in c.spent;
        assert cell in d.spent;
      }
    }
  }

  lemma DeliverKeeps(c: Chain, tx: Tx)
    requires ChainOk(c)
    ensures ChainOk(Deliver(c, tx)) && Later(c, Deliver(c, tx))
    ensures forall t :: Dead(c, t) ==> Dead(Deliver(c, tx), t)
  {
    forall t | Dead(c, t) ensures Dead(Deliver(c, tx), t) {
      if t !in c.condemned {
        var cell :| cell in Inputs(t) && cell in c.spent;
        assert cell in Deliver(c, tx).spent;
      }
    }
  }
}
