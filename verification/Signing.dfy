/** The single-group signer: placeholder witnesses, the signature splice and the self-check. Hash,
    signing and verification are any functions that meet the scheme's law. */
module Signing {
  import opened Options
  import opened Hex
  import opened Molecule
  import opened Cighash
  import Mldsa

  datatype Failure =
    | NoInputs | NotLive(i: nat) | NotMine(i: nat) | NotPlaceable(i: nat)
    | WitnessMissing | NoStream(cause: Cighash.Error)

  datatype Result<+T> = Done(value: T) | Failed(failure: Failure)

  function ZeroLock(): (z: Bytes)
    ensures |z| == Mldsa.WITNESS_LOCK_BYTES && forall i :: 0 <= i < |z| ==> z[i] == 0
  {
    seq(Mldsa.WITNESS_LOCK_BYTES, _ => 0)
  }

  predicate IsZeroPlaceholder(lock: Bytes) {
    |lock| == Mldsa.WITNESS_LOCK_BYTES && forall i :: 0 <= i < |lock| ==> lock[i] == 0
  }

  /** A lock that must survive: present, and not the placeholder. */
  predicate HasRealLock(read: Reader, b: Bytes) {
    read(b).Some? && read(b).value.lock.Some? && !IsZeroPlaceholder(read(b).value.lock.value)
  }

  // ---------------------------------------------------------------- placeholders

  /** The non-lock fields of a raw witness; the empty one has none. */
  function OtherFields(read: Reader, b: Bytes): Option<(Option<Bytes>, Option<Bytes>)> {
    if b == [] then Some((None, None))
    else match read(b) case None => None case Some(w) => Some((w.inputType, w.outputType))
  }

  function WithLock(read: Reader, b: Bytes, lock: Bytes): WitnessArgs
    requires OtherFields(read, b).Some?
  {
    WitnessArgs(Some(lock), OtherFields(read, b).value.0, OtherFields(read, b).value.1)
  }

  /** Room for the placeholder: a table that no longer fits a u32 cannot be written. */
  predicate Placeable(read: Reader, b: Bytes) {
    OtherFields(read, b).Some? && (HasRealLock(read, b) || WitnessSize(WithLock(read, b, ZeroLock())) < U32_LIMIT)
  }

  /** What becomes of one input's witness. */
  function Placed(read: Reader, b: Bytes): Bytes {
    if !Placeable(read, b) || HasRealLock(read, b) then b else WitnessBytes(WithLock(read, b, ZeroLock()))
  }

  /** Padding adds only empty witnesses, which take the placeholder. */
  lemma PaddingIsPlaceable(read: Reader, ws: seq<Bytes>, n: nat)
    ensures AllPlaceable(read, Padded(ws, n), n) <==> AllPlaceable(read, ws, n)
  {
    EmptyIsPlaceable(read);
    var p := Padded(ws, n);
    if AllPlaceable(read, p, n) {
      forall i | 0 <= i < n && i < |ws| ensures Placeable(read, ws[i]) {
        assert Placeable(read, p[i]);
      }
    }
  }

  function Padded(ws: seq<Bytes>, n: nat): (r: seq<Bytes>)
    ensures |r| == if |ws| < n then n else |ws|
    ensures forall i :: 0 <= i < |r| ==> r[i] == if i < |ws| then ws[i] else []
  {
    if |ws| >= n then ws else ws + seq(n - |ws|, _ => [])
  }

  function PlacedUpTo(read: Reader, ws: seq<Bytes>, k: nat): (r: seq<Bytes>)
    ensures |r| == |ws|
    ensures forall i :: 0 <= i < |r| ==> r[i] == if i < k then Placed(read, ws[i]) else ws[i]
  {
    seq(|ws|, i requires 0 <= i < |ws| => if i < k then Placed(read, ws[i]) else ws[i])
  }

  /** One witness per input, each with a lock. */
  function Prepared(read: Reader, ws: seq<Bytes>, n: nat): seq<Bytes> {
    PlacedUpTo(read, Padded(ws, n), n)
  }

  predicate AllPlaceable(read: Reader, ws: seq<Bytes>, n: nat) {
    forall i :: 0 <= i < n && i < |ws| ==> Placeable(read, ws[i])
  }

  lemma PlacedFacts(read: Reader, b: Bytes)
    requires Lenient(read) && Placeable(read, b)
    ensures var p := Placed(read, b);
            && p != [] && read(p).Some? && OtherFields(read, p) == OtherFields(read, b)
            && (if HasRealLock(read, b) then p == b else read(p).value.lock == Some(ZeroLock()))
            && Placeable(read, p) && Placed(read, p) == p
  {
    if !HasRealLock(read, b) {
      WitnessRoundTrip(WithLock(read, b, ZeroLock()));
      assert !HasRealLock(read, Placed(read, b));
    }
  }

  /** Preparing is idempotent, keeps the input and output type of every input's witness, never
      touches a real lock, and leaves extra witnesses alone. */
  lemma PreparingIsIdempotent(read: Reader, ws: seq<Bytes>, n: nat)
    requires Lenient(read) && AllPlaceable(read, ws, n)
    ensures AllPlaceable(read, Prepared(read, ws, n), n)
            && Prepared(read, Prepared(read, ws, n), n) == Prepared(read, ws, n)
    ensures |Prepared(read, ws, n)| == |Padded(ws, n)|
    ensures forall i :: 0 <= i < n ==>
            read(Prepared(read, ws, n)[i]).Some? && read(Prepared(read, ws, n)[i]).value.lock.Some?
    ensures forall i :: 0 <= i < n ==>
            OtherFields(read, Prepared(read, ws, n)[i]) == OtherFields(read, Padded(ws, n)[i])
    ensures forall i :: 0 <= i < |ws| && (i >= n || HasRealLock(read, ws[i])) ==> Prepared(read, ws, n)[i] == ws[i]
  {
    var p := Padded(ws, n);
    EmptyIsPlaceable(read);
    forall i | 0 <= i < n
      ensures Placeable(read, p[i]) && Placeable(read, Placed(read, p[i]))
              && Placed(read, Placed(read, p[i])) == Placed(read, p[i])
      ensures read(Placed(read, p[i])).Some? && read(Placed(read, p[i])).value.lock.Some?
      ensures OtherFields(read, Placed(read, p[i])) == OtherFields(read, p[i])
    {
      PlacedFacts(read, p[i]);
    }
    var q := Prepared(read, ws, n);
    assert Padded(q, n) == q;
    assert Prepared(read, q, n) == q;
  }

  lemma EmptyIsPlaceable(read: Reader)
    ensures Placeable(read, [])
  {
    assert WitnessSize(WithLock(read, [], ZeroLock())) == 16 + 4 + Mldsa.WITNESS_LOCK_BYTES;
  }

  /** 5262 zero bytes. */
  function Zeros(): Bytes {
    seq(5262, _ => 0)
  }

  lemma PlaceholderIsZeros(lock: Bytes)
    ensures IsZeroPlaceholder(lock) <==> lock == Zeros()
    ensures ZeroLock() == Zeros()
  {
  }

  /** Which lock each input's witness has afterwards: its own one when it had any but zeros, and then the
      witness is untouched; otherwise 5262 zero bytes. */
  lemma RealLocksStay(read: Reader, ws: seq<Bytes>, n: nat, i: nat)
    requires Lenient(read) && AllPlaceable(read, ws, n) && i < n
    ensures var before := if i < |ws| then ws[i] else [];
            var after := Prepared(read, ws, n)[i];
            if read(before).Some? && read(before).value.lock.Some? && read(before).value.lock != Some(Zeros())
            then after == before
            else read(after).Some? && read(after).value.lock == Some(Zeros())
  {
    EmptyIsPlaceable(read);
    var before := if i < |ws| then ws[i] else [];
    PlacedFacts(read, before);
    if read(before).Some? && read(before).value.lock.Some? {
      PlaceholderIsZeros(read(before).value.lock.value);
    }
    PlaceholderIsZeros([]);
  }

  class Transaction {
    const hash: Bytes
    const inputs: nat
    var witnesses: seq<Bytes>

    constructor (hash: Bytes, inputs: nat, witnesses: seq<Bytes>)
      ensures Value() == Tx(hash, inputs, witnesses)
    {
      this.hash, this.inputs, this.witnesses := hash, inputs, witnesses;
    }

    function Value(): Tx
      reads this
    {
      Tx(hash, inputs, witnesses)
    }
  }

  method PadWitnesses(tx: Transaction)
    modifies tx
    ensures tx.witnesses == Padded(old(tx.witnesses), tx.inputs)
  {
    ghost var padded := Padded(tx.witnesses, tx.inputs);
    while |tx.witnesses| < tx.inputs
      invariant |old(tx.witnesses)| <= |tx.witnesses| <= |padded| && tx.witnesses == padded[..|tx.witnesses|]
    {
      tx.witnesses := tx.witnesses + [[]];
    }
  }

  /** The first witness of the inputs that cannot be given a placeholder stopped the loop. */
  predicate StoppedAt(read: Reader, ws: seq<Bytes>, n: nat, i: nat) {
    i < n && i < |ws| && !Placeable(read, ws[i]) && forall k :: 0 <= k < i ==> Placeable(read, ws[k])
  }

  /** In place, witness by witness; a witness that is no WitnessArgs throws, the earlier ones by then
      prepared. */
  method EnsurePlaceholderWitnesses(tx: Transaction, read: Reader) returns (r: Result<()>)
    modifies tx
    ensures r.Done? <==> AllPlaceable(read, Padded(old(tx.witnesses), tx.inputs), tx.inputs)
    ensures r.Done? ==> tx.witnesses == Prepared(read, old(tx.witnesses), tx.inputs)
    ensures r.Failed?
      ==> r.failure.NotPlaceable? && StoppedAt(read, Padded(old(tx.witnesses), tx.inputs), tx.inputs, r.failure.i)
          && tx.witnesses == PlacedUpTo(read, Padded(old(tx.witnesses), tx.inputs), r.failure.i)
  {
    PadWitnesses(tx);
    ghost var padded := tx.witnesses;
    assert padded == PlacedUpTo(read, padded, 0);
    var i := 0;
    while i < tx.inputs
      invariant 0 <= i <= tx.inputs && tx.witnesses == PlacedUpTo(read, padded, i)
      invariant forall k :: 0 <= k < i ==> Placeable(read, padded[k])
    {
      PlaceNext(read, padded, i);
      if !Placeable(read, tx.witnesses[i]) {
        return Failed(NotPlaceable(i));
      }
      tx.witnesses := tx.witnesses[i := Placed(read, tx.witnesses[i])];
      i := i + 1;
    }
    r := Done(());
  }

  lemma PlaceNext(read: Reader, ws: seq<Bytes>, i: nat)
    requires i < |ws|
    ensures PlacedUpTo(read, ws, i)[i] == ws[i]
    ensures PlacedUpTo(read, ws, i)[i := Placed(read, ws[i])] == PlacedUpTo(read, ws, i + 1)
  {
  }

  // ---------------------------------------------------------------- the splice

  function AllInputs(n: nat): (g: seq<int>)
    ensures |g| == n && forall i :: 0 <= i < n ==> g[i] == i
  {
    seq(n, i => i)
  }

  /** Another first witness with the same non-lock fields signs the same content. */
  lemma SameContent(codec: Codec, tx: Tx, resolved: seq<ResolvedInput>, first: Bytes)
    requires 0 < tx.inputs <= |tx.witnesses|
    requires codec.read(tx.witnesses[0]).Some? && codec.read(first).Some?
    requires codec.read(first).value.inputType == codec.read(tx.witnesses[0]).value.inputType
    requires codec.read(first).value.outputType == codec.read(tx.witnesses[0]).value.outputType
    ensures Signed(codec.read, tx.(witnesses := tx.witnesses[0 := first]), resolved, AllInputs(tx.inputs))
            == Signed(codec.read, tx, resolved, AllInputs(tx.inputs))
  {
    var other := tx.(witnesses := tx.witnesses[0 := first]);
    var g := AllInputs(tx.inputs);
    assert InRange(tx, g) && InRange(other, g);
    assert Picked(other, g[1..]) == Picked(tx, g[1..]);
    assert Extra(other) == Extra(tx);
  }

  /** Replacing the lock of the group's first witness leaves the stream as it was, whatever the new
      lock: what is signed does not depend on the signature. */
  lemma SpliceKeepsTheStream(codec: Codec, tx: Tx, resolved: seq<ResolvedInput>, lock: Bytes)
    requires Lenient(codec.read) && 0 < tx.inputs <= |tx.witnesses| && codec.read(tx.witnesses[0]).Some?
    requires WitnessSize(WithLock(codec.read, tx.witnesses[0], lock)) < U32_LIMIT
    ensures var spliced := tx.(witnesses := tx.witnesses[0 :=
                                              WitnessBytes(WithLock(codec.read, tx.witnesses[0], lock))]);
            StreamOf(codec, spliced, resolved, AllInputs(tx.inputs))
            == StreamOf(codec, tx, resolved, AllInputs(tx.inputs))
  {
    WitnessRoundTrip(WithLock(codec.read, tx.witnesses[0], lock));
    SameContent(codec, tx, resolved, WitnessBytes(WithLock(codec.read, tx.witnesses[0], lock)));
  }

  // ---------------------------------------------------------------- signing

  /** The scheme as the signer uses it; `random` makes hedged signatures differ. */
  datatype Scheme = Scheme(digest: Bytes -> Bytes, sign: (Bytes, Bytes, Bytes) -> Bytes, verify: (Bytes, Bytes,
        Bytes) -> bool)

  datatype Signer = Signer(publicKey: Bytes, secretKey: Bytes, lock: Script)

  /** Verification accepts what the matching key signed, and signatures have their length. */
  ghost predicate Lawful(c: Scheme, s: Signer) {
    && |s.publicKey| == Mldsa.PK_BYTES
    && forall d, random ::
         |c.sign(s.secretKey, d, random)| == Mldsa.SIG_BYTES && c.verify(s.publicKey, d, c.sign(s.secretKey, d, random))
  }

  predicate AllLive(answers: seq<Option<ResolvedInput>>) {
    forall i :: 0 <= i < |answers| ==> answers[i].Some?
  }

  function Cells(answers: seq<Option<ResolvedInput>>): (cells: seq<ResolvedInput>)
    requires AllLive(answers)
    ensures |cells| == |answers| && forall i :: 0 <= i < |cells| ==> cells[i] == answers[i].value
  {
    seq(|answers|, i requires 0 <= i < |answers| => answers[i].value)
  }

  predicate AllMine(cells: seq<ResolvedInput>, lock: Script) {
    forall i :: 0 <= i < |cells| ==> cells[i].cell.lock == lock
  }

  /** The transaction with its signature in witness 0. */
  function Signature(codec: Codec, c: Scheme, s: Signer, random: Bytes, stream: Bytes): Bytes {
    Mldsa.WitnessLock(s.publicKey, c.sign(s.secretKey, c.digest(stream), random))
  }

  /** The self-check: rebuild the stream from the current witnesses and verify. False for anything
      missing or malformed in witness 0; the stream builder's errors come through. */
  method VerifyOwnSignature(tx: Transaction, codec: Codec, c: Scheme, s: Signer,
        resolved: seq<ResolvedInput>) returns (r: Result<bool>)
    ensures r == Verified(tx.Value(), codec, c, s, resolved)
  {
    if tx.inputs == 0 || |tx.witnesses| == 0 {
      return Done(false);
    }
    var parsed := codec.read(tx.witnesses[0]);
    if parsed.None? || parsed.value.lock.None? {
      return Done(false);
    }
    var lock := parsed.value.lock.value;
    if |lock| != Mldsa.WITNESS_LOCK_BYTES || lock[0] != 0x7B {
      return Done(false);
    }
    var publicKey, signature := lock[1..1 + Mldsa.PK_BYTES], lock[1 + Mldsa.PK_BYTES..];
    if publicKey != s.publicKey {
      return Done(false);
    }
    var stream := BuildCighashAllStream(codec, tx.Value(), resolved, AllInputs(tx.inputs));
    if stream.Err? {
      return Failed(NoStream(stream.error));
    }
    r := Done(c.verify(publicKey, c.digest(stream.value), signature));
  }

  function Verified(tx: Tx, codec: Codec, c: Scheme, s: Signer, resolved: seq<ResolvedInput>): Result<bool> {
    if tx.inputs == 0 || |tx.witnesses| == 0 then Done(false)
    else
      match codec.read(tx.witnesses[0])
      case None => Done(false)
      case Some(w) =>
        if w.lock.None? || |w.lock.value| != Mldsa.WITNESS_LOCK_BYTES || w.lock.value[0] != 0x7B then Done(false)
        else if w.lock.value[1..1 + Mldsa.PK_BYTES] != s.publicKey then Done(false)
        else
          match StreamOf(codec, tx, resolved, AllInputs(tx.inputs))
          case Err(e) => Failed(NoStream(e))
          case Ok(stream) => Done(c.verify(s.publicKey, c.digest(stream), w.lock.value[1 + Mldsa.PK_BYTES..]))
  }

  /** What signing may return for a prepared transaction. */
  function SignedTx(tx: Tx, codec: Codec, c: Scheme, s: Signer, answers: seq<Option<ResolvedInput>>,
        random: Bytes): Result<Tx>
    requires tx.inputs <= |tx.witnesses| && |answers| == tx.inputs && Lenient(codec.read)
    requires forall i :: 0 <= i < tx.inputs ==> codec.read(tx.witnesses[i]).Some?
  {
    if tx.inputs == 0 then Failed(NoInputs)
    else if !AllLive(answers) then Failed(NotLive(FirstMissing(answers)))
    else if !AllMine(Cells(answers), s.lock) then Failed(NotMine(FirstForeign(Cells(answers), s.lock)))
    else
      match StreamOf(codec, tx, Cells(answers), AllInputs(tx.inputs))
      case Err(e) => Failed(NoStream(e))
      case Ok(stream) =>
        var w := WithLock(codec.read, tx.witnesses[0], Signature(codec, c, s, random, stream));
        if WitnessSize(w) >= U32_LIMIT then Failed(WitnessMissing)
        else Done(tx.(witnesses := tx.witnesses[0 := WitnessBytes(w)]))
  }

  function FirstMissing(answers: seq<Option<ResolvedInput>>): (i: nat)
    requires !AllLive(answers)
    ensures i < |answers| && answers[i].None? && forall k :: 0 <= k < i ==> answers[k].Some?
    decreases |answers|
  {
    if answers[0].None? then 0
    else
      assert !AllLive(answers[1..]) by {
        var k :| 0 <= k < |answers| && answers[k].None?;
        assert answers[1..][k - 1].None?;
      }
      1 + FirstMissing(answers[1..])
  }

  function FirstForeign(cells: seq<ResolvedInput>, lock: Script): (i: nat)
    requires !AllMine(cells, lock)
    ensures i < |cells| && cells[i].cell.lock != lock && forall k :: 0 <= k < i ==> cells[k].cell.lock == lock
    decreases |cells|
  {
    if cells[0].cell.lock != lock then 0
    else
      assert !AllMine(cells[1..], lock) by {
        var k :| 0 <= k < |cells| && cells[k].cell.lock != lock;
        assert cells[1..][k - 1].cell.lock != lock;
      }
      1 + FirstForeign(cells[1..], lock)
  }

  /** What signing returns, the self-check accepts: every transaction that is signed verifies under
      the signer's own key with the cells it was signed over. */
  lemma SignedTransactionsVerify(tx: Tx, codec: Codec, c: Scheme, s: Signer, answers: seq<Option<ResolvedInput>>,
        random: Bytes)
    requires tx.inputs <= |tx.witnesses| && |answers| == tx.inputs && Lawful(c, s) && Lenient(codec.read)
    requires forall i :: 0 <= i < tx.inputs ==> codec.read(tx.witnesses[i]).Some?
    requires SignedTx(tx, codec, c, s, answers, random).Done?
    ensures AllLive(answers)
    ensures Verified(SignedTx(tx, codec, c, s, answers, random).value, codec, c, s, Cells(answers)) == Done(true)
  {
    var cells := Cells(answers);
    var stream := StreamOf(codec, tx, cells, AllInputs(tx.inputs)).value;
    var sig := c.sign(s.secretKey, c.digest(stream), random);
    var lock := Mldsa.WitnessLock(s.publicKey, sig);
    SpliceKeepsTheStream(codec, tx, cells, lock);
    Mldsa.WitnessLockParts(s.publicKey, sig);
    WitnessRoundTrip(WithLock(codec.read, tx.witnesses[0], lock));
  }

  /** The signed transaction, None where signing throws. */
  function SigningOutcome(tx: Tx, codec: Codec, c: Scheme, s: Signer, answers: seq<Option<ResolvedInput>>,
        random: Bytes): Option<Tx>
    requires |answers| == tx.inputs && Lenient(codec.read)
  {
    if !AllPlaceable(codec.read, tx.witnesses, tx.inputs) then None
    else
      PreparingIsIdempotent(codec.read, tx.witnesses, tx.inputs);
      match SignedTx(tx.(witnesses := Prepared(codec.read, tx.witnesses, tx.inputs)), codec, c, s, answers, random)
      case Done(t) => Some(t)
      case Failed(_) => None
  }

  /** When signing succeeds: there are inputs, every witness of an input can take a placeholder, every
      input's cell is live and under the signer's own lock, the stream can be built, and the signed
      witness fits. */
  lemma WhenSigningSucceeds(tx: Tx, codec: Codec, c: Scheme, s: Signer, answers: seq<Option<ResolvedInput>>,
        random: Bytes)
    requires |answers| == tx.inputs && Lenient(codec.read)
    requires forall i :: 0 <= i < tx.inputs && i < |tx.witnesses| ==> Placeable(codec.read, tx.witnesses[i])
    requires forall i :: 0 <= i < |answers| ==> answers[i].Some?
    ensures var prepared := tx.(witnesses := Prepared(codec.read, tx.witnesses, tx.inputs));
            var stream := StreamOf(codec, prepared, Cells(answers), AllInputs(tx.inputs));
            SigningOutcome(tx, codec, c, s, answers, random).Some?
            <==> tx.inputs > 0 && (forall i :: 0 <= i < |answers| ==> answers[i].value.cell.lock == s.lock)
                 && stream.Ok? && prepared.witnesses != [] && OtherFields(codec.read, prepared.witnesses[0]).Some?
                 && WitnessSize(WithLock(codec.read, prepared.witnesses[0],
                                         Signature(codec, c, s, random, stream.value))) < 0x1_0000_0000
  {
    PreparingIsIdempotent(codec.read, tx.witnesses, tx.inputs);
  }

  /** Nothing is signed over a cell that is not live. */
  lemma OnlyLiveCellsAreSigned(tx: Tx, codec: Codec, c: Scheme, s: Signer, answers: seq<Option<ResolvedInput>>,
        random: Bytes)
    requires |answers| == tx.inputs && Lenient(codec.read)
    requires SigningOutcome(tx, codec, c, s, answers, random).Some?
    ensures forall i :: 0 <= i < |answers| ==> answers[i].Some? && answers[i].value.cell.lock == s.lock
    ensures forall i :: 0 <= i < tx.inputs && i < |tx.witnesses| ==> Placeable(codec.read, tx.witnesses[i])
  {
    PreparingIsIdempotent(codec.read, tx.witnesses, tx.inputs);
    var cells := Cells(answers);
    assert forall i :: 0 <= i < |answers| ==> cells[i] == answers[i].value;
  }

  /** The signer: placeholders, resolution, the single-group check, stream, signature, splice. What
      comes out is exactly SignedTx of the prepared transaction, it passes the self-check, and on any
      failure no signature has been written. */
  method SignTransaction(tx: Transaction, codec: Codec, c: Scheme, s: Signer, answers: seq<Option<ResolvedInput>>,
        random: Bytes) returns (r: Result<()>)
    requires |answers| == tx.inputs && Lawful(c, s) && Lenient(codec.read)
    modifies tx
    ensures r.Done? <==> SigningOutcome(old(tx.Value()), codec, c, s, answers, random).Some?
    ensures r.Done? ==> SigningOutcome(old(tx.Value()), codec, c, s, answers, random) == Some(tx.Value())
    ensures r.Done? ==> AllLive(answers) && Verified(tx.Value(), codec, c, s, Cells(answers)) == Done(true)
    ensures r.Done? ==> tx.inputs > 0 && AllPlaceable(codec.read, old(tx.witnesses), tx.inputs)
                        && tx.witnesses[1..] == Prepared(codec.read, old(tx.witnesses), tx.inputs)[1..]
                        && OtherFields(codec.read, tx.witnesses[0])
                           == OtherFields(codec.read, Prepared(codec.read, old(tx.witnesses), tx.inputs)[0])
    ensures r.Failed? ==> exists k :: tx.witnesses == PlacedUpTo(codec.read, Padded(old(tx.witnesses), tx.inputs), k)
  {
    ghost var before := tx.witnesses;
    PaddingIsPlaceable(codec.read, before, tx.inputs);
    var prepared := EnsurePlaceholderWitnesses(tx, codec.read);
    if prepared.Failed? {
      return Failed(prepared.failure);
    }
    PreparingIsIdempotent(codec.read, before, tx.inputs);
    r := SignPrepared(tx, codec, c, s, answers, random);
  }

  method SignPrepared(tx: Transaction, codec: Codec, c: Scheme, s: Signer, answers: seq<Option<ResolvedInput>>,
        random: Bytes) returns (r: Result<()>)
    requires |answers| == tx.inputs <= |tx.witnesses| && Lawful(c, s) && Lenient(codec.read)
    requires forall i :: 0 <= i < tx.inputs ==> codec.read(tx.witnesses[i]).Some?
    modifies tx
    ensures match SignedTx(old(tx.Value()), codec, c, s, answers, random)
            case Failed(f) => r == Failed(f) && tx.witnesses == old(tx.witnesses)
            case Done(t) => r == Done(()) && tx.Value() == t
    ensures r.Done? ==>
            tx.inputs > 0 && AllLive(answers) && Verified(tx.Value(), codec, c, s, Cells(answers)) == Done(true)
    ensures r.Done? ==> |tx.witnesses| == |old(tx.witnesses)| && tx.witnesses[1..] == old(tx.witnesses)[1..]
                        && OtherFields(codec.read, tx.witnesses[0]) == OtherFields(codec.read, old(tx.witnesses)[0])
  {
    if tx.inputs == 0 {
      return Failed(NoInputs);
    }
    var resolved := Resolve(answers);
    if resolved.Failed? {
      return Failed(resolved.failure);
    }
    var mine := AssertAllInputsLockedBy(resolved.value, s.lock);
    if mine.Failed? {
      return Failed(mine.failure);
    }
    var stream := BuildCighashAllStream(codec, tx.Value(), resolved.value, AllInputs(tx.inputs));
    if stream.Err? {
      return Failed(NoStream(stream.error));
    }
    var signature := c.sign(s.secretKey, c.digest(stream.value), random);
    var lock := Mldsa.MldsaV2WitnessLock(s.publicKey, signature);
    var spliced := WithLock(codec.read, tx.witnesses[0], lock.value);
    if WitnessSize(spliced) >= U32_LIMIT {
      return Failed(WitnessMissing);
    }
    SignedTransactionsVerify(tx.Value(), codec, c, s, answers, random);
    WitnessRoundTrip(spliced);
    tx.witnesses := tx.witnesses[0 := WitnessBytes(spliced)];
    r := Done(());
  }

  method Resolve(answers: seq<Option<ResolvedInput>>) returns (r: Result<seq<ResolvedInput>>)
    ensures r == if AllLive(answers) then Done(Cells(answers)) else Failed(NotLive(FirstMissing(answers)))
  {
    var cells: seq<ResolvedInput> := [];
    var i := 0;
    while i < |answers|
      invariant 0 <= i <= |answers| && |cells| == i
      invariant forall k :: 0 <= k < i ==> answers[k] == Some(cells[k])
    {
      if answers[i].None? {
        return Failed(NotLive(i));
      }
      cells := cells + [answers[i].value];
      i := i + 1;
    }
    assert AllLive(answers) && cells == Cells(answers);
    r := Done(cells);
  }

  method AssertAllInputsLockedBy(cells: seq<ResolvedInput>, lock: Script) returns (r: Result<()>)
    ensures r == if AllMine(cells, lock) then Done(()) else Failed(NotMine(FirstForeign(cells, lock)))
  {
    var i := 0;
    while i < |cells|
      invariant 0 <= i <= |cells|
      invariant forall k :: 0 <= k < i ==> cells[k].cell.lock == lock
    {
      if cells[i].cell.lock != lock {
        return Failed(NotMine(i));
      }
      i := i + 1;
    }
    r := Done(());
  }

  /** Two different streams with one digest. */
  ghost predicate DigestsCollide(c: Scheme, a: Bytes, b: Bytes) {
    a != b && c.digest(a) == c.digest(b)
  }

  /** One signature that the key accepts for two different messages. */
  ghost predicate SignatureFitsTwice(c: Scheme, key: Bytes, d: Bytes, e: Bytes, signature: Bytes) {
    d != e && c.verify(key, d, signature) && c.verify(key, e, signature)
  }

  /** What the self-check verified when it accepted: the stream's digest under the signer's key. */
  lemma AcceptedMeansVerified(tx: Tx, codec: Codec, c: Scheme, s: Signer, cells: seq<ResolvedInput>)
    requires Verified(tx, codec, c, s, cells) == Done(true)
    ensures StreamOf(codec, tx, cells, AllInputs(tx.inputs)).Ok?
    ensures codec.read(tx.witnesses[0]).Some? && codec.read(tx.witnesses[0]).value.lock.Some?
    ensures |codec.read(tx.witnesses[0]).value.lock.value| == Mldsa.WITNESS_LOCK_BYTES
    ensures c.verify(s.publicKey, c.digest(StreamOf(codec, tx, cells, AllInputs(tx.inputs)).value),
                     codec.read(tx.witnesses[0]).value.lock.value[1 + Mldsa.PK_BYTES..])
  {
  }

  /** Two witnesses that read with the same input and output type. */
  ghost predicate SameTypes(read: Reader, a: Bytes, b: Bytes) {
    && read(a).Some? && read(b).Some?
    && read(a).value.inputType == read(b).value.inputType && read(a).value.outputType == read(b).value.outputType
  }

  /** All inputs signed: equal content leaves room for differences in the first witness's lock only. */
  lemma EqualContentEqualParts(read: Reader, t: Tx, u: Tx, cells: seq<ResolvedInput>, others: seq<ResolvedInput>)
    requires t.inputs == u.inputs
    requires Signed(read, t, cells, AllInputs(t.inputs)).Ok?
    requires Signed(read, t, cells, AllInputs(t.inputs)) == Signed(read, u, others, AllInputs(t.inputs))
    ensures t.hash == u.hash && cells == others && |t.witnesses| == |u.witnesses| > 0
    ensures t.witnesses[1..] == u.witnesses[1..]
    ensures SameTypes(read, t.witnesses[0], u.witnesses[0])
  {
    var g := AllInputs(t.inputs);
    WhatIsSigned(read, t, cells, g);
    WhatIsSigned(read, u, others, g);
    var c := Signed(read, t, cells, g).value;
    assert InRange(t, g) && InRange(u, g) && g[t.inputs - 1] == t.inputs - 1;
    forall k | 1 <= k < |t.witnesses| ensures t.witnesses[k] == u.witnesses[k] {
      if k < t.inputs {
        assert c.group[k - 1] == t.witnesses[g[k]] && c.group[k - 1] == u.witnesses[g[k]];
      } else {
        assert c.extra[k - t.inputs] == t.witnesses[k] && c.extra[k - t.inputs] == u.witnesses[k];
      }
    }
  }

  /** One signature, one content: when the self-check accepts two transactions with as many inputs
      that carry the same lock, either they have the same hash, cells, data and witnesses, down to
      the input and output type of the first, or they exhibit two different streams with one digest,
      or that very signature verifies for two different digests under the signer's key. Of the scheme
      nothing is asked. */
  lemma OneSignatureOneContent(c: Scheme, s: Signer, read: Reader, t: Tx, u: Tx, cells: seq<ResolvedInput>,
        others: seq<ResolvedInput>)
    requires |t.hash| == 32 && |u.hash| == 32 && t.inputs == u.inputs
    requires forall i :: 0 <= i < |cells| ==> CellOk(cells[i].cell)
    requires forall i :: 0 <= i < |others| ==> CellOk(others[i].cell)
    requires var codec := Codec(CellOutputBytes, read);
             Verified(t, codec, c, s, cells) == Done(true) && Verified(u, codec, c, s, others) == Done(true)
    requires read(t.witnesses[0]).value.lock == read(u.witnesses[0]).value.lock
    ensures var codec, g := Codec(CellOutputBytes, read), AllInputs(t.inputs);
            var a, b := StreamOf(codec, t, cells, g), StreamOf(codec, u, others, g);
            && a.Ok? && b.Ok?
            && ((t.hash == u.hash && cells == others && t.witnesses[1..] == u.witnesses[1..]
                 && SameTypes(read, t.witnesses[0], u.witnesses[0]))
                || DigestsCollide(c, a.value, b.value)
                || SignatureFitsTwice(c, s.publicKey, c.digest(a.value), c.digest(b.value),
                                      read(t.witnesses[0]).value.lock.value[1 + Mldsa.PK_BYTES..]))
  {
    var codec := Codec(CellOutputBytes, read);
    var g := AllInputs(t.inputs);
    AcceptedMeansVerified(t, codec, c, s, cells);
    AcceptedMeansVerified(u, codec, c, s, others);
    if StreamOf(codec, t, cells, g) == StreamOf(codec, u, others, g) {
      SignedContentIsOk(read, t, cells, g);
      SignedContentIsOk(read, u, others, g);
      StreamIsUniquelyDecodable(Signed(read, t, cells, g).value, Signed(read, u, others, g).value);
      EqualContentEqualParts(read, t, u, cells, others);
    }
  }
}
