/** The CighashAll signing stream: what it contains, the TypeScript and the Rust builders, and its
    unique decodability. */
module Cighash {
  import opened Options
  import opened Hex
  import opened Molecule

  datatype ResolvedInput = ResolvedInput(cell: CellOutput, data: Bytes)

  /** The raw transaction's hash, the number of inputs and the witnesses; the hash does not cover
      the witnesses. */
  datatype Tx = Tx(hash: Bytes, inputs: nat, witnesses: seq<Bytes>)

  datatype Error = MissingResolvedInput | EmptyGroup | GroupIndexOutOfRange | WitnessParse | SegmentTooLong

  datatype Outcome<+T> = Ok(value: T) | Err(error: Error)

  // ---------------------------------------------------------------- the stream

  function Concat<T>(f: T -> Bytes, items: seq<T>): Bytes {
    if items == [] then [] else f(items[0]) + Concat(f, items[1..])
  }

  /** How a cell output is written: the codec's `toBytes`, which is CellOutputBytes. The builders are
      proved for any. */
  type CellWriter = CellOutput -> Bytes

  /** How a witness is read. */
  type Reader = Bytes -> Option<WitnessArgs>

  /** What the builders use of a library: CCC's for TypeScript, the molecule crate's for Rust. */
  datatype Codec = Codec(write: CellWriter, read: Reader)

  /** A reader that accepts every table the strict one accepts, with the same fields, and no empty
      witness; what it makes of other bytes, tables with further fields for instance, is its own. */
  ghost predicate Lenient(read: Reader) {
    read([]).None? && forall b :: ReadWitness(b).Some? ==> read(b) == ReadWitness(b)
  }

  function Segment(write: CellWriter): ResolvedInput -> Bytes {
    (r: ResolvedInput) => write(r.cell) + Prefixed(r.data)
  }

  /** What is signed, segment by segment; the lock of the first witness is the signature and is not
      part of it. */
  datatype Content = Content(hash: Bytes, inputs: seq<ResolvedInput>, inputType: Option<Bytes>,
        outputType: Option<Bytes>,
                             group: seq<Bytes>, extra: seq<Bytes>)

  function Stream(write: CellWriter, c: Content): Bytes {
    c.hash + Concat(Segment(write), c.inputs) + Prefixed(BytesOpt(c.inputType)) + Prefixed(BytesOpt(c.outputType))
    + Concat(Prefixed, c.group) + Concat(Prefixed, c.extra)
  }

  predicate Fits(b: Bytes) {
    |b| < U32_LIMIT
  }

  predicate InRange(tx: Tx, group: seq<int>) {
    forall i :: 0 <= i < |group| ==> 0 <= group[i] < |tx.witnesses|
  }

  function Picked(tx: Tx, group: seq<int>): (ws: seq<Bytes>)
    requires InRange(tx, group)
    ensures |ws| == |group| && forall i :: 0 <= i < |group| ==> ws[i] == tx.witnesses[group[i]]
  {
    seq(|group|, i requires 0 <= i < |group| => tx.witnesses[group[i]])
  }

  /** Witnesses without an input. */
  function Extra(tx: Tx): seq<Bytes> {
    if tx.inputs < |tx.witnesses| then tx.witnesses[tx.inputs..] else []
  }

  predicate AllFit(ws: seq<Bytes>) {
    forall i :: 0 <= i < |ws| ==> Fits(ws[i])
  }

  predicate DataFits(resolved: seq<ResolvedInput>) {
    forall i :: 0 <= i < |resolved| ==> Fits(resolved[i].data)
  }

  predicate FieldsFit(w: WitnessArgs) {
    Fits(BytesOpt(w.inputType)) && Fits(BytesOpt(w.outputType))
  }

  /** What a transaction signs, with the failures in the order both builders meet them. */
  function Signed(read: Reader, tx: Tx, resolved: seq<ResolvedInput>, group: seq<int>): Outcome<Content> {
    if |resolved| != tx.inputs then Err(MissingResolvedInput)
    else if group == [] then Err(EmptyGroup)
    else if !InRange(tx, group) then Err(GroupIndexOutOfRange)
    else if !DataFits(resolved) then Err(SegmentTooLong)
    else
      match read(tx.witnesses[group[0]])
      case None => Err(WitnessParse)
      case Some(w) =>
        if !FieldsFit(w) || !AllFit(Picked(tx, group[1..])) || !AllFit(Extra(tx)) then Err(SegmentTooLong)
        else Ok(Content(tx.hash, resolved, w.inputType, w.outputType, Picked(tx, group[1..]), Extra(tx)))
  }

  function StreamOf(codec: Codec, tx: Tx, resolved: seq<ResolvedInput>, group: seq<int>): Outcome<Bytes> {
    match Signed(codec.read, tx, resolved, group)
    case Ok(c) => Ok(Stream(codec.write, c))
    case Err(e) => Err(e)
  }

  // ---------------------------------------------------------------- lists of segments

  lemma {:induction false} ConcatAppends<T>(f: T -> Bytes, a: seq<T>, b: seq<T>)
    ensures Concat(f, a + b) == Concat(f, a) + Concat(f, b)
  {
    if a == [] {
      assert a + b == b;
    } else {
      ConcatAppends(f, a[1..], b);
      assert (a + b)[0] == a[0] && (a + b)[1..] == a[1..] + b;
    }
  }

  lemma ConcatNext<T>(f: T -> Bytes, items: seq<T>, i: nat)
    requires i < |items|
    ensures Concat(f, items[..i + 1]) == Concat(f, items[..i]) + f(items[i])
  {
    ConcatAppends(f, items[..i], [items[i]]);
    assert items[..i + 1] == items[..i] + [items[i]];
    assert Concat(f, [items[i]]) == f(items[i]) + Concat(f, []) == f(items[i]);
  }

  /** Equal texts whose items say themselves where they end, followed by anything, are the same
      items; and without a count, as long as nothing follows. */
  ghost predicate SelfDelimiting<T(!new)>(f: T -> Bytes, ok: T -> bool) {
    && (forall a, b, x, y :: ok(a) && ok(b) && f(a) + x == f(b) + y ==> a == b && x == y)
    && (forall a :: f(a) != [])
  }

  lemma {:induction false} ConcatIsUnique<T(!new)>(f: T -> Bytes, ok: T -> bool, a: seq<T>, b: seq<T>, x: Bytes,
        y: Bytes)
    requires SelfDelimiting(f, ok) && |a| == |b|
    requires forall i :: 0 <= i < |a| ==> ok(a[i]) && ok(b[i])
    requires Concat(f, a) + x == Concat(f, b) + y
    ensures a == b && x == y
    decreases |a|
  {
    if a == [] {
      assert Concat(f, a) + x == x && Concat(f, b) + y == y;
    } else {
      var ra, rb := Concat(f, a[1..]) + x, Concat(f, b[1..]) + y;
      assert Concat(f, a) + x == f(a[0]) + ra && Concat(f, b) + y == f(b[0]) + rb;
      ConcatIsUnique(f, ok, a[1..], b[1..], x, y);
      assert a == [a[0]] + a[1..] && b == [b[0]] + b[1..];
    }
  }

  lemma {:induction false} ConcatToTheEnd<T(!new)>(f: T -> Bytes, ok: T -> bool, a: seq<T>, b: seq<T>)
    requires SelfDelimiting(f, ok)
    requires forall i :: 0 <= i < |a| ==> ok(a[i])
    requires forall i :: 0 <= i < |b| ==> ok(b[i])
    requires Concat(f, a) == Concat(f, b)
    ensures a == b
    decreases |a|
  {
    if a != [] && b != [] {
      assert f(a[0]) + Concat(f, a[1..]) == f(b[0]) + Concat(f, b[1..]);
      ConcatToTheEnd(f, ok, a[1..], b[1..]);
      assert a == [a[0]] + a[1..] && b == [b[0]] + b[1..];
    }
  }

  predicate InputOk(r: ResolvedInput) {
    CellOk(r.cell) && Fits(r.data)
  }

  lemma SegmentIsSelfDelimiting(a: ResolvedInput, b: ResolvedInput, x: Bytes, y: Bytes)
    requires InputOk(a) && InputOk(b) && Segment(CellOutputBytes)(a) + x == Segment(CellOutputBytes)(b) + y
    ensures a == b && x == y
  {
    var ra, rb := Prefixed(a.data) + x, Prefixed(b.data) + y;
    assert Segment(CellOutputBytes)(a) + x == CellOutputBytes(a.cell) + ra;
    assert Segment(CellOutputBytes)(b) + y == CellOutputBytes(b.cell) + rb;
    CellOutputIsSelfDelimiting(a.cell, b.cell, ra, rb);
    PrefixedIsSelfDelimiting(a.data, b.data, x, y);
  }

  lemma SegmentsAreSelfDelimiting()
    ensures SelfDelimiting(Segment(CellOutputBytes), InputOk)
  {
    var f := Segment(CellOutputBytes);
    forall a, b, x, y | InputOk(a) && InputOk(b) && f(a) + x == f(b) + y ensures a == b && x == y {
      SegmentIsSelfDelimiting(a, b, x, y);
    }
    forall a ensures f(a) != [] {
      assert f(a) == CellOutputBytes(a.cell) + Prefixed(a.data);
      assert |Prefixed(a.data)| >= 4;
    }
  }

  lemma PrefixedSegmentsAreSelfDelimiting()
    ensures SelfDelimiting(Prefixed, Fits)
  {
    forall a, b, x, y | Fits(a) && Fits(b) && Prefixed(a) + x == Prefixed(b) + y ensures a == b && x == y {
      PrefixedIsSelfDelimiting(a, b, x, y);
    }
  }

  // ---------------------------------------------------------------- unique decodability

  predicate ContentOk(c: Content) {
    && |c.hash| == 32
    && (forall i :: 0 <= i < |c.inputs| ==> InputOk(c.inputs[i]))
    && Fits(BytesOpt(c.inputType)) && Fits(BytesOpt(c.outputType))
    && AllFit(c.group) && AllFit(c.extra)
  }

  lemma OptionIsUnique(a: Option<Bytes>, b: Option<Bytes>)
    requires Fits(BytesOpt(a)) && Fits(BytesOpt(b)) && BytesOpt(a) == BytesOpt(b)
    ensures a == b
  {
    BytesOptRoundTrip(a);
    BytesOptRoundTrip(b);
  }

  lemma Regrouped(c: Content)
    ensures Stream(CellOutputBytes, c)
            == c.hash + (Concat(Segment(CellOutputBytes), c.inputs)
                         + (Prefixed(BytesOpt(c.inputType))
                            + (Prefixed(BytesOpt(c.outputType))
                               + (Concat(Prefixed, c.group) + Concat(Prefixed, c.extra)))))
  {
    var a, b, d := Concat(Segment(CellOutputBytes), c.inputs), Prefixed(BytesOpt(c.inputType)),
                   Prefixed(BytesOpt(c.outputType));
    var e, f := Concat(Prefixed, c.group), Concat(Prefixed, c.extra);
    Associate(c.hash, a, b, d, e, f);
  }

  lemma Associate(h: Bytes, a: Bytes, b: Bytes, d: Bytes, e: Bytes, f: Bytes)
    ensures h + a + b + d + e + f == h + (a + (b + (d + (e + f))))
  {
  }

  /** The stream determines all it covers: for the same number of inputs and the same group size,
      equal streams mean the same transaction hash, the same resolved cells and data, the same
      input and output type of the first witness (None is not Some of no bytes), the same other
      group witnesses and the same extra witnesses, their number included. */
  lemma StreamIsUniquelyDecodable(c: Content, d: Content)
    requires ContentOk(c) && ContentOk(d) && |c.inputs| == |d.inputs| && |c.group| == |d.group|
    requires Stream(CellOutputBytes, c) == Stream(CellOutputBytes, d)
    ensures c == d
  {
    Regrouped(c);
    Regrouped(d);
    SegmentsAreSelfDelimiting();
    PrefixedSegmentsAreSelfDelimiting();
    var c4, d4 := Concat(Prefixed, c.group) + Concat(Prefixed, c.extra),
                  Concat(Prefixed, d.group) + Concat(Prefixed, d.extra);
    var c3, d3 := Prefixed(BytesOpt(c.outputType)) + c4, Prefixed(BytesOpt(d.outputType)) + d4;
    var c2, d2 := Prefixed(BytesOpt(c.inputType)) + c3, Prefixed(BytesOpt(d.inputType)) + d3;
    var c1, d1 := Concat(Segment(CellOutputBytes), c.inputs) + c2, Concat(Segment(CellOutputBytes), d.inputs) + d2;
    assert Stream(CellOutputBytes, c)[..32] == c.hash && Stream(CellOutputBytes, d)[..32] == d.hash
           && c1 == Stream(CellOutputBytes, c)[32..] && d1 == Stream(CellOutputBytes, d)[32..];
    ConcatIsUnique(Segment(CellOutputBytes), InputOk, c.inputs, d.inputs, c2, d2);
    PrefixedIsSelfDelimiting(BytesOpt(c.inputType), BytesOpt(d.inputType), c3, d3);
    PrefixedIsSelfDelimiting(BytesOpt(c.outputType), BytesOpt(d.outputType), c4, d4);
    OptionIsUnique(c.inputType, d.inputType);
    OptionIsUnique(c.outputType, d.outputType);
    ConcatIsUnique(Prefixed, Fits, c.group, d.group, Concat(Prefixed, c.extra), Concat(Prefixed, d.extra));
    ConcatToTheEnd(Prefixed, Fits, c.extra, d.extra);
  }

  /** What a successful stream covers of a transaction: its hash, every resolved cell with its data,
      the two types of the group's first witness, the rest of the group's witnesses in the group's
      order, and every witness beyond the inputs, in order. */
  lemma WhatIsSigned(read: Reader, tx: Tx, resolved: seq<ResolvedInput>, group: seq<int>)
    requires Signed(read, tx, resolved, group).Ok?
    ensures InRange(tx, group) && |group| > 0 && |resolved| == tx.inputs
    ensures var c, first := Signed(read, tx, resolved, group).value, read(tx.witnesses[group[0]]);
            && c.hash == tx.hash && c.inputs == resolved
            && first.Some? && c.inputType == first.value.inputType && c.outputType == first.value.outputType
            && |c.group| == |group| - 1 && (forall k :: 1 <= k < |group| ==> c.group[k - 1] == tx.witnesses[group[k]])
            && |c.extra| == (if tx.inputs < |tx.witnesses| then |tx.witnesses| - tx.inputs else 0)
            && (forall k :: tx.inputs <= k < |tx.witnesses| ==> c.extra[k - tx.inputs] == tx.witnesses[k])
  {
  }

  /** What a transaction signs is always content the stream determines. */
  lemma SignedContentIsOk(read: Reader, tx: Tx, resolved: seq<ResolvedInput>, group: seq<int>)
    requires |tx.hash| == 32 && Signed(read, tx, resolved, group).Ok?
    requires forall i :: 0 <= i < |resolved| ==> CellOk(resolved[i].cell)
    ensures ContentOk(Signed(read, tx, resolved, group).value)
  {
    var w := read(tx.witnesses[group[0]]).value;
    assert FieldsFit(w);
  }

  lemma MoveOver(group: seq<Bytes>, extra: seq<Bytes>)
    requires extra != []
    ensures Concat(Prefixed, group + extra[..1]) + Concat(Prefixed, extra[1..])
            == Concat(Prefixed, group) + Concat(Prefixed, extra)
  {
    ConcatAppends(Prefixed, group, extra[..1]);
    ConcatAppends(Prefixed, extra[..1], extra[1..]);
    assert extra == extra[..1] + extra[1..];
  }

  /** Without the group size the stream is ambiguous: a witness of the group and an extra witness
      are written the same way. */
  lemma GroupSizeIsNotInTheStream(c: Content)
    requires c.extra != []
    ensures Stream(CellOutputBytes, c.(group := c.group + c.extra[..1], extra := c.extra[1..]))
            == Stream(CellOutputBytes, c)
  {
    MoveOver(c.group, c.extra);
    Regrouped(c);
    Regrouped(c.(group := c.group + c.extra[..1], extra := c.extra[1..]));
  }

  // ---------------------------------------------------------------- the TypeScript builder

  function Same(b: Bytes): Bytes {
    b
  }

  function Flatten(parts: seq<Bytes>): Bytes {
    Concat(Same, parts)
  }

  lemma FlattenAppends(parts: seq<Bytes>, more: seq<Bytes>)
    ensures Flatten(parts + more) == Flatten(parts) + Flatten(more)
  {
    ConcatAppends(Same, parts, more);
  }

  lemma FlattenOne(b: Bytes)
    ensures Flatten([b]) == b
  {
    assert Concat(Same, [b]) == Same(b) + Concat(Same, []);
  }

  lemma FlattenTwo(a: Bytes, b: Bytes)
    ensures Flatten([a, b]) == a + b
  {
    assert [a, b] == [a] + [b];
    FlattenAppends([a], [b]);
    FlattenOne(a);
    FlattenOne(b);
  }

  /** Pushing a length prefix and its bytes. */
  lemma PushPrefixed(parts: seq<Bytes>, b: Bytes)
    ensures Flatten(parts + [U32Le(|b|), b]) == Flatten(parts) + Prefixed(b)
  {
    FlattenAppends(parts, [U32Le(|b|), b]);
    FlattenTwo(U32Le(|b|), b);
  }

  lemma PushCell(parts: seq<Bytes>, cell: Bytes, data: Bytes)
    ensures Flatten(parts + [cell, U32Le(|data|), data]) == Flatten(parts) + (cell + Prefixed(data))
  {
    FlattenAppends(parts, [cell]);
    FlattenOne(cell);
    PushPrefixed(parts + [cell], data);
    assert parts + [cell] + [U32Le(|data|), data] == parts + [cell, U32Le(|data|), data];
  }

  /** One turn of the loop over the resolved inputs. */
  method PushInput(write: CellWriter, parts: seq<Bytes>, input: ResolvedInput) returns (out: seq<Bytes>)
    ensures Flatten(out) == Flatten(parts) + Segment(write)(input)
  {
    var cell := write(input.cell);
    PushCell(parts, cell, input.data);
    out := parts + [cell, U32Le(|input.data|), input.data];
  }

  lemma NextSegment<T>(f: T -> Bytes, items: seq<T>, i: nat, before: Bytes, so: Bytes, now: Bytes)
    requires i < |items| && so == before + Concat(f, items[..i]) && now == so + f(items[i])
    ensures now == before + Concat(f, items[..i + 1])
  {
    ConcatNext(f, items, i);
  }

  /** The loops over whole witnesses: the group's other ones, and the extra ones. */
  method PushWitnesses(parts: seq<Bytes>, witnesses: seq<Bytes>) returns (r: Outcome<seq<Bytes>>)
    ensures r.Ok? <==> AllFit(witnesses)
    ensures r.Err? ==> r.error == SegmentTooLong
    ensures r.Ok? ==> Flatten(r.value) == Flatten(parts) + Concat(Prefixed, witnesses)
  {
    var out := parts;
    var i := 0;
    while i < |witnesses|
      invariant 0 <= i <= |witnesses| && AllFit(witnesses[..i])
      invariant Flatten(out) == Flatten(parts) + Concat(Prefixed, witnesses[..i])
    {
      var w := witnesses[i];
      if |w| >= U32_LIMIT {
        return Err(SegmentTooLong);
      }
      PushPrefixed(out, w);
      ConcatNext(Prefixed, witnesses, i);
      out := out + [U32Le(|w|), w];
      i := i + 1;
    }
    assert witnesses[..i] == witnesses;
    r := Ok(out);
  }

  /** The loop over the resolved inputs. */
  method PushInputs(write: CellWriter, parts: seq<Bytes>, resolved: seq<ResolvedInput>) returns (r: Outcome<seq<Bytes>>)
    ensures r.Ok? <==> DataFits(resolved)
    ensures r.Err? ==> r.error == SegmentTooLong
    ensures r.Ok? ==> Flatten(r.value) == Flatten(parts) + Concat(Segment(write), resolved)
  {
    var out := parts;
    var i := 0;
    while i < |resolved|
      invariant 0 <= i <= |resolved| && DataFits(resolved[..i])
      invariant Flatten(out) == Flatten(parts) + Concat(Segment(write), resolved[..i])
    {
      var input := resolved[i];
      if |input.data| >= U32_LIMIT {
        return Err(SegmentTooLong);
      }
      var next := PushInput(write, out, input);
      NextSegment(Segment(write), resolved, i, Flatten(parts), Flatten(out), Flatten(next));
      out := next;
      i := i + 1;
    }
    assert resolved[..i] == resolved;
    r := Ok(out);
  }

  /** The parts copied one behind the other into an array of their total length. */
  method Joined(parts: seq<Bytes>) returns (out: array<byte>)
    ensures fresh(out) && out[..] == Flatten(parts)
  {
    var total := 0;
    var i := 0;
    while i < |parts|
      invariant 0 <= i <= |parts| && total == |Flatten(parts[..i])|
    {
      ConcatNext(Same, parts, i);
      total := total + |parts[i]|;
      i := i + 1;
    }
    assert parts[..i] == parts;
    out := new byte[total];
    var offset := 0;
    i := 0;
    while i < |parts|
      invariant 0 <= i <= |parts| && offset == |Flatten(parts[..i])|
      invariant out.Length == |Flatten(parts)| && offset <= out.Length && out[..offset] == Flatten(parts[..i])
    {
      ConcatNext(Same, parts, i);
      FlattenAppends(parts[..i + 1], parts[i + 1..]);
      assert parts == parts[..i + 1] + parts[i + 1..];
      var part := parts[i];
      forall k | 0 <= k < |part| {
        out[offset + k] := part[k];
      }
      assert out[..offset + |part|] == out[..offset] + part;
      offset := offset + |part|;
      i := i + 1;
    }
    assert parts[..i] == parts;
  }

  method BuildCighashAllStream(codec: Codec, tx: Tx, resolved: seq<ResolvedInput>, group: seq<int>)
        returns (r: Outcome<Bytes>)
    ensures r == StreamOf(codec, tx, resolved, group)
  {
    if |resolved| != tx.inputs {
      return Err(MissingResolvedInput);
    }
    if |group| == 0 {
      return Err(EmptyGroup);
    }
    var k := 0;
    while k < |group|
      invariant 0 <= k <= |group| && InRange(tx, group[..k])
    {
      if group[k] < 0 || group[k] >= |tx.witnesses| {
        return Err(GroupIndexOutOfRange);
      }
      k := k + 1;
    }
    assert group[..k] == group;
    var inputs := PushInputs(codec.write, [tx.hash], resolved);
    if inputs.Err? {
      return Err(inputs.error);
    }
    var first := codec.read(tx.witnesses[group[0]]);
    if first.None? {
      return Err(WitnessParse);
    }
    if !Fits(BytesOpt(first.value.inputType)) || !Fits(BytesOpt(first.value.outputType)) {
      return Err(SegmentTooLong);
    }
    var inputType, outputType := BytesOpt(first.value.inputType), BytesOpt(first.value.outputType);
    var p1 := inputs.value + [U32Le(|inputType|), inputType];
    var p2 := p1 + [U32Le(|outputType|), outputType];
    PushPrefixed(inputs.value, inputType);
    PushPrefixed(p1, outputType);
    var p3 := PushWitnesses(p2, Picked(tx, group[1..]));
    if p3.Err? {
      return Err(p3.error);
    }
    var p4 := PushWitnesses(p3.value, Extra(tx));
    if p4.Err? {
      return Err(p4.error);
    }
    FlattenOne(tx.hash);
    var out := Joined(p4.value);
    r := Ok(out[..]);
  }

  // ---------------------------------------------------------------- the Rust host builder

  class Writer {
    var out: Bytes

    constructor ()
      ensures out == []
    {
      out := [];
    }

    method WriteAll(b: Bytes)
      modifies this
      ensures out == old(out) + b
    {
      out := out + b;
    }

    /** A length that does not fit a u32 is a panic: false. */
    method WriteLength(length: nat) returns (ok: bool)
      modifies this
      ensures ok <==> length < U32_LIMIT
      ensures out == if ok then old(out) + U32Le(length) else old(out)
    {
      ok := length < U32_LIMIT;
      if ok {
        WriteAll(U32Le(length));
      }
    }

    method WritePrefixed(b: Bytes) returns (ok: bool)
      modifies this
      ensures ok <==> Fits(b)
      ensures ok ==> out == old(out) + Prefixed(b)
    {
      ok := WriteLength(|b|);
      if ok {
        WriteAll(b);
      }
    }

    method WriteWitnesses(witnesses: seq<Bytes>) returns (ok: bool)
      modifies this
      ensures ok <==> AllFit(witnesses)
      ensures ok ==> out == old(out) + Concat(Prefixed, witnesses)
    {
      var i := 0;
      while i < |witnesses|
        invariant 0 <= i <= |witnesses| && AllFit(witnesses[..i])
        invariant out == old(out) + Concat(Prefixed, witnesses[..i])
      {
        ConcatNext(Prefixed, witnesses, i);
        ok := WritePrefixed(witnesses[i]);
        if !ok {
          return;
        }
        i := i + 1;
      }
      assert witnesses[..i] == witnesses;
      ok := true;
    }

    method WriteInputs(write: CellWriter, resolved: seq<ResolvedInput>) returns (ok: bool)
      modifies this
      ensures ok <==> DataFits(resolved)
      ensures ok ==> out == old(out) + Concat(Segment(write), resolved)
    {
      var i := 0;
      while i < |resolved|
        invariant 0 <= i <= |resolved| && DataFits(resolved[..i])
        invariant out == old(out) + Concat(Segment(write), resolved[..i])
      {
        ConcatNext(Segment(write), resolved, i);
        WriteAll(write(resolved[i].cell));
        ok := WritePrefixed(resolved[i].data);
        if !ok {
          return;
        }
        i := i + 1;
      }
      assert resolved[..i] == resolved;
      ok := true;
    }
  }

  /** What the stream holds behind the resolved inputs. */
  function WitnessPart(w: WitnessArgs, group: seq<Bytes>, extra: seq<Bytes>): Bytes {
    Prefixed(BytesOpt(w.inputType)) + Prefixed(BytesOpt(w.outputType))
      + Concat(Prefixed, group) + Concat(Prefixed, extra)
  }

  lemma OneAndFour(o: Bytes, a: Bytes, b: Bytes, g: Bytes, e: Bytes)
    ensures o + a + b + g + e == o + (a + b + g + e)
  {
  }

  method WriteWitnessPart(writer: Writer, w: WitnessArgs, group: seq<Bytes>, extra: seq<Bytes>) returns (ok: bool)
    requires WitnessSize(w) < U32_LIMIT
    modifies writer
    ensures ok <==> AllFit(group) && AllFit(extra)
    ensures ok ==> writer.out == old(writer.out) + WitnessPart(w, group, extra)
  {
    ok := writer.WritePrefixed(BytesOpt(w.inputType));
    ok := writer.WritePrefixed(BytesOpt(w.outputType));
    ok := writer.WriteWitnesses(group);
    if ok {
      ok := writer.WriteWitnesses(extra);
    }
    OneAndFour(old(writer.out), Prefixed(BytesOpt(w.inputType)), Prefixed(BytesOpt(w.outputType)),
               Concat(Prefixed, group), Concat(Prefixed, extra));
  }

  method CheckGroup(tx: Tx, group: seq<nat>) returns (ok: bool)
    ensures ok <==> InRange(tx, group)
  {
    var k := 0;
    while k < |group|
      invariant 0 <= k <= |group| && forall i :: 0 <= i < k ==> group[i] < |tx.witnesses|
    {
      if group[k] >= |tx.witnesses| {
        return false;
      }
      k := k + 1;
    }
    ok := true;
  }

  lemma TwoAndFour(h: Bytes, i: Bytes, a: Bytes, b: Bytes, g: Bytes, e: Bytes)
    ensures h + i + a + b + g + e == h + i + (a + b + g + e)
  {
    assert h + i + a + b + g + e == (h + i) + (a + b) + (g + e);
    assert a + b + g + e == (a + b) + (g + e);
  }

  /** The Rust builder's library: the molecule crate's reader, which takes exactly three fields. */
  function Strict(write: CellWriter): Codec {
    Codec(write, ReadWitness)
  }

  lemma StrictFieldsFit(b: Bytes)
    ensures ReadWitness(b).Some? ==> WitnessSize(ReadWitness(b).value) < U32_LIMIT && FieldsFit(ReadWitness(b).value)
  {
    if ReadWitness(b).Some? {
      WitnessIsCanonical(b);
    }
  }

  lemma StreamHasWitnessPart(write: CellWriter, tx: Tx, resolved: seq<ResolvedInput>, group: seq<int>, w: WitnessArgs)
    requires StreamOf(Strict(write), tx, resolved, group).Ok? && ReadWitness(tx.witnesses[group[0]]) == Some(w)
    ensures StreamOf(Strict(write), tx, resolved, group).value
            == tx.hash + Concat(Segment(write), resolved) + WitnessPart(w, Picked(tx, group[1..]), Extra(tx))
  {
    var c := Signed(ReadWitness, tx, resolved, group).value;
    assert c == Content(tx.hash, resolved, w.inputType, w.outputType, Picked(tx, group[1..]), Extra(tx));
    TwoAndFour(c.hash, Concat(Segment(write), c.inputs), Prefixed(BytesOpt(c.inputType)),
               Prefixed(BytesOpt(c.outputType)),
               Concat(Prefixed, c.group), Concat(Prefixed, c.extra));
  }

  /** The stream of a transaction that passed the checks at the boundary. */
  lemma CheckedStream(write: CellWriter, tx: Tx, resolved: seq<ResolvedInput>, group: seq<int>)
    requires |resolved| == tx.inputs && group != [] && InRange(tx, group)
    ensures var w := ReadWitness(tx.witnesses[group[0]]);
            StreamOf(Strict(write), tx, resolved, group)
            == if !DataFits(resolved) then Err(SegmentTooLong)
               else if w.None? then Err(WitnessParse)
               else if !AllFit(Picked(tx, group[1..])) || !AllFit(Extra(tx)) then Err(SegmentTooLong)
               else Ok(tx.hash + Concat(Segment(write), resolved)
                       + WitnessPart(w.value, Picked(tx, group[1..]), Extra(tx)))
  {
    StrictFieldsFit(tx.witnesses[group[0]]);
    if StreamOf(Strict(write), tx, resolved, group).Ok? {
      StreamHasWitnessPart(write, tx, resolved, group, ReadWitness(tx.witnesses[group[0]]).value);
    }
  }

  lemma FourInARow(a: Bytes, b: Bytes, c: Bytes, d: Bytes)
    ensures a + b + c + d == a + (b + c + d)
  {
  }

  method WriteChecked(writer: Writer, write: CellWriter, tx: Tx, resolved: seq<ResolvedInput>, group: seq<int>)
        returns (r: Outcome<()>)
    requires |resolved| == tx.inputs && group != [] && InRange(tx, group)
    modifies writer
    ensures StreamOf(Strict(write), tx, resolved, group).Err?
            ==> r == Err(StreamOf(Strict(write), tx, resolved, group).error)
    ensures StreamOf(Strict(write), tx, resolved, group).Ok?
            ==> r == Ok(()) && writer.out == old(writer.out) + StreamOf(Strict(write), tx, resolved, group).value
  {
    ghost var stream := StreamOf(Strict(write), tx, resolved, group);
    CheckedStream(write, tx, resolved, group);
    writer.WriteAll(tx.hash);
    var ok := writer.WriteInputs(write, resolved);
    if !ok {
      return Err(SegmentTooLong);
    }
    var first := ReadWitness(tx.witnesses[group[0]]);
    if first.None? {
      return Err(WitnessParse);
    }
    StrictFieldsFit(tx.witnesses[group[0]]);
    ok := WriteWitnessPart(writer, first.value, Picked(tx, group[1..]), Extra(tx));
    if !ok {
      return Err(SegmentTooLong);
    }
    FourInARow(old(writer.out), tx.hash, Concat(Segment(write), resolved), WitnessPart(first.value, Picked(tx,
        group[1..]), Extra(tx)));
    assert stream.Ok? && writer.out == old(writer.out) + stream.value;
    r := Ok(());
  }

  /** The second implementation, writing segment by segment: it fails with the error or writes the
      stream that the specification gives for a strict reader. */
  method GenerateTxMessageAllHost(writer: Writer, write: CellWriter, tx: Tx, resolved: seq<ResolvedInput>,
        group: seq<nat>) returns (r: Outcome<()>)
    modifies writer
    ensures StreamOf(Strict(write), tx, resolved, group).Err?
            ==> r == Err(StreamOf(Strict(write), tx, resolved, group).error)
    ensures StreamOf(Strict(write), tx, resolved, group).Ok?
            ==> r == Ok(()) && writer.out == old(writer.out) + StreamOf(Strict(write), tx, resolved, group).value
  {
    if |resolved| != tx.inputs {
      return Err(MissingResolvedInput);
    }
    if |group| == 0 {
      return Err(EmptyGroup);
    }
    var inRange := CheckGroup(tx, group);
    if !inRange {
      return Err(GroupIndexOutOfRange);
    }
    r := WriteChecked(writer, write, tx, resolved, group);
  }

  // ---------------------------------------------------------------- the two together

  /** Both builders reach the first witness. */
  predicate ReachesTheWitness(tx: Tx, resolved: seq<ResolvedInput>, group: seq<int>) {
    |resolved| == tx.inputs && group != [] && InRange(tx, group) && DataFits(resolved)
  }

  /** What the Rust builder writes, the TypeScript builder writes too, whatever its reader makes of
      tables that are not WitnessArgs to the strict one. */
  lemma WhatRustWritesTypeScriptWrites(codec: Codec, tx: Tx, resolved: seq<ResolvedInput>, group: seq<int>)
    requires Lenient(codec.read) && StreamOf(Strict(codec.write), tx, resolved, group).Ok?
    ensures StreamOf(codec, tx, resolved, group) == StreamOf(Strict(codec.write), tx, resolved, group)
  {
    assert ReadWitness(tx.witnesses[group[0]]).Some?;
  }

  /** The two builders differ exactly where all checks before it pass and the first group witness is
      one that TypeScript's reader accepts and the strict one refuses. There Rust always answers
      that the witness does not parse. */
  lemma WhereTheBuildersDiffer(codec: Codec, tx: Tx, resolved: seq<ResolvedInput>, group: seq<int>)
    requires Lenient(codec.read)
    ensures StreamOf(codec, tx, resolved, group) != StreamOf(Strict(codec.write), tx, resolved, group)
            <==> ReachesTheWitness(tx, resolved, group)
                 && codec.read(tx.witnesses[group[0]]).Some? && ReadWitness(tx.witnesses[group[0]]).None?
    ensures StreamOf(codec, tx, resolved, group) != StreamOf(Strict(codec.write), tx, resolved, group)
            ==> StreamOf(Strict(codec.write), tx, resolved, group) == Err(WitnessParse)
  {
    if ReachesTheWitness(tx, resolved, group) {
      var b := tx.witnesses[group[0]];
      assert ReadWitness(b).Some? ==> codec.read(b) == ReadWitness(b);
    }
  }

  /** Such a witness: a table of four empty fields. */
  const FOUR_FIELDS: Bytes := [20, 0, 0, 0, 20, 0, 0, 0, 20, 0, 0, 0, 20, 0, 0, 0, 20, 0, 0, 0]

  /** A reader that skips further fields is lenient, and then the builders do differ. */
  lemma AFourthFieldTellsThemApart(write: CellWriter, hash: Bytes, input: ResolvedInput)
    requires Fits(input.data)
    ensures ReadWitness(FOUR_FIELDS).None?
    ensures var read: Reader := b => if b == FOUR_FIELDS then Some(WitnessArgs(None, None, None)) else ReadWitness(b);
            var tx := Tx(hash, 1, [FOUR_FIELDS]);
            && Lenient(read)
            && StreamOf(Codec(write, read), tx, [input], [0]).Ok?
            && StreamOf(Strict(write), tx, [input], [0]) == Err(WitnessParse)
  {
    assert ReadWitness(FOUR_FIELDS).None?;
    assert ReadTable3([]).None?;
  }
}
