/** The Molecule encodings the signing stream is made of, after CKB RFC 0008: little-endian
    integers, `Bytes`, `BytesOpt` and tables of three fields, which is what Script, CellOutput and
    WitnessArgs all are. */
module Molecule {
  import opened Options
  import opened Hex

  type Bytes = seq<byte>

  const U32_LIMIT: nat := 0x1_0000_0000

  function LowByte(n: nat): byte {
    n % 256
  }

  function U32Le(n: nat): (b: Bytes)
    ensures |b| == 4
  {
    var b1: nat, b2: nat, b3: nat := n / 256, n / 65_536, n / 16_777_216;
    [LowByte(n), LowByte(b1), LowByte(b2), LowByte(b3)]
  }

  function ReadU32(b: Bytes): (n: nat)
    requires |b| >= 4
    ensures n < U32_LIMIT
  {
    var b0: nat, b1: nat, b2: nat, b3: nat := b[0], b[1], b[2], b[3];
    b0 + 256 * b1 + 65_536 * b2 + 16_777_216 * b3
  }

  lemma DividedTwice(n: nat)
    ensures n / 65_536 == n / 256 / 256 && n / 16_777_216 == n / 256 / 256 / 256
  {
    assert n == 256 * (n / 256) + n % 256;
    var a := n / 256;
    assert a == 256 * (a / 256) + a % 256;
    var b := a / 256;
    assert b == 256 * (b / 256) + b % 256;
  }

  lemma DigitsAddUp(n: nat, a: nat, b: nat, c: nat)
    requires a == n / 256 && b == a / 256 && c == b / 256
    ensures n == n % 256 + 256 * (a % 256) + 65_536 * (b % 256) + 16_777_216 * c
  {
  }

  lemma U32RoundTrip(n: nat, rest: Bytes)
    requires n < U32_LIMIT
    ensures ReadU32(U32Le(n) + rest) == n
  {
    DividedTwice(n);
    DigitsAddUp(n, n / 256, n / 256 / 256, n / 256 / 256 / 256);
  }

  /** The bytes are the digits to base 256, lowest first. */
  lemma U32IsLittleEndian(n: nat)
    requires n < 0x1_0000_0000
    ensures var b := U32Le(n);
            var b0: nat, b1: nat, b2: nat, b3: nat := b[0], b[1], b[2], b[3];
            n == b0 + 0x100 * b1 + 0x1_0000 * b2 + 0x100_0000 * b3
  {
    DividedTwice(n);
    DigitsAddUp(n, n / 256, n / 256 / 256, n / 256 / 256 / 256);
  }

  lemma ReadRoundTrip(b: Bytes)
    requires |b| == 4
    ensures U32Le(ReadU32(b)) == b
  {
    var n := ReadU32(b);
    var b1: nat, b2: nat, b3: nat := b[1], b[2], b[3];
    assert n / 256 == b1 + 256 * b2 + 65_536 * b3;
    assert n / 65_536 == b2 + 256 * b3;
    assert n / 16_777_216 == b3;
  }

  /** A length prefix and the bytes: `Bytes`, and a stream segment. */
  function Prefixed(b: Bytes): (r: Bytes)
    ensures |r| == 4 + |b|
  {
    U32Le(|b|) + b
  }

  /** `BytesOpt`: nothing at all for None, so that Some of no bytes is four zero bytes. */
  function BytesOpt(o: Option<Bytes>): Bytes {
    match o case None => [] case Some(b) => Prefixed(b)
  }

  function ReadBytesOpt(b: Bytes): Option<Option<Bytes>> {
    if b == [] then Some(None)
    else if |b| >= 4 && ReadU32(b) == |b| - 4 then Some(Some(b[4..]))
    else None
  }

  lemma BytesOptRoundTrip(o: Option<Bytes>)
    requires o.Some? ==> |o.value| < U32_LIMIT
    ensures ReadBytesOpt(BytesOpt(o)) == Some(o)
  {
    if o.Some? {
      U32RoundTrip(|o.value|, o.value);
      assert BytesOpt(o)[4..] == o.value;
    }
  }

  lemma BytesOptIsCanonical(b: Bytes)
    requires ReadBytesOpt(b).Some?
    ensures BytesOpt(ReadBytesOpt(b).value) == b
  {
    if b != [] {
      ReadRoundTrip(b[..4]);
      assert ReadU32(b[..4]) == ReadU32(b);
      assert b == b[..4] + b[4..];
    }
  }

  // ---------------------------------------------------------------- tables of three fields

  /** The full size and the three offsets. */
  function Head(full: nat, second: nat, third: nat): (h: Bytes)
    ensures |h| == 16
  {
    U32Le(full) + U32Le(16) + U32Le(second) + U32Le(third)
  }

  function Table3(a: Bytes, b: Bytes, c: Bytes): (t: Bytes)
    ensures |t| == 16 + |a| + |b| + |c|
  {
    Head(16 + |a| + |b| + |c|, 16 + |a|, 16 + |a| + |b|) + (a + b + c)
  }

  datatype Fields = Fields(a: Bytes, b: Bytes, c: Bytes)

  function ReadTable3(t: Bytes): Option<Fields> {
    if |t| < 16 then None
    else
      var full, o1, o2, o3 := ReadU32(t), ReadU32(t[4..]), ReadU32(t[8..]), ReadU32(t[12..]);
      if full != |t| || o1 != 16 || o2 < o1 || o3 < o2 || full < o3 then None
      else Some(Fields(t[o1..o2], t[o2..o3], t[o3..]))
  }

  lemma FourWords(w0: Bytes, w1: Bytes, w2: Bytes, w3: Bytes, body: Bytes)
    requires |w0| == |w1| == |w2| == |w3| == 4
    ensures var t := w0 + w1 + w2 + w3 + body;
            && t == w0 + t[4..] && t[4..] == w1 + t[8..]
            && t[8..] == w2 + t[12..] && t[12..] == w3 + t[16..] && t[16..] == body
  {
    var t := w0 + w1 + w2 + w3 + body;
    assert t == w0 + (w1 + (w2 + (w3 + body)));
    assert t[4..] == w1 + (w2 + (w3 + body));
    assert t[8..] == w2 + (w3 + body);
    assert t[12..] == w3 + body;
  }

  lemma HeadReads(full: nat, second: nat, third: nat, tail: Bytes)
    requires full < U32_LIMIT && second < U32_LIMIT && third < U32_LIMIT
    ensures var t := Head(full, second, third) + tail;
            && ReadU32(t) == full && ReadU32(t[4..]) == 16 && ReadU32(t[8..]) == second && ReadU32(t[12..]) == third
            && t[16..] == tail
  {
    var t := Head(full, second, third) + tail;
    FourWords(U32Le(full), U32Le(16), U32Le(second), U32Le(third), tail);
    U32RoundTrip(full, t[4..]);
    U32RoundTrip(16, t[8..]);
    U32RoundTrip(second, t[12..]);
    U32RoundTrip(third, t[16..]);
  }

  lemma ThreeParts(a: Bytes, b: Bytes, c: Bytes, rest: Bytes, t: Bytes)
    requires |t| >= 16 && t[16..] == a + b + c + rest
    ensures var n := 16 + |a| + |b| + |c|;
            && |t| == n + |rest|
            && t[16..16 + |a|] == a && t[16 + |a|..16 + |a| + |b|] == b && t[16 + |a| + |b|..n] == c && t[n..] == rest
  {
    var u := t[16..];
    var x, y, z := |a|, |a| + |b|, |a| + |b| + |c|;
    assert u[..x] == a && u[x..y] == b && u[y..z] == c && u[z..] == rest;
    assert t[16..16 + x] == u[..x] && t[16 + x..16 + y] == u[x..y]
           && t[16 + y..16 + z] == u[y..z] && t[16 + z..] == u[z..];
  }

  lemma Table3Parts(a: Bytes, b: Bytes, c: Bytes, rest: Bytes)
    requires 16 + |a| + |b| + |c| < U32_LIMIT
    ensures var t := Table3(a, b, c) + rest; var n := 16 + |a| + |b| + |c|;
            && ReadU32(t) == n && ReadU32(t[4..]) == 16 && ReadU32(t[8..]) == 16 + |a|
            && ReadU32(t[12..]) == 16 + |a| + |b|
            && t[16..16 + |a|] == a && t[16 + |a|..16 + |a| + |b|] == b && t[16 + |a| + |b|..n] == c && t[n..] == rest
  {
    var head := Head(16 + |a| + |b| + |c|, 16 + |a|, 16 + |a| + |b|);
    HeadReads(16 + |a| + |b| + |c|, 16 + |a|, 16 + |a| + |b|, a + b + c + rest);
    assert head + (a + b + c) + rest == head + (a + b + c + rest);
    ThreeParts(a, b, c, rest, head + (a + b + c + rest));
  }

  lemma Table3RoundTrip(a: Bytes, b: Bytes, c: Bytes)
    requires 16 + |a| + |b| + |c| < U32_LIMIT
    ensures ReadTable3(Table3(a, b, c)) == Some(Fields(a, b, c))
  {
    Table3Parts(a, b, c, []);
    assert Table3(a, b, c) + [] == Table3(a, b, c);
  }

  lemma CutInSeven(t: Bytes, o2: nat, o3: nat)
    requires 16 <= o2 <= o3 <= |t|
    ensures t == t[..4] + t[4..8] + t[8..12] + t[12..16] + (t[16..o2] + t[o2..o3] + t[o3..])
  {
    assert t[..4] + t[4..8] + t[8..12] + t[12..16] == t[..16];
    assert t[16..o2] + t[o2..o3] + t[o3..] == t[16..];
  }

  lemma WordAt(t: Bytes, i: nat)
    requires i + 4 <= |t|
    ensures U32Le(ReadU32(t[i..])) == t[i..i + 4]
  {
    ReadRoundTrip(t[i..i + 4]);
    assert ReadU32(t[i..]) == ReadU32(t[i..i + 4]);
  }

  lemma Table3IsCanonical(t: Bytes)
    requires ReadTable3(t).Some?
    ensures var f := ReadTable3(t).value; Table3(f.a, f.b, f.c) == t
  {
    WordAt(t, 0);
    WordAt(t, 4);
    WordAt(t, 8);
    WordAt(t, 12);
    assert t[0..] == t && t[0..4] == t[..4];
    CutInSeven(t, ReadU32(t[8..]), ReadU32(t[12..]));
  }

  /** A table says itself where it ends: two tables with anything behind them are equal as bytes
      only if they agree field by field and in what follows. */
  lemma Table3IsSelfDelimiting(f: Fields, g: Fields, x: Bytes, y: Bytes)
    requires 16 + |f.a| + |f.b| + |f.c| < U32_LIMIT && 16 + |g.a| + |g.b| + |g.c| < U32_LIMIT
    requires Table3(f.a, f.b, f.c) + x == Table3(g.a, g.b, g.c) + y
    ensures f == g && x == y
  {
    Table3Parts(f.a, f.b, f.c, x);
    Table3Parts(g.a, g.b, g.c, y);
  }

  lemma PrefixedIsSelfDelimiting(a: Bytes, b: Bytes, x: Bytes, y: Bytes)
    requires |a| < U32_LIMIT && |b| < U32_LIMIT && Prefixed(a) + x == Prefixed(b) + y
    ensures a == b && x == y
  {
    var t := Prefixed(a) + x;
    U32RoundTrip(|a|, a + x);
    U32RoundTrip(|b|, b + y);
    assert t == U32Le(|a|) + (a + x) && t == U32Le(|b|) + (b + y);
    assert a == t[4..4 + |a|] && b == t[4..4 + |b|] && x == t[4 + |a|..] && y == t[4 + |b|..];
  }

  // ---------------------------------------------------------------- the chain's structures

  datatype Script = Script(codeHash: Bytes, hashType: byte, args: Bytes)

  datatype CellOutput = CellOutput(capacity: nat, lock: Script, typeScript: Option<Script>)

  const U64_LIMIT: nat := 0x1_0000_0000_0000_0000

  predicate ScriptOk(s: Script) {
    |s.codeHash| == 32 && |s.args| < 0x1000_0000
  }

  /** A cell as the chain holds it: its numbers fit their width and its table fits a u32. */
  predicate CellOk(c: CellOutput) {
    c.capacity < U64_LIMIT && ScriptOk(c.lock) && (c.typeScript.Some? ==> ScriptOk(c.typeScript.value))
  }

  function U64Le(n: nat): (b: Bytes)
    ensures |b| == 8
  {
    U32Le(n % U32_LIMIT) + U32Le(n / U32_LIMIT)
  }

  function ScriptBytes(s: Script): Bytes {
    Table3(s.codeHash, [s.hashType], Prefixed(s.args))
  }

  /** The type script's `ScriptOpt`: no bytes, or the table itself. */
  function CellOutputBytes(c: CellOutput): Bytes {
    Table3(U64Le(c.capacity), ScriptBytes(c.lock), match c.typeScript case None => [] case Some(s) => ScriptBytes(s))
  }

  lemma ScriptIsUnique(s: Script, t: Script)
    requires ScriptOk(s) && ScriptOk(t) && ScriptBytes(s) == ScriptBytes(t)
    ensures s == t
  {
    assert ScriptBytes(s) + [] == ScriptBytes(t) + [];
    Table3IsSelfDelimiting(Fields(s.codeHash, [s.hashType], Prefixed(s.args)), Fields(t.codeHash, [t.hashType],
        Prefixed(t.args)), [], []);
    PrefixedIsSelfDelimiting(s.args, t.args, [], []);
    assert [s.hashType][0] == [t.hashType][0];
  }

  lemma U64IsUnique(m: nat, n: nat)
    requires m < U64_LIMIT && n < U64_LIMIT && U64Le(m) == U64Le(n)
    ensures m == n
  {
    U32RoundTrip(m % U32_LIMIT, U32Le(m / U32_LIMIT));
    U32RoundTrip(n % U32_LIMIT, U32Le(n / U32_LIMIT));
    assert U64Le(m)[4..] == U32Le(m / U32_LIMIT) + [] && U64Le(n)[4..] == U32Le(n / U32_LIMIT) + [];
    U32RoundTrip(m / U32_LIMIT, []);
    U32RoundTrip(n / U32_LIMIT, []);
  }

  lemma CellOutputIsSelfDelimiting(c: CellOutput, d: CellOutput, x: Bytes, y: Bytes)
    requires CellOk(c) && CellOk(d) && CellOutputBytes(c) + x == CellOutputBytes(d) + y
    ensures c == d && x == y
  {
    var ct := match c.typeScript case None => [] case Some(s) => ScriptBytes(s);
    var dt := match d.typeScript case None => [] case Some(s) => ScriptBytes(s);
    Table3IsSelfDelimiting(Fields(U64Le(c.capacity), ScriptBytes(c.lock), ct), Fields(U64Le(d.capacity),
        ScriptBytes(d.lock), dt), x, y);
    U64IsUnique(c.capacity, d.capacity);
    ScriptIsUnique(c.lock, d.lock);
    if c.typeScript.Some? && d.typeScript.Some? {
      ScriptIsUnique(c.typeScript.value, d.typeScript.value);
    }
  }

  /** Eight bytes, lowest first. */
  lemma U64IsLittleEndian(n: nat)
    requires n < 0x1_0000_0000_0000_0000
    ensures var b := U64Le(n);
            var b0: nat, b1: nat, b2: nat, b3: nat := b[0], b[1], b[2], b[3];
            var b4: nat, b5: nat, b6: nat, b7: nat := b[4], b[5], b[6], b[7];
            n == b0 + 0x100 * b1 + 0x1_0000 * b2 + 0x100_0000 * b3
                 + 0x1_0000_0000 * (b4 + 0x100 * b5 + 0x1_0000 * b6 + 0x100_0000 * b7)
  {
    var low, high := n % U32_LIMIT, n / U32_LIMIT;
    U32IsLittleEndian(low);
    U32IsLittleEndian(high);
    assert U64Le(n)[4] == U32Le(high)[0] && U64Le(n)[5] == U32Le(high)[1];
    assert U64Le(n)[6] == U32Le(high)[2] && U64Le(n)[7] == U32Le(high)[3];
  }

  /** Code hash, hash type and arguments of a script, at their offsets. */
  lemma ScriptLayout(s: Script)
    requires ScriptOk(s)
    ensures var b := ScriptBytes(s);
            && |b| == 53 + |s.args| && ReadU32(b) == |b|
            && ReadU32(b[4..]) == 16 && ReadU32(b[8..]) == 48 && ReadU32(b[12..]) == 49
            && b[16..48] == s.codeHash && b[48] == s.hashType
            && ReadU32(b[49..]) == |s.args| && b[53..] == s.args
  {
    var b := ScriptBytes(s);
    Table3Parts(s.codeHash, [s.hashType], Prefixed(s.args), []);
    assert b + [] == b;
    assert b[48..49][0] == b[48];
    assert b[49..] == b[49..|b|] == U32Le(|s.args|) + s.args;
    U32RoundTrip(|s.args|, s.args);
    assert b[49..][4..] == b[53..];
  }

  /** Capacity, lock and type of a cell output, at their offsets. */
  lemma CellOutputLayout(c: CellOutput)
    requires CellOk(c)
    ensures var b := CellOutputBytes(c);
            var third := 24 + |ScriptBytes(c.lock)|;
            && ReadU32(b) == |b| && ReadU32(b[4..]) == 16 && ReadU32(b[8..]) == 24 && ReadU32(b[12..]) == third
            && third <= |b| && b[16..24] == U64Le(c.capacity) && b[24..third] == ScriptBytes(c.lock)
            && b[third..] == match c.typeScript case None => [] case Some(t) => ScriptBytes(t)
  {
    var t := match c.typeScript case None => [] case Some(t) => ScriptBytes(t);
    var b := CellOutputBytes(c);
    Table3Parts(U64Le(c.capacity), ScriptBytes(c.lock), t, []);
    assert b + [] == b && b[24 + |ScriptBytes(c.lock)|..] == b[24 + |ScriptBytes(c.lock)|..|b|];
  }

  datatype WitnessArgs = WitnessArgs(lock: Option<Bytes>, inputType: Option<Bytes>, outputType: Option<Bytes>)

  function WitnessSize(w: WitnessArgs): nat {
    16 + |BytesOpt(w.lock)| + |BytesOpt(w.inputType)| + |BytesOpt(w.outputType)|
  }

  function WitnessBytes(w: WitnessArgs): (b: Bytes)
    ensures |b| == WitnessSize(w)
  {
    Table3(BytesOpt(w.lock), BytesOpt(w.inputType), BytesOpt(w.outputType))
  }

  function ReadWitness(b: Bytes): Option<WitnessArgs> {
    match ReadTable3(b)
    case None => None
    case Some(f) =>
      match (ReadBytesOpt(f.a), ReadBytesOpt(f.b), ReadBytesOpt(f.c))
      case (Some(lock), Some(inputType), Some(outputType)) => Some(WitnessArgs(lock, inputType, outputType))
      case _ => None
  }

  lemma PrefixedThen(a: Bytes, rest: Bytes)
    requires |a| < U32_LIMIT
    ensures var t := Prefixed(a) + rest; ReadU32(t) == |a| && t[4..4 + |a|] == a && t[4 + |a|..] == rest
  {
    assert Prefixed(a) + rest == U32Le(|a|) + (a + rest);
    U32RoundTrip(|a|, a + rest);
  }

  lemma TableTail(a: Bytes, b: Bytes, c: Bytes)
    requires 16 + |a| + |b| + |c| < U32_LIMIT
    ensures Table3(a, b, c)[16..] == a + (b + c) && ReadU32(Table3(a, b, c)) == 16 + |a| + |b| + |c|
  {
    HeadReads(16 + |a| + |b| + |c|, 16 + |a|, 16 + |a| + |b|, a + b + c);
  }

  lemma DropTwice(b: Bytes, i: nat, j: nat, k: nat)
    requires i + j <= i + k <= |b|
    ensures b[i..][j..k] == b[i + j..i + k] && b[i..][j..] == b[i + j..]
  {
  }

  /** The lock comes first: its length at 16, its bytes from 20 on; then the two types. */
  lemma WitnessLayout(w: WitnessArgs)
    requires WitnessSize(w) < U32_LIMIT && w.lock.Some?
    ensures var b, n := WitnessBytes(w), |w.lock.value|;
            && ReadU32(b) == |b| && ReadU32(b[16..]) == n && b[20..20 + n] == w.lock.value
            && b[20 + n..] == BytesOpt(w.inputType) + BytesOpt(w.outputType)
  {
    var b, n := WitnessBytes(w), |w.lock.value|;
    TableTail(Prefixed(w.lock.value), BytesOpt(w.inputType), BytesOpt(w.outputType));
    PrefixedThen(w.lock.value, BytesOpt(w.inputType) + BytesOpt(w.outputType));
    DropTwice(b, 16, 4, 4 + n);
    DropTwice(b, 16, 4 + n, 4 + n);
  }

  /** Reading and writing a witness are inverse: what was written reads back, and what reads is
      the one way to write it. */
  lemma WitnessRoundTrip(w: WitnessArgs)
    requires WitnessSize(w) < U32_LIMIT
    ensures ReadWitness(WitnessBytes(w)) == Some(w)
  {
    Table3RoundTrip(BytesOpt(w.lock), BytesOpt(w.inputType), BytesOpt(w.outputType));
    BytesOptRoundTrip(w.lock);
    BytesOptRoundTrip(w.inputType);
    BytesOptRoundTrip(w.outputType);
  }

  lemma WitnessIsCanonical(b: Bytes)
    requires ReadWitness(b).Some?
    ensures WitnessBytes(ReadWitness(b).value) == b && |b| < U32_LIMIT
  {
    var f := ReadTable3(b).value;
    Table3IsCanonical(b);
    BytesOptIsCanonical(f.a);
    BytesOptIsCanonical(f.b);
    BytesOptIsCanonical(f.c);
  }
}
