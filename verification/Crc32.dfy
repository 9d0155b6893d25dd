/** The table-driven CRC-32 of the LoRa gateway transport, against the long division of section 8
    of RFC 1952 and its references: the bits of the message, lowest bit of each byte first, with
    32 zero bits behind and the first 32 bits complemented, divided by the generator polynomial;
    the checksum is the complemented remainder. */
module Crc32 {

  // ---------------------------------------------------------------- 32-bit words

  /** An unsigned 32-bit number by its bits, lowest first. Read as a polynomial, bit j is the
      coefficient of x^(31-j). */
  type Word = w: seq<bool> | |w| == 32 witness seq(32, _ => false)

  type Byte = b: nat | b < 256

  const WORD: nat := 32
  const BYTE: nat := 8

  function FromNat(n: nat, width: nat): (bits: seq<bool>)
    ensures |bits| == width
  {
    if width == 0 then [] else [n % 2 == 1] + FromNat(n / 2, width - 1)
  }

  function ToNat(bits: seq<bool>): nat {
    if bits == [] then 0 else (if bits[0] then 1 else 0) + 2 * ToNat(bits[1..])
  }

  function Zeros(n: nat): (bits: seq<bool>)
    ensures |bits| == n && forall i :: 0 <= i < n ==> !bits[i]
  {
    seq(n, _ => false)
  }

  function Ones(n: nat): (bits: seq<bool>)
    ensures |bits| == n && forall i :: 0 <= i < n ==> bits[i]
  {
    seq(n, _ => true)
  }

  /** Add `b` to the front of `a`, bit by bit; on two words this is `^`. */
  function Xor(a: seq<bool>, b: seq<bool>): (r: seq<bool>)
    requires |b| <= |a|
    ensures |r| == |a|
    ensures forall i :: 0 <= i < |a| ==> r[i] == if i < |b| then a[i] != b[i] else a[i]
  {
    seq(|a|, i requires 0 <= i < |a| => if i < |b| then a[i] != b[i] else a[i])
  }

  function And(a: Word, b: Word): (r: Word)
    ensures forall i :: 0 <= i < 32 ==> r[i] == (a[i] && b[i])
  {
    seq(32, i requires 0 <= i < 32 => a[i] && b[i])
  }

  /** The unsigned right shift. */
  function Shr(a: Word, k: nat): (r: Word)
    requires k <= 32
    ensures forall i :: 0 <= i < 32 ==> r[i] == if i < 32 - k then a[i + k] else false
  {
    a[k..] + Zeros(k)
  }

  const POLYNOMIAL: Word := FromNat(0xEDB8_8320, WORD)
  const ALL_BITS: Word := FromNat(0xFFFF_FFFF, WORD)
  const LOW_BYTE: Word := FromNat(0xFF, WORD)

  // ---------------------------------------------------------------- the standard's definition

  function MessageBits(bytes: seq<Byte>): seq<bool> {
    if bytes == [] then [] else FromNat(bytes[0], BYTE) + MessageBits(bytes[1..])
  }

  /** The generator polynomial, highest coefficient first: x^32 + x^26 + x^23 + x^22 + x^16 + x^12 +
      x^11 + x^10 + x^8 + x^7 + x^5 + x^4 + x^2 + x + 1. */
  function Generator(): (g: seq<bool>)
    ensures |g| == 33 && forall i :: 0 <= i < 33 ==> g[i] == Coefficient(32 - i)
  {
    seq(33, i requires 0 <= i < 33 => Coefficient(32 - i))
  }

  predicate Coefficient(exponent: nat) {
    exponent in {32, 26, 23, 22, 16, 12, 11, 10, 8, 7, 5, 4, 2, 1, 0}
  }

  /** Schoolbook long division, highest coefficient first. */
  function Remainder(dividend: seq<bool>): (r: Word)
    requires |dividend| >= 32
    decreases |dividend|
  {
    if |dividend| == 32 then dividend
    else if dividend[0] then Remainder(Xor(dividend, Generator())[1..])
    else Remainder(dividend[1..])
  }

  function Checksum(bytes: seq<Byte>): Word {
    Xor(Remainder(Xor(MessageBits(bytes) + Zeros(32), Ones(32))), Ones(32))
  }

  // ---------------------------------------------------------------- the register

  function Update(c: Word): Word {
    if c[0] then Xor(POLYNOMIAL, Shr(c, 1)) else Shr(c, 1)
  }

  function Updates(c: Word, k: nat): Word
    decreases k
  {
    if k == 0 then c else Updates(Update(c), k - 1)
  }

  /** The step that fills the table respects xor. */
  lemma {:induction false} UpdatesAreLinear(a: Word, b: Word, k: nat)
    ensures Updates(Xor(a, b), k) == Xor(Updates(a, k), Updates(b, k))
    decreases k
  {
    if k > 0 {
      assert Update(Xor(a, b)) == Xor(Update(a), Update(b));
      UpdatesAreLinear(Update(a), Update(b), k - 1);
    }
  }

  /** Bits that are still above the lowest one only move down. */
  lemma {:induction false} ZeroBitsShiftOut(c: Word, k: nat)
    requires k <= 32 && forall i :: 0 <= i < k ==> !c[i]
    ensures Updates(c, k) == Shr(c, k)
    decreases k
  {
    if k == 0 {
      assert Shr(c, 0) == c;
    } else {
      assert Update(c) == Shr(c, 1);
      ZeroBitsShiftOut(Shr(c, 1), k - 1);
      assert Shr(Shr(c, 1), k - 1) == Shr(c, k);
    }
  }

  /** One message bit. */
  function Absorb(c: Word, bit: bool): Word {
    Update(Xor(c, [bit]))
  }

  function Fold<S, T>(f: (S, T) -> S, start: S, items: seq<T>): S
    decreases |items|
  {
    if items == [] then start else Fold(f, f(start, items[0]), items[1..])
  }

  lemma {:induction false} FoldAppends<S, T>(f: (S, T) -> S, start: S, a: seq<T>, b: seq<T>)
    ensures Fold(f, start, a + b) == Fold(f, Fold(f, start, a), b)
    decreases |a|
  {
    if a == [] {
      assert a + b == b;
    } else {
      FoldAppends(f, f(start, a[0]), a[1..], b);
      assert (a + b)[0] == a[0] && (a + b)[1..] == a[1..] + b;
    }
  }

  /** The message bits one at a time. */
  function Feed(c: Word, bits: seq<bool>): Word {
    Fold(Absorb, c, bits)
  }

  lemma UpdateTakesOne(c: Word, bits: seq<bool>)
    requires 0 < |bits| <= 32
    ensures Update(Xor(c, bits)) == Xor(Absorb(c, bits[0]), bits[1..])
  {
    assert Shr(Xor(c, bits), 1) == Xor(Shr(Xor(c, [bits[0]]), 1), bits[1..]);
  }

  /** Adding some message bits at once and updating as often is feeding them one by one. */
  lemma {:induction false} UpdatesFeed(c: Word, bits: seq<bool>)
    requires |bits| <= 32
    ensures Updates(Xor(c, bits), |bits|) == Feed(c, bits)
    decreases |bits|
  {
    if bits == [] {
      assert Xor(c, bits) == c;
    } else {
      UpdateTakesOne(c, bits);
      UpdatesFeed(Absorb(c, bits[0]), bits[1..]);
      assert Updates(Xor(c, bits), |bits|) == Updates(Update(Xor(c, bits)), |bits[1..]|);
    }
  }

  // ---------------------------------------------------------------- the register divides

  /** What the register stands for: its bits added to the front of what is still to come. */
  function Pending(c: Word, bits: seq<bool>): (r: seq<bool>)
    ensures |r| == |bits| + 32
  {
    Xor(bits + Zeros(32), c)
  }

  /** Taking the generator away from the front. */
  lemma SubtractGenerator(p: seq<bool>, c: Word, bits: seq<bool>)
    requires bits != [] && p == Pending(c, bits)
    ensures Xor(p, [true] + POLYNOMIAL)[1..] == Pending(Xor(POLYNOMIAL, Shr(c, 1)), bits[1..])
  {
    assert (bits + Zeros(32))[1..] == bits[1..] + Zeros(32);
  }

  lemma DropFirst(p: seq<bool>, c: Word, bits: seq<bool>)
    requires bits != [] && p == Pending(c, bits)
    ensures p[0] == Xor(c, [bits[0]])[0]
    ensures !p[0] ==> p[1..] == Pending(Shr(c, 1), bits[1..])
  {
    assert (bits + Zeros(32))[1..] == bits[1..] + Zeros(32);
  }

  lemma Subtract(p: seq<bool>, c: Word, bits: seq<bool>)
    requires bits != [] && p == Pending(c, bits)
    ensures p[0] == Xor(c, [bits[0]])[0]
    ensures p[0] ==> Xor(p, Generator())[1..] == Pending(Xor(POLYNOMIAL, Shr(c, 1)), bits[1..])
    ensures !p[0] ==> p[1..] == Pending(Shr(c, 1), bits[1..])
  {
    DropFirst(p, c, bits);
    SubtractGenerator(p, c, bits);
    GeneratorIsThePolynomial();
  }

  /** One step of the division is one update of the register. */
  lemma DivisionStep(c: Word, bits: seq<bool>)
    requires bits != []
    ensures Remainder(Pending(c, bits)) == Remainder(Pending(Absorb(c, bits[0]), bits[1..]))
  {
    Subtract(Pending(c, bits), c, bits);
    assert Shr(Xor(c, [bits[0]]), 1) == Shr(c, 1);
  }

  lemma {:induction false} FeedDivides(c: Word, bits: seq<bool>)
    ensures Remainder(Pending(c, bits)) == Feed(c, bits)
    decreases |bits|
  {
    if bits == [] {
      assert Pending(c, bits) == c;
    } else {
      DivisionStep(c, bits);
      FeedDivides(Absorb(c, bits[0]), bits[1..]);
    }
  }

  // ---------------------------------------------------------------- numbers and bits

  lemma OneBit(bit: bool, n: nat, width: nat)
    ensures var v := (if bit then 1 else 0) + 2 * n; FromNat(v, width + 1) == [bit] + FromNat(n, width)
  {
    var v := (if bit then 1 else 0) + 2 * n;
    assert v / 2 == n && v % 2 == if bit then 1 else 0;
  }

  /** The coefficients below x^(32-i), lowest bit first, as a number. */
  function ValueFrom(i: nat): nat
    decreases 32 - i
  {
    if i >= 32 then 0 else (if Coefficient(31 - i) then 1 else 0) + 2 * ValueFrom(i + 1)
  }

  lemma FirstOfRest(g: seq<bool>, i: nat)
    requires i < |g|
    ensures g[i..] == [g[i]] + g[i + 1..]
  {
  }

  lemma {:induction false} BitsOfValue(i: nat)
    requires i <= 32
    ensures FromNat(ValueFrom(i), 32 - i) == Generator()[i + 1..]
    decreases 32 - i
  {
    if i < 32 {
      BitsOfValue(i + 1);
      OneBit(Coefficient(31 - i), ValueFrom(i + 1), 31 - i);
      FirstOfRest(Generator(), i + 1);
    }
  }

  function Bit(exponent: nat): nat {
    if Coefficient(exponent) then 1 else 0
  }

  lemma FourMore(i: nat)
    requires i + 4 <= 32
    ensures ValueFrom(i) == Bit(31 - i) + 2 * Bit(30 - i) + 4 * Bit(29 - i) + 8 * Bit(28 - i) + 16 * ValueFrom(i + 4)
  {
    assert ValueFrom(i + 2) == Bit(29 - i) + 2 * (Bit(28 - i) + 2 * ValueFrom(i + 4));
    assert ValueFrom(i) == Bit(31 - i) + 2 * (Bit(30 - i) + 2 * ValueFrom(i + 2));
  }

  /** Digit by digit, lowest coefficients first. */
  lemma ValueOfGenerator()
    ensures ValueFrom(0) == 0xEDB8_8320
  {
    FourMore(28);
    FourMore(24);
    FourMore(20);
    FourMore(16);
    assert ValueFrom(16) == 0xEDB8;
    FourMore(12);
    FourMore(8);
    FourMore(4);
    FourMore(0);
  }

  /** The constant of the program holds the lower coefficients of the generator. */
  lemma GeneratorIsThePolynomial()
    ensures Generator() == [true] + POLYNOMIAL
  {
    BitsOfValue(0);
    ValueOfGenerator();
    assert Generator() == [true] + Generator()[1..];
  }

  lemma {:induction false} NatRoundTrip(bits: seq<bool>, extra: nat)
    ensures FromNat(ToNat(bits), |bits| + extra) == bits + Zeros(extra)
  {
    if bits == [] {
      ZeroBits(extra);
    } else {
      NatRoundTrip(bits[1..], extra);
      OneBit(bits[0], ToNat(bits[1..]), |bits| - 1 + extra);
      assert bits == [bits[0]] + bits[1..];
    }
  }

  lemma {:induction false} ZeroBits(width: nat)
    ensures FromNat(0, width) == Zeros(width)
  {
    if width > 0 {
      ZeroBits(width - 1);
    }
  }

  function Pow2(n: nat): nat {
    if n == 0 then 1 else 2 * Pow2(n - 1)
  }

  lemma {:induction false} ToNatIsSmall(bits: seq<bool>)
    ensures ToNat(bits) < Pow2(|bits|)
  {
    if bits != [] {
      ToNatIsSmall(bits[1..]);
    }
  }

  lemma {:induction false} SmallBits(n: nat, width: nat, extra: nat)
    requires n < Pow2(width)
    ensures FromNat(n, width + extra) == FromNat(n, width) + Zeros(extra)
    ensures ToNat(FromNat(n, width)) == n
  {
    if width == 0 {
      ZeroBits(extra);
    } else {
      SmallBits(n / 2, width - 1, extra);
    }
  }

  lemma {:induction false} AllOnes(width: nat)
    ensures Pow2(width) > 0 && FromNat(Pow2(width) - 1, width) == Ones(width)
  {
    if width > 0 {
      AllOnes(width - 1);
      assert (Pow2(width) - 1) / 2 == Pow2(width - 1) - 1;
    }
  }

  lemma {:induction false} PowAdds(a: nat, b: nat)
    ensures Pow2(a + b) == Pow2(a) * Pow2(b)
  {
    if a > 0 {
      PowAdds(a - 1, b);
    }
  }

  lemma Powers()
    ensures Pow2(BYTE) == 256 && Pow2(WORD) == 0x1_0000_0000
  {
    PowAdds(8, 8);
    PowAdds(16, 16);
  }

  lemma AllBits()
    ensures ALL_BITS == Ones(WORD)
  {
    Powers();
    AllOnes(WORD);
  }

  lemma LowByte()
    ensures LOW_BYTE == Ones(BYTE) + Zeros(WORD - BYTE)
  {
    Powers();
    AllOnes(BYTE);
    SmallBits(255, BYTE, WORD - BYTE);
  }

  // ---------------------------------------------------------------- the program

  function Entry(n: nat): Word {
    Updates(FromNat(n, WORD), BYTE)
  }

  predicate IsTable(t: seq<Word>) {
    |t| == 256 && forall n :: 0 <= n < 256 ==> t[n] == Entry(n)
  }

  method TableEntry(n: nat) returns (c: Word)
    ensures c == Entry(n)
  {
    c := FromNat(n, WORD);
    var k := 0;
    while k < BYTE
      invariant 0 <= k <= BYTE
      invariant Updates(c, BYTE - k) == Entry(n)
    {
      c := if c[0] then Xor(POLYNOMIAL, Shr(c, 1)) else Shr(c, 1);
      k := k + 1;
    }
  }

  method MakeTable() returns (table: array<Word>)
    ensures fresh(table) && IsTable(table[..])
  {
    table := new Word[256];
    var n := 0;
    while n < 256
      invariant 0 <= n <= 256
      invariant forall i :: 0 <= i < n ==> table[i] == Entry(i)
    {
      table[n] := TableEntry(n);
      n := n + 1;
    }
  }

  lemma {:induction false} ToNatPads(bits: seq<bool>, extra: nat)
    ensures ToNat(bits + Zeros(extra)) == ToNat(bits)
    decreases |bits| + extra
  {
    if bits != [] {
      ToNatPads(bits[1..], extra);
      assert (bits + Zeros(extra))[1..] == bits[1..] + Zeros(extra);
    } else if extra > 0 {
      ToNatPads(bits, extra - 1);
      assert (bits + Zeros(extra))[1..] == bits + Zeros(extra - 1);
    } else {
      assert bits + Zeros(0) == [];
    }
  }

  lemma IndexOfLow(low: Word)
    requires low[8..] == Zeros(24)
    ensures ToNat(low) < 256 && FromNat(ToNat(low), WORD) == low
  {
    var bits := low[..8];
    assert low == bits + Zeros(24);
    ToNatIsSmall(bits);
    Powers();
    ToNatPads(bits, 24);
    NatRoundTrip(bits, 24);
  }

  /** Updating eight times acts on the low byte through the table and moves the rest down. */
  lemma UpdatesSplit(sum: Word, low: Word, high: Word)
    requires low == sum[..BYTE] + Zeros(WORD - BYTE) && high == Zeros(BYTE) + sum[BYTE..]
    ensures Xor(Updates(low, BYTE), Shr(sum, BYTE)) == Updates(sum, BYTE)
  {
    assert Xor(low, high) == sum;
    UpdatesAreLinear(low, high, BYTE);
    ZeroBitsShiftOut(high, BYTE);
    assert Shr(high, BYTE) == Shr(sum, BYTE);
  }

  lemma AddByte(c: Word, b: Byte)
    ensures Xor(c, FromNat(b, WORD)) == Xor(c, FromNat(b, BYTE))
    ensures Shr(Xor(c, FromNat(b, WORD)), BYTE) == Shr(c, BYTE)
  {
    Powers();
    SmallBits(b, BYTE, WORD - BYTE);
    AddPadded(c, FromNat(b, BYTE), FromNat(b, WORD));
  }

  lemma AddPadded(c: Word, b: seq<bool>, padded: Word)
    requires |b| == BYTE && padded == b + Zeros(WORD - BYTE)
    ensures Xor(c, padded) == Xor(c, b) && Shr(Xor(c, padded), BYTE) == Shr(c, BYTE)
  {
  }

  lemma Mask(sum: Word)
    ensures And(sum, LOW_BYTE) == sum[..BYTE] + Zeros(WORD - BYTE)
  {
    LowByte();
  }

  /** The table step is eight bits of the message fed one by one. */
  lemma TableStep(c: Word, b: Byte)
    ensures var x := And(Xor(c, FromNat(b, WORD)), LOW_BYTE);
            ToNat(x) < 256 && Xor(Entry(ToNat(x)), Shr(c, BYTE)) == Feed(c, FromNat(b, BYTE))
  {
    var sum := Xor(c, FromNat(b, WORD));
    AddByte(c, b);
    Mask(sum);
    IndexOfLow(And(sum, LOW_BYTE));
    UpdatesSplit(sum, And(sum, LOW_BYTE), Zeros(BYTE) + sum[BYTE..]);
    UpdatesFeed(c, FromNat(b, BYTE));
  }

  lemma {:induction false} BitsOfAppended(bytes: seq<Byte>, b: Byte)
    ensures MessageBits(bytes + [b]) == MessageBits(bytes) + FromNat(b, BYTE)
  {
    if bytes == [] {
      assert bytes + [b] == [b] && [b][1..] == [];
      assert MessageBits([b]) == FromNat(b, BYTE) + [];
    } else {
      BitsOfAppended(bytes[1..], b);
      assert (bytes + [b])[0] == bytes[0] && (bytes + [b])[1..] == bytes[1..] + [b];
    }
  }

  lemma NextByte(start: Word, bytes: seq<Byte>, i: nat, crc: Word)
    requires i < |bytes| && crc == Feed(start, MessageBits(bytes[..i]))
    ensures Feed(crc, FromNat(bytes[i], BYTE)) == Feed(start, MessageBits(bytes[..i + 1]))
  {
    FoldAppends(Absorb, start, MessageBits(bytes[..i]), FromNat(bytes[i], BYTE));
    BitsOfAppended(bytes[..i], bytes[i]);
    assert bytes[..i + 1] == bytes[..i] + [bytes[i]];
  }

  lemma FedIsChecksum(bytes: seq<Byte>)
    ensures Xor(Feed(ALL_BITS, MessageBits(bytes)), ALL_BITS) == Checksum(bytes)
  {
    AllBits();
    FeedDivides(ALL_BITS, MessageBits(bytes));
  }

  method Crc32(table: array<Word>, bytes: seq<Byte>) returns (r: Word)
    requires IsTable(table[..])
    ensures r == Checksum(bytes)
  {
    var crc := ALL_BITS;
    var i := 0;
    while i < |bytes|
      invariant 0 <= i <= |bytes|
      invariant crc == Feed(ALL_BITS, MessageBits(bytes[..i]))
    {
      TableStep(crc, bytes[i]);
      NextByte(ALL_BITS, bytes, i, crc);
      var index := ToNat(And(Xor(crc, FromNat(bytes[i], WORD)), LOW_BYTE));
      assert table[..][index] == Entry(index);
      crc := Xor(table[index], Shr(crc, BYTE));
      i := i + 1;
    }
    assert bytes[..i] == bytes;
    FedIsChecksum(bytes);
    r := Xor(crc, ALL_BITS);
  }
}
