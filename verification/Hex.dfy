/** Lower-case hexadecimal text of byte strings. */
module Hex {
  import opened Options

  type byte = b: nat | b < 256

  predicate IsHexDigit(c: char) {
    '0' <= c <= '9' || 'a' <= c <= 'f'
  }

  function DigitValue(c: char): (d: nat)
    requires IsHexDigit(c)
    ensures d < 16
  {
    if c <= '9' then c as int - '0' as int else c as int - 'a' as int + 10
  }

  function HexDigit(d: nat): (c: char)
    requires d < 16
    ensures IsHexDigit(c) && DigitValue(c) == d
  {
    if d < 10 then (d + '0' as int) as char else (d - 10 + 'a' as int) as char
  }

  function ToHex(bytes: seq<byte>): (s: string)
    ensures |s| == 2 * |bytes|
  {
    if bytes == [] then ""
    else [HexDigit(bytes[0] / 16), HexDigit(bytes[0] % 16)] + ToHex(bytes[1..])
  }

  predicate AllHexDigits(s: string) {
    forall i :: 0 <= i < |s| ==> IsHexDigit(s[i])
  }

  /** Even length, lower-case digits only. */
  predicate IsHex(s: string) {
    |s| % 2 == 0 && AllHexDigits(s)
  }

  function FromHex(s: string): (bytes: seq<byte>)
    requires IsHex(s)
    ensures |bytes| == |s| / 2
  {
    if s == "" then [] else [DigitValue(s[0]) * 16 + DigitValue(s[1])] + FromHex(s[2..])
  }

  lemma {:induction false} FromHexAt(s: string, i: nat)
    requires IsHex(s) && 2 * i + 1 < |s|
    ensures FromHex(s)[i] == DigitValue(s[2 * i]) * 16 + DigitValue(s[2 * i + 1])
    decreases |s|
  {
    if i > 0 {
      FromHexAt(s[2..], i - 1);
    }
  }

  /** The parser's loop: two digits a byte, anything but lower-case even-length hex refused. */
  method HexToBytes(s: string) returns (r: Option<seq<byte>>)
    ensures r == if IsHex(s) then Some(FromHex(s)) else None
  {
    if |s| % 2 != 0 {
      return None;
    }
    var k := 0;
    while k < |s|
      invariant 0 <= k <= |s|
      invariant AllHexDigits(s[..k])
    {
      if !IsHexDigit(s[k]) {
        return None;
      }
      assert s[..k + 1] == s[..k] + [s[k]];
      k := k + 1;
    }
    assert s[..k] == s;
    var out := new byte[|s| / 2];
    var i := 0;
    while i < out.Length
      invariant 0 <= i <= out.Length
      invariant forall j :: 0 <= j < i ==> out[j] == FromHex(s)[j]
    {
      FromHexAt(s, i);
      out[i] := DigitValue(s[2 * i]) * 16 + DigitValue(s[2 * i + 1]);
      i := i + 1;
    }
    assert out[..] == FromHex(s);
    r := Some(out[..]);
  }

  lemma {:induction false} HexRoundTrip(bytes: seq<byte>)
    ensures IsHex(ToHex(bytes)) && FromHex(ToHex(bytes)) == bytes
  {
    if bytes != [] {
      HexRoundTrip(bytes[1..]);
      assert ToHex(bytes)[2..] == ToHex(bytes[1..]);
      assert forall i :: 2 <= i < |ToHex(bytes)| ==> ToHex(bytes)[i] == ToHex(bytes[1..])[i - 2];
      assert bytes == [bytes[0]] + bytes[1..];
    }
  }

  lemma DigitOfValue(c: char)
    requires IsHexDigit(c)
    ensures HexDigit(DigitValue(c)) == c
  {
  }

  lemma PairOfValue(c: char, d: char)
    requires IsHexDigit(c) && IsHexDigit(d)
    ensures var v := DigitValue(c) * 16 + DigitValue(d); HexDigit(v / 16) == c && HexDigit(v % 16) == d
  {
    DigitOfValue(c);
    DigitOfValue(d);
    var v := DigitValue(c) * 16 + DigitValue(d);
    assert v / 16 == DigitValue(c) && v % 16 == DigitValue(d);
  }

  lemma {:induction false} BytesRoundTrip(s: string)
    requires IsHex(s)
    ensures ToHex(FromHex(s)) == s
  {
    if s != "" {
      BytesRoundTrip(s[2..]);
      PairOfValue(s[0], s[1]);
      assert FromHex(s)[1..] == FromHex(s[2..]);
      assert s == [s[0], s[1]] + s[2..];
    }
  }

  lemma ToHexIsInjective(a: seq<byte>, b: seq<byte>)
    requires ToHex(a) == ToHex(b)
    ensures a == b
  {
    HexRoundTrip(a);
    HexRoundTrip(b);
  }
}
