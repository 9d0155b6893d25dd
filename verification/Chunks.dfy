/** Splitting a ciphertext into fixed-size chunks and joining them again. */
module Chunks {
  import opened Options
  import opened Hex

  type Bytes = seq<byte>

  const CHUNK_BYTES: nat := 32_768

  function CeilDiv(n: nat, d: nat): nat
    requires d > 0
  {
    (n + d - 1) / d
  }

  /** Full chunks, then the remainder. */
  function Split(data: Bytes, size: nat): (chunks: seq<Bytes>)
    requires size > 0
    decreases |data|
  {
    if data == [] then [] else if |data| <= size then [data] else [data[..size]] + Split(data[size..], size)
  }

  function Join(chunks: seq<Bytes>): Bytes {
    if chunks == [] then [] else chunks[0] + Join(chunks[1..])
  }

  /** Joining undoes splitting; there are exactly as many chunks as the size needs; every chunk is
      full except that the last one may be shorter, and none is empty. */
  lemma {:induction false} SplitJoin(data: Bytes, size: nat)
    requires size > 0
    ensures Join(Split(data, size)) == data
    ensures |Split(data, size)| == CeilDiv(|data|, size)
    ensures forall i :: 0 <= i < |Split(data, size)|
              ==> 0 < |Split(data, size)[i]| <= size && (i < |Split(data, size)| - 1 ==> |Split(data, size)[i]| == size)
    decreases |data|
  {
    if data == [] {
      SmallQuotient(size - 1, size);
    } else if |data| <= size {
      NextQuotient(|data| - 1, size);
      SmallQuotient(|data| - 1, size);
      assert Join([data]) == data + Join([]) == data;
    } else {
      SplitJoin(data[size..], size);
      NextQuotient(|data| - 1, size);
      assert data == data[..size] + data[size..];
      var rest := Split(data[size..], size);
      assert Split(data, size)[1..] == rest;
      assert |rest| > 0 by {
        assert data[size..] != [];
      }
    }
  }

  lemma SmallQuotient(n: nat, d: nat)
    requires n < d
    ensures n / d == 0
  {
  }

  lemma NextQuotient(n: nat, d: nat)
    requires d > 0
    ensures (n + d) / d == n / d + 1
  {
    QuotientIs(n + d, d, n / d + 1, n % d);
  }

  lemma QuotientIs(n: nat, d: nat, q: nat, rest: nat)
    requires d > 0 && n == q * d + rest && rest < d
    ensures n / d == q
  {
    var p := n / d;
    assert (p - q) * d == rest - n % d;
    if p > q {
      AtLeastOnce(p - q, d);
    } else if p < q {
      AtLeastOnce(q - p, d);
    }
  }

  lemma AtLeastOnce(k: int, d: nat)
    requires k >= 1
    ensures k * d >= d
  {
  }

  lemma JoinFirst(first: Bytes, rest: seq<Bytes>)
    ensures Join([first] + rest) == first + Join(rest)
  {
    assert ([first] + rest)[1..] == rest;
  }

  lemma Associate(x: Bytes, y: Bytes, z: Bytes)
    ensures x + (y + z) == (x + y) + z
  {
  }

  lemma FirstAndRest(a: seq<Bytes>, b: seq<Bytes>)
    requires a != []
    ensures a + b == [a[0]] + (a[1..] + b) && a == [a[0]] + a[1..]
  {
  }

  lemma {:induction false} JoinAppends(a: seq<Bytes>, b: seq<Bytes>)
    ensures Join(a + b) == Join(a) + Join(b)
    decreases |a|
  {
    if a == [] {
      assert a + b == b;
    } else {
      JoinAppends(a[1..], b);
      FirstAndRest(a, b);
      JoinFirst(a[0], a[1..]);
      JoinFirst(a[0], a[1..] + b);
      Associate(a[0], Join(a[1..]), Join(b));
    }
  }

  lemma JoinNext(chunks: seq<Bytes>, i: nat)
    requires i < |chunks|
    ensures Join(chunks[..i + 1]) == Join(chunks[..i]) + chunks[i]
  {
    JoinAppends(chunks[..i], [chunks[i]]);
    assert chunks[..i + 1] == chunks[..i] + [chunks[i]];
    assert Join([chunks[i]]) == chunks[i] + Join([]);
  }

  method SplitIntoChunks(data: Bytes, size: int) returns (r: Option<seq<Bytes>>)
    ensures r.Some? <==> size > 0 && data != []
    ensures r.Some? ==> r.value == Split(data, size)
  {
    if size <= 0 || |data| == 0 {
      return None;
    }
    var chunks: seq<Bytes> := [];
    var offset := 0;
    while offset < |data|
      invariant 0 <= offset
      invariant if offset < |data| then chunks + Split(data[offset..], size) == Split(data, size)
                else chunks == Split(data, size)
    {
      var end := if offset + size < |data| then offset + size else |data|;
      var rest := data[offset..];
      assert offset + size < |data| ==> rest[size..] == data[offset + size..] && rest[..size] == data[offset..end];
      assert offset + size >= |data| ==> rest == data[offset..end];
      ghost var before := chunks;
      chunks := chunks + [data[offset..end]];
      assert offset + size < |data|
        ==> before + ([rest[..size]] + Split(rest[size..], size)) == chunks + Split(data[offset + size..], size);
      offset := offset + size;
    }
    r := Some(chunks);
  }

  method JoinChunks(chunks: seq<Bytes>) returns (out: array<byte>)
    ensures fresh(out) && out[..] == Join(chunks)
  {
    var total := 0;
    var i := 0;
    while i < |chunks|
      invariant 0 <= i <= |chunks| && total == |Join(chunks[..i])|
    {
      JoinNext(chunks, i);
      total := total + |chunks[i]|;
      i := i + 1;
    }
    assert chunks[..i] == chunks;
    out := new byte[total];
    var offset := 0;
    i := 0;
    while i < |chunks|
      invariant 0 <= i <= |chunks| && offset == |Join(chunks[..i])|
      invariant out.Length == |Join(chunks)| && offset <= out.Length && out[..offset] == Join(chunks[..i])
    {
      JoinNext(chunks, i);
      JoinAppends(chunks[..i + 1], chunks[i + 1..]);
      assert chunks == chunks[..i + 1] + chunks[i + 1..];
      var chunk := chunks[i];
      forall k | 0 <= k < |chunk| {
        out[offset + k] := chunk[k];
      }
      assert out[..offset + |chunk|] == out[..offset] + chunk;
      offset := offset + |chunk|;
      i := i + 1;
    }
    assert chunks[..i] == chunks;
  }
}
