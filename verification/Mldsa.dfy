/** The byte layouts around ML-DSA-65: lock arguments, witness lock and the framed message of
    section 5.4 of FIPS 204. Keys, signatures and hashes themselves are library code. */
module Mldsa {
  import opened Options
  import opened Hex

  type Bytes = seq<byte>

  const PARAM_ID: nat := 61
  const PK_BYTES: nat := 1952
  const SIG_BYTES: nat := 3309
  const WITNESS_LOCK_BYTES: nat := 5262
  const LOCK_ARGS_BYTES: nat := 37
  const DIGEST_BYTES: nat := 32

  function ConstructFlag(paramId: nat, hasSignature: bool): nat {
    2 * paramId + if hasSignature then 1 else 0
  }

  /** Flag, public key, signature. */
  function WitnessLock(pk: Bytes, sig: Bytes): Bytes {
    [0x7B] + pk + sig
  }

  /** Copied into a buffer of the fixed length; keys and signatures of any other length are refused. */
  method MldsaV2WitnessLock(pk: Bytes, sig: Bytes) returns (r: Option<Bytes>)
    ensures r == if |pk| == 1952 && |sig| == 3309 then Some(WitnessLock(pk, sig)) else None
    ensures r.Some? ==> |r.value| == 5262 && r.value[0] == 0x7B && r.value[1..1953] == pk && r.value[1953..] == sig
  {
    if |pk| != PK_BYTES || |sig| != SIG_BYTES {
      return None;
    }
    var out := new byte[WITNESS_LOCK_BYTES];
    out[0] := ConstructFlag(PARAM_ID, true);
    forall i | 0 <= i < |pk| {
      out[1 + i] := pk[i];
    }
    forall i | 0 <= i < |sig| {
      out[1 + PK_BYTES + i] := sig[i];
    }
    assert out[..] == WitnessLock(pk, sig);
    r := Some(out[..]);
  }

  /** Version bytes, flag without signature, key hash. */
  method MldsaV2LockArgs(pk: Bytes, hash: Bytes -> Bytes) returns (r: Option<Bytes>)
    requires |hash(pk)| == DIGEST_BYTES
    ensures r == if |pk| == 1952 then Some([0x80, 0x01, 0x01, 0x01, 0x7A] + hash(pk)) else None
    ensures r.Some? ==> |r.value| == 37
  {
    if |pk| != PK_BYTES {
      return None;
    }
    var pkHash := hash(pk);
    var out := new byte[LOCK_ARGS_BYTES];
    out[0], out[1], out[2], out[3] := 0x80, 0x01, 0x01, 0x01;
    out[4] := ConstructFlag(PARAM_ID, false);
    forall i | 0 <= i < DIGEST_BYTES {
      out[5 + i] := pkHash[i];
    }
    assert out[..] == [0x80, 0x01, 0x01, 0x01, 0x7A] + pkHash;
    r := Some(out[..]);
  }

  /** The message a signature of pure ML-DSA covers: a zero byte, the context's length, the context,
      the message. */
  function Framed(context: Bytes, message: Bytes): Bytes
    requires |context| < 256
  {
    [0, |context|] + context + message
  }

  /** "CKB-MLDSA-LOCK" */
  const DOMAIN: Bytes := [67, 75, 66, 45, 77, 76, 68, 83, 65, 45, 76, 79, 67, 75]

  method BuildFinalMessage(digest: Bytes) returns (r: Option<Bytes>)
    ensures r == if |digest| == DIGEST_BYTES then Some(Framed(DOMAIN, digest)) else None
    ensures r.Some? <==> |digest| == 32
    ensures r.Some? ==> |r.value| == 48 && r.value[0] == 0 && r.value[1] == 14 && r.value[16..] == digest
    ensures r.Some? ==> forall i :: 0 <= i < 14 ==> r.value[2 + i] as int == "CKB-MLDSA-LOCK"[i] as int
  {
    if |digest| != DIGEST_BYTES {
      return None;
    }
    var domain := DOMAIN;
    var out := new byte[2 + |domain| + DIGEST_BYTES];
    out[0] := 0;
    out[1] := |domain|;
    forall i | 0 <= i < |domain| {
      out[2 + i] := domain[i];
    }
    forall i | 0 <= i < DIGEST_BYTES {
      out[2 + |domain| + i] := digest[i];
    }
    assert out[..] == Framed(domain, digest);
    r := Some(out[..]);
  }

  /** The frame keeps context and message apart: no message under one context is a message under
      another. */
  lemma FrameIsInjective(c: Bytes, m: Bytes, d: Bytes, n: Bytes)
    requires |c| < 256 && |d| < 256 && Framed(c, m) == Framed(d, n)
    ensures c == d && m == n
  {
    var f := Framed(c, m);
    assert f[1] == |c| && f[1] == |d|;
    assert c == f[2..2 + |c|] && d == f[2..2 + |d|] && m == f[2 + |c|..] && n == f[2 + |d|..];
  }

  /** Taking a witness lock apart gives back what it was made of. */
  lemma WitnessLockParts(pk: Bytes, sig: Bytes)
    requires |pk| == PK_BYTES && |sig| == SIG_BYTES
    ensures var l := WitnessLock(pk, sig);
            |l| == WITNESS_LOCK_BYTES && l[0] == 0x7B && l[1..1 + PK_BYTES] == pk && l[1 + PK_BYTES..] == sig
  {
  }
}
