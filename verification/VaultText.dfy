/** The vault's documents as text: which members they have and in which order. The order matters in the
    header, whose text is the payload's associated data. */
module VaultText {
  import opened Options
  import opened Json
  import opened Hex
  import opened Kdf
  import opened VaultFormat

  /** One member. */
  function Pair(name: string, value: Json): string {
    "\"" + name + "\":" + Stringify(value)
  }

  lemma LastText(name: string, value: Json)
    ensures StringifyMembers(Member(name, value, End)) == Pair(name, value)
  {
  }

  lemma NextText(name: string, value: Json, rest: Members)
    requires !rest.End?
    ensures StringifyMembers(Member(name, value, rest)) == Pair(name, value) + "," + StringifyMembers(rest)
  {
    assert Pair(name, value) + ("," + StringifyMembers(rest)) == Pair(name, value) + "," + StringifyMembers(rest);
  }

  function Listed(pairs: seq<string>): string {
    if pairs == [] then "" else if |pairs| == 1 then pairs[0] else pairs[0] + "," + Listed(pairs[1..])
  }

  lemma ListedNext(name: string, value: Json, rest: Members, pairs: seq<string>)
    requires pairs != [] && !rest.End? && StringifyMembers(rest) == Listed(pairs)
    ensures StringifyMembers(Member(name, value, rest)) == Listed([Pair(name, value)] + pairs)
  {
    NextText(name, value, rest);
    assert ([Pair(name, value)] + pairs)[1..] == pairs;
  }

  lemma TwoText(a: string, x: Json, b: string, y: Json)
    ensures StringifyMembers(Member(a, x, Member(b, y, End))) == Listed([Pair(a, x), Pair(b, y)])
  {
    LastText(b, y);
    assert StringifyMembers(Member(b, y, End)) == Listed([Pair(b, y)]);
    ListedNext(a, x, Member(b, y, End), [Pair(b, y)]);
    assert [Pair(a, x)] + [Pair(b, y)] == [Pair(a, x), Pair(b, y)];
  }

  lemma FourText(a: string, x: Json, b: string, y: Json, c: string, z: Json, d: string, u: Json)
    ensures StringifyMembers(Member(a, x, Member(b, y, Member(c, z, Member(d, u, End)))))
            == Listed([Pair(a, x), Pair(b, y), Pair(c, z), Pair(d, u)])
  {
    TwoText(c, z, d, u);
    ListedNext(b, y, Member(c, z, Member(d, u, End)), [Pair(c, z), Pair(d, u)]);
    assert [Pair(b, y)] + [Pair(c, z), Pair(d, u)] == [Pair(b, y), Pair(c, z), Pair(d, u)];
    ListedNext(a, x, Member(b, y, Member(c, z, Member(d, u, End))), [Pair(b, y), Pair(c, z), Pair(d, u)]);
    assert [Pair(a, x)] + [Pair(b, y), Pair(c, z), Pair(d, u)] == [Pair(a, x), Pair(b, y), Pair(c, z), Pair(d, u)];
  }

  /** The associated data: version, key derivation and both slots, in this order and nothing else. */
  lemma AadText(h: Header)
    ensures PayloadAad(h)
            == "{" + Listed([Pair("version", Num(h.version)), Pair("kdf", KdfToWire(h.kdf)),
                             Pair("passwordSlot", SlotToWire(Some(h.passwordSlot.nonce), h.passwordSlot.wrappedVek)),
                             Pair("biometricSlot", BiometricToWire(h.biometricSlot))]) + "}"
  {
    FourText("version", Num(h.version), "kdf", KdfToWire(h.kdf),
             "passwordSlot", SlotToWire(Some(h.passwordSlot.nonce), h.passwordSlot.wrappedVek),
             "biometricSlot", BiometricToWire(h.biometricSlot));
  }

  lemma FiveText(a: string, x: Json, b: string, y: Json, c: string, z: Json, d: string, u: Json, e: string, v: Json)
    ensures StringifyMembers(Member(a, x, Member(b, y, Member(c, z, Member(d, u, Member(e, v, End))))))
            == Listed([Pair(a, x), Pair(b, y), Pair(c, z), Pair(d, u), Pair(e, v)])
  {
    var rest := Member(b, y, Member(c, z, Member(d, u, Member(e, v, End))));
    var pairs := [Pair(b, y), Pair(c, z), Pair(d, u), Pair(e, v)];
    FourText(b, y, c, z, d, u, e, v);
    ListedNext(a, x, rest, pairs);
    assert [Pair(a, x)] + pairs == [Pair(a, x), Pair(b, y), Pair(c, z), Pair(d, u), Pair(e, v)];
  }

  /** A key derivation: its algorithm, three costs, the salt. */
  lemma KdfText(k: KdfParams)
    ensures Stringify(KdfToWire(k))
            == "{" + Listed(match k.cost
                            case Argon2id(m, t, p) =>
                              [Pair("alg", Str("argon2id")), Pair("m", Num(m)), Pair("t", Num(t)), Pair("p", Num(p)),
                               Pair("salt", Str(ToHex(k.salt)))]
                            case Scrypt(logN, r, p) =>
                              [Pair("alg", Str("scrypt")), Pair("logN", Num(logN)), Pair("r", Num(r)),
                               Pair("p", Num(p)), Pair("salt", Str(ToHex(k.salt)))]) + "}"
  {
    match k.cost
    case Argon2id(m, t, p) =>
      FiveText("alg", Str("argon2id"), "m", Num(m), "t", Num(t), "p", Num(p), "salt", HexText(k.salt));
    case Scrypt(logN, r, p) =>
      FiveText("alg", Str("scrypt"), "logN", Num(logN), "r", Num(r), "p", Num(p), "salt", HexText(k.salt));
  }

  /** A slot: the nonce, if it has one, and the wrapped key. */
  lemma SlotText(nonce: seq<byte>, wrapped: seq<byte>)
    ensures Stringify(SlotToWire(Some(nonce), wrapped))
            == "{" + Listed([Pair("nonce", Str(ToHex(nonce))), Pair("wrappedVek", Str(ToHex(wrapped)))]) + "}"
    ensures Stringify(SlotToWire(None, wrapped)) == "{" + Pair("wrappedVek", Str(ToHex(wrapped))) + "}"
  {
    TwoText("nonce", HexText(nonce), "wrappedVek", HexText(wrapped));
    LastText("wrappedVek", HexText(wrapped));
  }
}
