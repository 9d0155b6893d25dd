/** The vault file, version 1: its JSON document, the associated data of its payload, the strict
    parser, and the codec of the secret payload. */
module VaultFormat {
  import opened Options
  import opened Decimal
  import opened Json
  import opened Hex
  import opened Kdf

  const VERSION: nat := 1
  const FILE_MAX_BYTES: nat := 65_536
  const BLOB_MAX_BYTES: nat := 512
  const WRAP_BYTES: nat := 48
  const NONCE_BYTES: nat := 12
  const SEED_BYTES: nat := 64
  const TAG_BYTES: nat := 16

  datatype KdfParams = KdfParams(cost: Cost, salt: seq<byte>)

  datatype WrapSlot = WrapSlot(nonce: seq<byte>, wrappedVek: seq<byte>)

  datatype BiometricSlot = BiometricSlot(nonce: Option<seq<byte>>, wrappedVek: seq<byte>)

  datatype Header = Header(version: nat, kdf: KdfParams, passwordSlot: WrapSlot, biometricSlot: Option<BiometricSlot>)

  datatype Meta = Meta(createdAt: nat, wordCount: nat, hasPassphrase: bool, autoLockSeconds: nat)

  datatype File = File(header: Header, nonce: seq<byte>, ct: seq<byte>, meta: Meta)

  datatype Error = Corrupt | KdfOutOfRange

  datatype Outcome<+T> = Ok(value: T) | Err(error: Error) {
    predicate IsFailure() { Err? }
    function PropagateFailure<U>(): Outcome<U> requires Err? { Err(error) }
    function Extract(): T requires Ok? { value }
  }

  function Check(b: bool): Outcome<()> {
    if b then Ok(()) else Err(Corrupt)
  }

  // ---------------------------------------------------------------- writing

  function HexText(bytes: seq<byte>): Json {
    Str(ToHex(bytes))
  }

  function KdfToWire(k: KdfParams): Json {
    match k.cost
    case Argon2id(m, t, p) =>
      Obj(Member("alg", Str("argon2id"), Member("m", Num(m), Member("t", Num(t), Member("p", Num(p),
        Member("salt", HexText(k.salt), End))))))
    case Scrypt(logN, r, p) =>
      Obj(Member("alg", Str("scrypt"), Member("logN", Num(logN), Member("r", Num(r), Member("p", Num(p),
        Member("salt", HexText(k.salt), End))))))
  }

  function SlotToWire(nonce: Option<seq<byte>>, wrapped: seq<byte>): Json {
    match nonce
    case Some(n) => Obj(Member("nonce", HexText(n), Member("wrappedVek", HexText(wrapped), End)))
    case None => Obj(Member("wrappedVek", HexText(wrapped), End))
  }

  function BiometricToWire(slot: Option<BiometricSlot>): Json {
    match slot
    case None => Null
    case Some(b) => SlotToWire(b.nonce, b.wrappedVek)
  }

  function HeaderMembers(h: Header, rest: Members): Members {
    Member("version", Num(h.version),
      Member("kdf", KdfToWire(h.kdf),
        Member("passwordSlot", SlotToWire(Some(h.passwordSlot.nonce), h.passwordSlot.wrappedVek),
          Member("biometricSlot", BiometricToWire(h.biometricSlot), rest))))
  }

  /** The associated data: the canonical text of the header. */
  function PayloadAad(h: Header): string {
    Stringify(Obj(HeaderMembers(h, End)))
  }

  function PayloadToWire(f: File): Json {
    Obj(Member("nonce", HexText(f.nonce), Member("ct", HexText(f.ct), End)))
  }

  function MetaToWire(m: Meta): Json {
    Obj(Member("createdAt", Num(m.createdAt), Member("wordCount", Num(m.wordCount),
      Member("hasPassphrase", Bool(m.hasPassphrase), Member("autoLockSeconds", Num(m.autoLockSeconds), End)))))
  }

  function FileToWire(f: File): Json {
    Obj(HeaderMembers(f.header, Member("payload", PayloadToWire(f), Member("meta", MetaToWire(f.meta), End))))
  }

  /** Every character is ASCII, so characters are bytes. */
  function SerializeVaultFile(f: File): string {
    Stringify(FileToWire(f))
  }

  // ---------------------------------------------------------------- reading

  function Field(j: Json, name: string): Outcome<Json> {
    if !j.Obj? then Err(Corrupt)
    else match Lookup(j.members, name) case Some(v) => Ok(v) case None => Err(Corrupt)
  }

  function HexOf(j: Json): Outcome<seq<byte>> {
    if j.Str? && IsHex(j.s) then Ok(FromHex(j.s)) else Err(Corrupt)
  }

  function HexField(j: Json, name: string): Outcome<seq<byte>> {
    var v :- Field(j, name);
    HexOf(v)
  }

  function UintField(j: Json, name: string, min: nat, max: nat): Outcome<nat> {
    var v :- Field(j, name);
    if v.Num? && min <= v.n <= max then Ok(v.n) else Err(Corrupt)
  }

  function BoolField(j: Json, name: string): Outcome<bool> {
    var v :- Field(j, name);
    if v.Bool? then Ok(v.b) else Err(Corrupt)
  }

  /** The caps run before anything is derived. */
  function ValidateKdf(k: KdfParams): Outcome<()> {
    if SALT_MIN <= |k.salt| <= SALT_MAX && ValidCost(k.cost) then Ok(()) else Err(KdfOutOfRange)
  }

  function ParseCost(j: Json, alg: Json): Outcome<Cost> {
    if alg == Str("argon2id") then
      var m :- UintField(j, "m", 1, MAX_SAFE_INTEGER);
      var t :- UintField(j, "t", 1, MAX_SAFE_INTEGER);
      var p :- UintField(j, "p", 1, MAX_SAFE_INTEGER);
      Ok(Argon2id(m, t, p))
    else if alg == Str("scrypt") then
      var logN :- UintField(j, "logN", 1, 63);
      var r :- UintField(j, "r", 1, MAX_SAFE_INTEGER);
      var p :- UintField(j, "p", 1, MAX_SAFE_INTEGER);
      Ok(Scrypt(logN, r, p))
    else Err(Corrupt)
  }

  function ParseKdf(j: Json): Outcome<KdfParams> {
    var alg :- Field(j, "alg");
    var salt :- HexField(j, "salt");
    var cost :- ParseCost(j, alg);
    var _ :- ValidateKdf(KdfParams(cost, salt));
    Ok(KdfParams(cost, salt))
  }

  function ParsePasswordSlot(j: Json): Outcome<WrapSlot> {
    var nonce :- HexField(j, "nonce");
    var wrapped :- HexField(j, "wrappedVek");
    var _ :- Check(|nonce| == NONCE_BYTES && |wrapped| == WRAP_BYTES);
    Ok(WrapSlot(nonce, wrapped))
  }

  function ParseBiometricSlot(j: Json): Outcome<Option<BiometricSlot>> {
    if j.Null? then Ok(None)
    else
      var wrapped :- HexField(j, "wrappedVek");
      var _ :- Check(16 <= |wrapped| <= BLOB_MAX_BYTES);
      if Lookup(j.members, "nonce").Some? then
        var nonce :- HexField(j, "nonce");
        var _ :- Check(|nonce| == NONCE_BYTES);
        Ok(Some(BiometricSlot(Some(nonce), wrapped)))
      else Ok(Some(BiometricSlot(None, wrapped)))
  }

  function ParseHeader(j: Json): Outcome<Header> {
    var version :- UintField(j, "version", 1, 1);
    var kdfField :- Field(j, "kdf");
    var kdf :- ParseKdf(kdfField);
    var slotField :- Field(j, "passwordSlot");
    var slot :- ParsePasswordSlot(slotField);
    var bioField :- Field(j, "biometricSlot");
    var bio :- ParseBiometricSlot(bioField);
    Ok(Header(version, kdf, slot, bio))
  }

  function ParseMeta(j: Json): Outcome<Meta> {
    var wordCount :- UintField(j, "wordCount", 12, 24);
    var _ :- Check(wordCount == 12 || wordCount == 24);
    var createdAt :- UintField(j, "createdAt", 0, MAX_SAFE_INTEGER);
    var hasPassphrase :- BoolField(j, "hasPassphrase");
    var autoLock :- UintField(j, "autoLockSeconds", 1, 2_147_483);
    Ok(Meta(createdAt, wordCount, hasPassphrase, autoLock))
  }

  function SecretPayloadBytes(wordCount: nat): nat {
    1 + (if wordCount == 12 then 16 else 32) + SEED_BYTES + 1
  }

  function ParseDocument(j: Json): Outcome<File> {
    var header :- ParseHeader(j);
    var payload :- Field(j, "payload");
    var nonce :- HexField(payload, "nonce");
    var ct :- HexField(payload, "ct");
    var _ :- Check(|nonce| == NONCE_BYTES);
    var metaField :- Field(j, "meta");
    var meta :- ParseMeta(metaField);
    var _ :- Check(|ct| == SecretPayloadBytes(meta.wordCount) + TAG_BYTES);
    Ok(File(header, nonce, ct, meta))
  }

  /** `parse` is JSON.parse, None where it throws. */
  function ParseVaultFile(parse: string -> Option<Json>, text: string): Outcome<File> {
    if |text| > FILE_MAX_BYTES then Err(Corrupt)
    else
      match parse(text)
      case None => Err(Corrupt)
      case Some(j) => ParseDocument(j)
  }

  // ---------------------------------------------------------------- in range

  predicate BiometricOk(b: Option<BiometricSlot>) {
    b.Some? ==> 16 <= |b.value.wrappedVek| <= 512 && (b.value.nonce.Some? ==> |b.value.nonce.value| == 12)
  }

  /** The caps on a recorded key derivation. */
  predicate KdfOk(k: KdfParams) {
    && 8 <= |k.salt| <= 64
    && match k.cost
       case Argon2id(m, t, p) => 8 <= m <= 1_048_576 && 8 * p <= m && 1 <= t <= 16 && 1 <= p <= 8
       case Scrypt(logN, r, p) => 1 <= logN <= 20 && 1 <= r <= 8 && 1 <= p <= 8
  }

  predicate HeaderOk(h: Header) {
    && h.version == 1 && KdfOk(h.kdf)
    && |h.passwordSlot.nonce| == 12 && |h.passwordSlot.wrappedVek| == 48
    && BiometricOk(h.biometricSlot)
  }

  predicate MetaOk(m: Meta) {
    && (m.wordCount == 12 || m.wordCount == 24)
    && m.createdAt <= MAX_SAFE_INTEGER && 1 <= m.autoLockSeconds <= 2_147_483
  }

  predicate InRange(f: File) {
    && HeaderOk(f.header) && MetaOk(f.meta)
    && |f.nonce| == 12 && |f.ct| == if f.meta.wordCount == 12 then 98 else 114
  }

  // ---------------------------------------------------------------- the parser is strict

  /** Whatever text is offered, a file that comes out is in range: every cap and every length has
      been checked before anything is derived from it. */
  lemma ParsedFilesAreInRange(parse: string -> Option<Json>, text: string)
    requires ParseVaultFile(parse, text).Ok?
    ensures InRange(ParseVaultFile(parse, text).value)
  {
    var j := parse(text).value;
    ParsedHeaderIsOk(j);
    ParsedMetaIsOk(Field(j, "meta").value);
  }

  lemma ParsedHeaderIsOk(j: Json)
    requires ParseHeader(j).Ok?
    ensures HeaderOk(ParseHeader(j).value)
  {
  }

  lemma ParsedMetaIsOk(j: Json)
    requires ParseMeta(j).Ok?
    ensures MetaOk(ParseMeta(j).value)
  {
  }

  // ---------------------------------------------------------------- round trip

  lemma HexTextReadsBack(bytes: seq<byte>)
    ensures HexOf(HexText(bytes)) == Ok(bytes) && Plain(HexText(bytes))
  {
    HexRoundTrip(bytes);
  }

  lemma NamesDiffer()
    ensures "alg" != "m" && "alg" != "t" && "alg" != "p" && "alg" != "salt" && "m" != "t" && "m" != "p" && "m" != "salt"
    ensures "t" != "p" && "t" != "salt" && "p" != "salt" && "argon2id" != "scrypt"
    ensures "logN" != "alg" && "logN" != "r" && "logN" != "p" && "logN" != "salt"
            && "r" != "alg" && "r" != "p" && "r" != "salt"
    ensures "nonce" != "wrappedVek" && "nonce" != "ct"
  {
    assert "m"[0] != "t"[0] && "t"[0] != "p"[0] && "m"[0] != "p"[0] && "r"[0] != "p"[0];
    assert "logN"[0] != "salt"[0];
    assert |"alg"| == 3 && |"salt"| == 4 && |"argon2id"| == 8 && |"scrypt"| == 6 && |"nonce"| == 5 && |"ct"| == 2;
  }

  lemma HeaderNamesDiffer()
    ensures "version" != "kdf" && "version" != "passwordSlot" && "version" != "biometricSlot"
    ensures "kdf" != "passwordSlot" && "kdf" != "biometricSlot" && "passwordSlot" != "biometricSlot"
    ensures "payload" !in ["version", "kdf", "passwordSlot", "biometricSlot", "meta"]
    ensures "meta" !in ["version", "kdf", "passwordSlot", "biometricSlot"]
    ensures "createdAt" != "wordCount" && "createdAt" != "hasPassphrase" && "createdAt" != "autoLockSeconds"
    ensures "wordCount" != "hasPassphrase" && "wordCount" != "autoLockSeconds" && "hasPassphrase" != "autoLockSeconds"
  {
    assert |"version"| == 7 && |"payload"| == 7 && "version"[0] != "payload"[0];
    assert |"kdf"| == 3 && |"passwordSlot"| == 12 && |"biometricSlot"| == 13 && |"meta"| == 4;
    assert |"createdAt"| == 9 && |"wordCount"| == 9 && "createdAt"[0] != "wordCount"[0];
    assert |"hasPassphrase"| == 13 && |"autoLockSeconds"| == 15;
  }

  /** Looking a name up in five members. */
  lemma LookupFive(a: string, va: Json, b: string, vb: Json, c: string, vc: Json, d: string, vd: Json, e: string,
        ve: Json, name: string)
    ensures Lookup(Member(a, va, Member(b, vb, Member(c, vc, Member(d, vd, Member(e, ve, End))))), name)
            == if name == a then Some(va) else if name == b then Some(vb) else if name == c then Some(vc)
               else if name == d then Some(vd) else if name == e then Some(ve) else None
  {
    LookupPast(a, va, b, vb, Member(c, vc, Member(d, vd, Member(e, ve, End))), name);
    LookupPast(c, vc, d, vd, Member(e, ve, End), name);
    assert Lookup(Member(e, ve, End), name) == if name == e then Some(ve) else None;
  }

  lemma KdfFields(k: KdfParams, name: string)
    ensures Lookup(KdfToWire(k).members, name)
            == match k.cost
               case Argon2id(m, t, p) =>
                 (if name == "alg" then Some(Str("argon2id")) else if name == "m" then Some(Num(m))
                  else if name == "t" then Some(Num(t))
                  else if name == "p" then Some(Num(p)) else if name == "salt" then Some(HexText(k.salt)) else None)
               case Scrypt(logN, r, p) =>
                 (if name == "alg" then Some(Str("scrypt")) else if name == "logN" then Some(Num(logN))
                  else if name == "r" then Some(Num(r))
                  else if name == "p" then Some(Num(p)) else if name == "salt" then Some(HexText(k.salt)) else None)
  {
    match k.cost
    case Argon2id(m, t, p) => LookupFive("alg", Str("argon2id"), "m", Num(m), "t", Num(t), "p", Num(p),
                                         "salt", HexText(k.salt), name);
    case Scrypt(logN, r, p) => LookupFive("alg", Str("scrypt"), "logN", Num(logN), "r", Num(r), "p", Num(p),
                                          "salt", HexText(k.salt), name);
  }

  lemma CostReadsBack(k: KdfParams)
    requires ValidCost(k.cost)
    ensures ParseCost(KdfToWire(k), Str(if k.cost.Argon2id? then "argon2id" else "scrypt")) == Ok(k.cost)
  {
    NamesDiffer();
    KdfFields(k, "m");
    KdfFields(k, "t");
    KdfFields(k, "p");
    KdfFields(k, "logN");
    KdfFields(k, "r");
  }

  lemma KdfReadsBack(k: KdfParams)
    requires ValidateKdf(k).Ok?
    ensures ParseKdf(KdfToWire(k)) == Ok(k)
  {
    NamesDiffer();
    HexTextReadsBack(k.salt);
    KdfFields(k, "alg");
    KdfFields(k, "salt");
    CostReadsBack(k);
  }

  lemma TwoFields(a: string, va: Json, b: string, vb: Json, name: string)
    ensures Lookup(Member(a, va, Member(b, vb, End)), name)
            == if name == a then Some(va) else if name == b then Some(vb) else None
    ensures Lookup(Member(a, va, End), name) == if name == a then Some(va) else None
  {
    LookupPast(a, va, b, vb, End, name);
  }

  lemma SlotReadsBack(slot: WrapSlot)
    requires |slot.nonce| == NONCE_BYTES && |slot.wrappedVek| == WRAP_BYTES
    ensures ParsePasswordSlot(SlotToWire(Some(slot.nonce), slot.wrappedVek)) == Ok(slot)
  {
    NamesDiffer();
    HexTextReadsBack(slot.nonce);
    HexTextReadsBack(slot.wrappedVek);
    TwoFields("nonce", HexText(slot.nonce), "wrappedVek", HexText(slot.wrappedVek), "nonce");
    TwoFields("nonce", HexText(slot.nonce), "wrappedVek", HexText(slot.wrappedVek), "wrappedVek");
  }

  lemma BiometricReadsBack(b: Option<BiometricSlot>)
    requires BiometricOk(b)
    ensures ParseBiometricSlot(BiometricToWire(b)) == Ok(b)
  {
    if b.Some? {
      var wrapped := HexText(b.value.wrappedVek);
      NamesDiffer();
      HexTextReadsBack(b.value.wrappedVek);
      if b.value.nonce.Some? {
        HexTextReadsBack(b.value.nonce.value);
        TwoFields("nonce", HexText(b.value.nonce.value), "wrappedVek", wrapped, "nonce");
        TwoFields("nonce", HexText(b.value.nonce.value), "wrappedVek", wrapped, "wrappedVek");
      } else {
        TwoFields("wrappedVek", wrapped, "nonce", Null, "nonce");
        TwoFields("wrappedVek", wrapped, "nonce", Null, "wrappedVek");
      }
    }
  }

  lemma HeaderFields(h: Header, rest: Members, name: string)
    ensures Lookup(HeaderMembers(h, rest), name)
            == if name == "version" then Some(Num(h.version))
               else if name == "kdf" then Some(KdfToWire(h.kdf))
               else if name == "passwordSlot"
                 then Some(SlotToWire(Some(h.passwordSlot.nonce), h.passwordSlot.wrappedVek))
               else if name == "biometricSlot" then Some(BiometricToWire(h.biometricSlot))
               else Lookup(rest, name)
  {
    var slot, bio := SlotToWire(Some(h.passwordSlot.nonce), h.passwordSlot.wrappedVek),
                     BiometricToWire(h.biometricSlot);
    LookupPast("version", Num(h.version), "kdf", KdfToWire(h.kdf),
               Member("passwordSlot", slot, Member("biometricSlot", bio, rest)), name);
    LookupPast("passwordSlot", slot, "biometricSlot", bio, rest, name);
  }

  lemma HeaderReadsBack(h: Header, rest: Members)
    requires HeaderOk(h)
    ensures ParseHeader(Obj(HeaderMembers(h, rest))) == Ok(h)
  {
    HeaderNamesDiffer();
    KdfReadsBack(h.kdf);
    SlotReadsBack(h.passwordSlot);
    BiometricReadsBack(h.biometricSlot);
    HeaderFields(h, rest, "version");
    HeaderFields(h, rest, "kdf");
    HeaderFields(h, rest, "passwordSlot");
    HeaderFields(h, rest, "biometricSlot");
  }

  lemma MetaFields(m: Meta, name: string)
    ensures Lookup(MetaToWire(m).members, name)
            == if name == "createdAt" then Some(Num(m.createdAt))
               else if name == "wordCount" then Some(Num(m.wordCount))
               else if name == "hasPassphrase" then Some(Bool(m.hasPassphrase))
               else if name == "autoLockSeconds" then Some(Num(m.autoLockSeconds)) else None
  {
    var flag, lock := Bool(m.hasPassphrase), Num(m.autoLockSeconds);
    LookupPast("createdAt", Num(m.createdAt), "wordCount", Num(m.wordCount),
               Member("hasPassphrase", flag, Member("autoLockSeconds", lock, End)), name);
    LookupPast("hasPassphrase", flag, "autoLockSeconds", lock, End, name);
  }

  lemma MetaReadsBack(m: Meta)
    requires MetaOk(m)
    ensures ParseMeta(MetaToWire(m)) == Ok(m)
  {
    HeaderNamesDiffer();
    MetaFields(m, "wordCount");
    MetaFields(m, "createdAt");
    MetaFields(m, "hasPassphrase");
    MetaFields(m, "autoLockSeconds");
  }

  lemma PayloadReadsBack(f: File)
    ensures HexField(PayloadToWire(f), "nonce") == Ok(f.nonce) && HexField(PayloadToWire(f), "ct") == Ok(f.ct)
  {
    NamesDiffer();
    HexTextReadsBack(f.nonce);
    HexTextReadsBack(f.ct);
    TwoFields("nonce", HexText(f.nonce), "ct", HexText(f.ct), "nonce");
    TwoFields("nonce", HexText(f.nonce), "ct", HexText(f.ct), "ct");
  }

  lemma RestFields(f: File)
    ensures Field(FileToWire(f), "payload") == Ok(PayloadToWire(f))
            && Field(FileToWire(f), "meta") == Ok(MetaToWire(f.meta))
  {
    var rest := Member("payload", PayloadToWire(f), Member("meta", MetaToWire(f.meta), End));
    HeaderNamesDiffer();
    HeaderFields(f.header, rest, "payload");
    HeaderFields(f.header, rest, "meta");
    TwoFields("payload", PayloadToWire(f), "meta", MetaToWire(f.meta), "payload");
    TwoFields("payload", PayloadToWire(f), "meta", MetaToWire(f.meta), "meta");
  }

  lemma DocumentReadsBack(f: File)
    requires InRange(f)
    ensures ParseDocument(FileToWire(f)) == Ok(f)
  {
    var rest := Member("payload", PayloadToWire(f), Member("meta", MetaToWire(f.meta), End));
    HeaderReadsBack(f.header, rest);
    RestFields(f);
    PayloadReadsBack(f);
    MetaReadsBack(f.meta);
  }

  // ---------------------------------------------------------------- plain and small

  predicate SafeHeader(h: Header) {
    h.version <= MAX_SAFE_INTEGER
    && match h.kdf.cost
       case Argon2id(m, t, p) => m <= MAX_SAFE_INTEGER && t <= MAX_SAFE_INTEGER && p <= MAX_SAFE_INTEGER
       case Scrypt(logN, r, p) => logN <= MAX_SAFE_INTEGER && r <= MAX_SAFE_INTEGER && p <= MAX_SAFE_INTEGER
  }

  lemma HexIsPlain(bytes: seq<byte>)
    ensures Plain(HexText(bytes))
  {
    HexRoundTrip(bytes);
  }

  lemma NamesArePlain()
    ensures PlainText("alg") && PlainText("m") && PlainText("t") && PlainText("p") && PlainText("salt")
    ensures PlainText("logN") && PlainText("r") && PlainText("argon2id") && PlainText("scrypt")
    ensures PlainText("nonce") && PlainText("wrappedVek") && PlainText("ct")
  {
  }

  lemma MoreNamesArePlain()
    ensures PlainText("version") && PlainText("kdf") && PlainText("passwordSlot") && PlainText("biometricSlot")
    ensures PlainText("payload") && PlainText("meta") && PlainText("createdAt") && PlainText("wordCount")
    ensures PlainText("hasPassphrase") && PlainText("autoLockSeconds")
  {
  }

  lemma FiveArePlain(a: string, va: Json, b: string, vb: Json, c: string, vc: Json, d: string, vd: Json, e: string,
        ve: Json)
    requires PlainText(a) && PlainText(b) && PlainText(c) && PlainText(d) && PlainText(e)
    requires Plain(va) && Plain(vb) && Plain(vc) && Plain(vd) && Plain(ve)
    ensures PlainMembers(Member(a, va, Member(b, vb, Member(c, vc, Member(d, vd, Member(e, ve, End))))))
  {
    PlainPast(a, va, b, vb, Member(c, vc, Member(d, vd, Member(e, ve, End))));
    PlainPast(c, vc, d, vd, Member(e, ve, End));
    assert PlainMembers(Member(e, ve, End));
  }

  lemma KdfIsPlain(h: Header)
    requires SafeHeader(h)
    ensures Plain(KdfToWire(h.kdf))
  {
    HexIsPlain(h.kdf.salt);
    NamesArePlain();
    match h.kdf.cost
    case Argon2id(m, t, p) =>
      FiveArePlain("alg", Str("argon2id"), "m", Num(m), "t", Num(t), "p", Num(p), "salt", HexText(h.kdf.salt));
    case Scrypt(logN, r, p) =>
      FiveArePlain("alg", Str("scrypt"), "logN", Num(logN), "r", Num(r), "p", Num(p), "salt", HexText(h.kdf.salt));
  }

  lemma SlotIsPlain(nonce: Option<seq<byte>>, wrapped: seq<byte>)
    ensures Plain(SlotToWire(nonce, wrapped))
  {
    NamesArePlain();
    HexIsPlain(wrapped);
    if nonce.Some? {
      HexIsPlain(nonce.value);
      PlainPast("nonce", HexText(nonce.value), "wrappedVek", HexText(wrapped), End);
    }
  }

  lemma HeaderIsPlain(h: Header, rest: Members)
    requires SafeHeader(h) && PlainMembers(rest)
    ensures PlainMembers(HeaderMembers(h, rest))
  {
    MoreNamesArePlain();
    KdfIsPlain(h);
    SlotIsPlain(Some(h.passwordSlot.nonce), h.passwordSlot.wrappedVek);
    if h.biometricSlot.Some? {
      SlotIsPlain(h.biometricSlot.value.nonce, h.biometricSlot.value.wrappedVek);
    }
    var slot, bio := SlotToWire(Some(h.passwordSlot.nonce), h.passwordSlot.wrappedVek),
                     BiometricToWire(h.biometricSlot);
    PlainPast("passwordSlot", slot, "biometricSlot", bio, rest);
    PlainPast("version", Num(h.version), "kdf", KdfToWire(h.kdf), Member("passwordSlot", slot,
        Member("biometricSlot", bio, rest)));
  }

  lemma MetaIsPlain(m: Meta)
    requires MetaOk(m)
    ensures Plain(MetaToWire(m))
  {
    MoreNamesArePlain();
    var flag, lock := Bool(m.hasPassphrase), Num(m.autoLockSeconds);
    PlainPast("hasPassphrase", flag, "autoLockSeconds", lock, End);
    PlainPast("createdAt", Num(m.createdAt), "wordCount", Num(m.wordCount),
              Member("hasPassphrase", flag, Member("autoLockSeconds", lock, End)));
  }

  lemma PayloadIsPlain(f: File)
    ensures Plain(PayloadToWire(f))
  {
    NamesArePlain();
    HexIsPlain(f.nonce);
    HexIsPlain(f.ct);
    PlainPast("nonce", HexText(f.nonce), "ct", HexText(f.ct), End);
  }

  lemma FileIsPlain(f: File)
    requires InRange(f)
    ensures Plain(FileToWire(f))
  {
    MoreNamesArePlain();
    PayloadIsPlain(f);
    MetaIsPlain(f.meta);
    var rest := Member("payload", PayloadToWire(f), Member("meta", MetaToWire(f.meta), End));
    PlainPast("payload", PayloadToWire(f), "meta", MetaToWire(f.meta), End);
    HeaderIsPlain(f.header, rest);
  }

  // ---------------------------------------------------------------- the associated data

  lemma CostIsUnique(a: KdfParams, b: KdfParams)
    requires KdfToWire(a) == KdfToWire(b)
    ensures a == b
  {
    ToHexIsInjectiveOnText(a.salt, b.salt);
  }

  lemma ToHexIsInjectiveOnText(a: seq<byte>, b: seq<byte>)
    ensures HexText(a) == HexText(b) ==> a == b
  {
    if HexText(a) == HexText(b) {
      ToHexIsInjective(a, b);
    }
  }

  lemma SlotIsUnique(n: Option<seq<byte>>, v: seq<byte>, m: Option<seq<byte>>, w: seq<byte>)
    requires SlotToWire(n, v) == SlotToWire(m, w)
    ensures n == m && v == w
  {
    ToHexIsInjectiveOnText(v, w);
    if n.Some? && m.Some? {
      ToHexIsInjectiveOnText(n.value, m.value);
    }
  }

  /** Two headers with the same associated data are the same header: an edit of the version, a KDF
      parameter, the salt or either slot changes the associated data. */
  lemma PayloadAadIsInjective(a: Header, b: Header)
    requires SafeHeader(a) && SafeHeader(b) && PayloadAad(a) == PayloadAad(b)
    ensures a == b
  {
    HeaderIsPlain(a, End);
    HeaderIsPlain(b, End);
    StringifyIsInjective(Obj(HeaderMembers(a, End)), Obj(HeaderMembers(b, End)));
    CostIsUnique(a.kdf, b.kdf);
    SlotIsUnique(Some(a.passwordSlot.nonce), a.passwordSlot.wrappedVek, Some(b.passwordSlot.nonce),
        b.passwordSlot.wrappedVek);
    if a.biometricSlot.Some? && b.biometricSlot.Some? {
      SlotIsUnique(a.biometricSlot.value.nonce, a.biometricSlot.value.wrappedVek,
                   b.biometricSlot.value.nonce, b.biometricSlot.value.wrappedVek);
    }
  }

  // ---------------------------------------------------------------- the file fits

  function Pow10(k: nat): nat {
    if k == 0 then 1 else 10 * Pow10(k - 1)
  }

  lemma {:induction false} NumeralLength(n: nat, k: nat)
    requires k > 0 && n < Pow10(k)
    ensures |Numeral(n)| <= k
  {
    if n >= 10 {
      NumeralLength(n / 10, k - 1);
    }
  }

  lemma SafeNumeralLength(n: nat)
    requires n <= MAX_SAFE_INTEGER
    ensures |Numeral(n)| <= 16
  {
    assert Pow10(4) == 10_000 && Pow10(8) == 10_000 * Pow10(4) by { Pow10Adds(4, 4); }
    Pow10Adds(8, 8);
    NumeralLength(n, 16);
  }

  lemma {:induction false} Pow10Adds(a: nat, b: nat)
    ensures Pow10(a + b) == Pow10(a) * Pow10(b)
  {
    if a > 0 {
      Pow10Adds(a - 1, b);
    }
  }

  /** Two members take their names, their values, six characters and at most a comma. */
  lemma LengthPast(a: string, va: Json, b: string, vb: Json, rest: Members)
    ensures |StringifyMembers(Member(a, va, Member(b, vb, rest)))|
            <= |a| + |Stringify(va)| + |b| + |Stringify(vb)| + 8 + |StringifyMembers(rest)|
  {
    assert |StringifyMembers(Member(b, vb, rest))| <= |b| + |Stringify(vb)| + 4 + |StringifyMembers(rest)|;
  }

  lemma KdfLength(k: KdfParams)
    requires ValidateKdf(k).Ok?
    ensures |Stringify(KdfToWire(k))| <= 300
  {
    match k.cost
    case Argon2id(m, t, p) => FiveLengths("m", m, "t", t, "p", p, "argon2id", k.salt);
    case Scrypt(logN, r, p) => FiveLengths("logN", logN, "r", r, "p", p, "scrypt", k.salt);
  }

  lemma FiveLengths(a: string, x: nat, b: string, y: nat, c: string, z: nat, alg: string, salt: seq<byte>)
    requires |a| <= 4 && |b| <= 4 && |c| <= 4 && |alg| <= 8 && |salt| <= 64
    requires x <= MAX_SAFE_INTEGER && y <= MAX_SAFE_INTEGER && z <= MAX_SAFE_INTEGER
    ensures |Stringify(Obj(Member("alg", Str(alg), Member(a, Num(x), Member(b, Num(y), Member(c, Num(z),
              Member("salt", HexText(salt), End)))))))| <= 300
  {
    SafeNumeralLength(x);
    SafeNumeralLength(y);
    SafeNumeralLength(z);
    var last := Member("salt", HexText(salt), End);
    assert |StringifyMembers(last)| <= 4 + 4 + 2 * |salt| + 2;
    LengthPast(b, Num(y), c, Num(z), last);
    LengthPast("alg", Str(alg), a, Num(x), Member(b, Num(y), Member(c, Num(z), last)));
  }

  lemma SlotLength(nonce: Option<seq<byte>>, wrapped: seq<byte>)
    requires |wrapped| <= 512 && (nonce.Some? ==> |nonce.value| == 12)
    ensures |Stringify(SlotToWire(nonce, wrapped))| <= 1_200
  {
    if nonce.Some? {
      LengthPast("nonce", HexText(nonce.value), "wrappedVek", HexText(wrapped), End);
    } else {
      assert StringifyMembers(Member("wrappedVek", HexText(wrapped), End))
             == "\"" + "wrappedVek" + "\":" + Stringify(HexText(wrapped)) + "";
    }
  }

  lemma HeaderLength(h: Header, rest: Members)
    requires HeaderOk(h)
    ensures |StringifyMembers(HeaderMembers(h, rest))| <= 3_000 + |StringifyMembers(rest)|
  {
    var slot, bio := SlotToWire(Some(h.passwordSlot.nonce), h.passwordSlot.wrappedVek),
                     BiometricToWire(h.biometricSlot);
    SafeNumeralLength(h.version);
    KdfLength(h.kdf);
    SlotLength(Some(h.passwordSlot.nonce), h.passwordSlot.wrappedVek);
    if h.biometricSlot.Some? {
      SlotLength(h.biometricSlot.value.nonce, h.biometricSlot.value.wrappedVek);
    }
    LengthPast("passwordSlot", slot, "biometricSlot", bio, rest);
    LengthPast("version", Num(h.version), "kdf", KdfToWire(h.kdf), Member("passwordSlot", slot,
        Member("biometricSlot", bio, rest)));
  }

  lemma MetaLength(m: Meta)
    requires MetaOk(m)
    ensures |Stringify(MetaToWire(m))| <= 200
  {
    SafeNumeralLength(m.createdAt);
    SafeNumeralLength(m.wordCount);
    SafeNumeralLength(m.autoLockSeconds);
    var flag, lock := Bool(m.hasPassphrase), Num(m.autoLockSeconds);
    LengthPast("hasPassphrase", flag, "autoLockSeconds", lock, End);
    LengthPast("createdAt", Num(m.createdAt), "wordCount", Num(m.wordCount),
               Member("hasPassphrase", flag, Member("autoLockSeconds", lock, End)));
  }

  /** Every file in range is far below the size cap. */
  lemma FilesFit(f: File)
    requires InRange(f)
    ensures |SerializeVaultFile(f)| <= 4_000
  {
    var rest := Member("payload", PayloadToWire(f), Member("meta", MetaToWire(f.meta), End));
    LengthPast("nonce", HexText(f.nonce), "ct", HexText(f.ct), End);
    MetaLength(f.meta);
    LengthPast("payload", PayloadToWire(f), "meta", MetaToWire(f.meta), End);
    HeaderLength(f.header, rest);
  }

  /** Writing a file in range and parsing it gives the file back, and with it the associated data
      its payload was sealed with. */
  lemma VaultFileRoundTrip(parse: string -> Option<Json>, f: File)
    requires ReadsBack(parse) && InRange(f)
    ensures ParseVaultFile(parse, SerializeVaultFile(f)) == Ok(f)
    ensures PayloadAad(ParseVaultFile(parse, SerializeVaultFile(f)).value.header) == PayloadAad(f.header)
  {
    FilesFit(f);
    FileIsPlain(f);
    DocumentReadsBack(f);
  }

  /** In range is exactly what survives: any other file is refused when read back, or comes back
      different. */
  lemma OnlyFilesInRangeReadBack(parse: string -> Option<Json>, f: File)
    requires ReadsBack(parse)
    ensures ParseVaultFile(parse, SerializeVaultFile(f)) == Ok(f) <==> InRange(f)
  {
    var parsed := ParseVaultFile(parse, SerializeVaultFile(f));
    if InRange(f) {
      VaultFileRoundTrip(parse, f);
    } else if parsed.Ok? {
      ParsedFilesAreInRange(parse, SerializeVaultFile(f));
      assert InRange(parsed.value) && parsed.value != f;
    }
  }

  // ---------------------------------------------------------------- the secret payload

  datatype SecretPayload = SecretPayload(entropy: seq<byte>, seed: seq<byte>, hasPassphrase: bool)

  predicate PayloadOk(p: SecretPayload) {
    (|p.entropy| == 16 || |p.entropy| == 32) && |p.seed| == SEED_BYTES
  }

  function PayloadBytes(p: SecretPayload): seq<byte>
    requires PayloadOk(p)
  {
    [|p.entropy|] + p.entropy + p.seed + [if p.hasPassphrase then 1 else 0]
  }

  /** The encoder's buffer: length, entropy, seed, flag. */
  method EncodeSecretPayload(p: SecretPayload) returns (r: Outcome<seq<byte>>)
    ensures r == if PayloadOk(p) then Ok(PayloadBytes(p)) else Err(Corrupt)
  {
    if |p.entropy| != 16 && |p.entropy| != 32 {
      return Err(Corrupt);
    }
    if |p.seed| != SEED_BYTES {
      return Err(Corrupt);
    }
    var out := new byte[1 + |p.entropy| + SEED_BYTES + 1];
    out[0] := |p.entropy|;
    forall i | 0 <= i < |p.entropy| {
      out[1 + i] := p.entropy[i];
    }
    forall i | 0 <= i < SEED_BYTES {
      out[1 + |p.entropy| + i] := p.seed[i];
    }
    out[out.Length - 1] := if p.hasPassphrase then 1 else 0;
    assert out[..] == PayloadBytes(p);
    r := Ok(out[..]);
  }

  function DecodeSecretPayload(bytes: seq<byte>): Outcome<SecretPayload> {
    if bytes == [] || (bytes[0] != 16 && bytes[0] != 32) then Err(Corrupt)
    else if |bytes| != 1 + bytes[0] + SEED_BYTES + 1 then Err(Corrupt)
    else if bytes[|bytes| - 1] != 0 && bytes[|bytes| - 1] != 1 then Err(Corrupt)
    else
      Ok(SecretPayload(bytes[1..1 + bytes[0]], bytes[1 + bytes[0]..1 + bytes[0] + SEED_BYTES], bytes[|bytes| - 1] == 1))
  }

  lemma SecretPayloadRoundTrip(p: SecretPayload)
    requires PayloadOk(p)
    ensures DecodeSecretPayload(PayloadBytes(p)) == Ok(p)
    ensures |PayloadBytes(p)| == SecretPayloadBytes(if |p.entropy| == 16 then 12 else 24)
  {
    var b := PayloadBytes(p);
    assert b[1..1 + b[0]] == p.entropy;
    assert b[1 + b[0]..1 + b[0] + SEED_BYTES] == p.seed;
  }

  /** The codec is a bijection onto the bytes the decoder accepts. */
  lemma AcceptedBytesRoundTrip(bytes: seq<byte>)
    requires DecodeSecretPayload(bytes).Ok?
    ensures PayloadOk(DecodeSecretPayload(bytes).value) && PayloadBytes(DecodeSecretPayload(bytes).value) == bytes
  {
    var p := DecodeSecretPayload(bytes).value;
    assert PayloadBytes(p) == bytes;
  }
}
