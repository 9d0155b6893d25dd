/** The vault's state machine and its file format, put together: what the machine calls readable is
    what the byte-exact parser accepts. */
module VaultStorage {
  import opened Options
  import opened Decimal
  import opened Json
  import opened Hex
  import opened Kdf
  import V = Vault
  import F = VaultFormat

  const DRAWN_SALT_BYTES: nat := 16

  /** The bytes that the vault hands to storage for one of its files: salt and nonces as it draws
      them, a 32-byte VEK wrapped to 48, the keystore's blob as it came and without a nonce, the
      sealed payload, the meta fields as they are. */
  predicate Written(v: V.File, f: F.File) {
    var h := f.header;
    && h.version == F.VERSION && h.kdf.cost == v.kdf.cost && |h.kdf.salt| == DRAWN_SALT_BYTES
    && |h.passwordSlot.nonce| == F.NONCE_BYTES && |h.passwordSlot.wrappedVek| == F.WRAP_BYTES
    && (h.biometricSlot.Some? <==> v.biometricSlot.Some?)
    && (h.biometricSlot.Some? ==>
          h.biometricSlot.value.nonce.None? && |h.biometricSlot.value.wrappedVek| == v.biometricSlot.value.length)
    && |f.nonce| == F.NONCE_BYTES && |f.ct| == F.SecretPayloadBytes(v.meta.wordCount) + F.TAG_BYTES
    && f.meta.createdAt <= MAX_SAFE_INTEGER
    && f.meta.wordCount == v.meta.wordCount && f.meta.hasPassphrase == v.meta.hasPassphrase
    && f.meta.autoLockSeconds == v.meta.autoLockSeconds
  }

  /** A time that is no integer from 1 to 2147483 is refused whatever else the text says: a negative
      or a fractional one as much as 0. */
  lemma OtherTimesAreRefused(parse: string -> Option<Json>, text: string, j: Json, meta: Json, time: Json)
    requires parse(text) == Some(j) && F.Field(j, "meta") == F.Ok(meta)
             && F.Field(meta, "autoLockSeconds") == F.Ok(time)
    requires !(time.Num? && V.TimeInRange(time.n))
    ensures F.ParseVaultFile(parse, text).Err?
  {
    assert F.ParseMeta(meta).Err?;
  }

  lemma MetaIsPlain(m: F.Meta)
    requires m.createdAt <= MAX_SAFE_INTEGER && m.wordCount <= MAX_SAFE_INTEGER && m.autoLockSeconds <= MAX_SAFE_INTEGER
    ensures Plain(F.MetaToWire(m))
  {
    F.MoreNamesArePlain();
    var flag, lock := Bool(m.hasPassphrase), Num(m.autoLockSeconds);
    PlainPast("hasPassphrase", flag, "autoLockSeconds", lock, End);
    PlainPast("createdAt", Num(m.createdAt), "wordCount", Num(m.wordCount),
              Member("hasPassphrase", flag, Member("autoLockSeconds", lock, End)));
  }

  lemma WrittenIsPlain(v: V.File, f: F.File)
    requires Written(v, f) && ValidCost(v.kdf.cost) && V.IsVaultCount(v.meta.wordCount)
    requires v.meta.autoLockSeconds <= MAX_SAFE_INTEGER
    ensures Plain(F.FileToWire(f))
  {
    F.MoreNamesArePlain();
    F.PayloadIsPlain(f);
    MetaIsPlain(f.meta);
    var rest := Member("payload", F.PayloadToWire(f), Member("meta", F.MetaToWire(f.meta), End));
    PlainPast("payload", F.PayloadToWire(f), "meta", F.MetaToWire(f.meta), End);
    F.HeaderIsPlain(f.header, rest);
  }

  lemma BadMetaFails(m: F.Meta)
    requires !V.TimeInRange(m.autoLockSeconds)
    ensures F.ParseMeta(F.MetaToWire(m)).Err?
  {
    F.MetaFields(m, "autoLockSeconds");
  }

  lemma BadTimeFails(f: F.File)
    requires !V.TimeInRange(f.meta.autoLockSeconds)
    ensures F.ParseDocument(F.FileToWire(f)).Err?
  {
    F.RestFields(f);
    BadMetaFails(f.meta);
  }

  lemma BadBlobFails(f: F.File)
    requires f.header.biometricSlot.Some? && f.header.biometricSlot.value.nonce.None?
    requires !V.BlobInRange(|f.header.biometricSlot.value.wrappedVek|)
    ensures F.ParseDocument(F.FileToWire(f)).Err?
  {
    var rest := Member("payload", F.PayloadToWire(f), Member("meta", F.MetaToWire(f.meta), End));
    var wrapped := f.header.biometricSlot.value.wrappedVek;
    F.HeaderNamesDiffer();
    F.HeaderFields(f.header, rest, "biometricSlot");
    F.HexTextReadsBack(wrapped);
    F.TwoFields("wrappedVek", F.HexText(wrapped), "nonce", Null, "wrappedVek");
    assert F.ParseBiometricSlot(F.BiometricToWire(f.header.biometricSlot)).Err?;
    assert F.ParseHeader(F.FileToWire(f)).Err?;
  }

  /** The state machine's range predicate is the parser's: the bytes written for a file are read
      back as that file if it is readable, and are refused if it is not. */
  lemma StoredFilesReadBack(parse: string -> Option<Json>, v: V.File, f: F.File)
    requires ReadsBack(parse) && Written(v, f) && ValidCost(v.kdf.cost) && V.IsVaultCount(v.meta.wordCount)
    requires v.meta.autoLockSeconds <= MAX_SAFE_INTEGER
    ensures var read := F.ParseVaultFile(parse, F.SerializeVaultFile(f));
            && (V.Readable(v) ==> read == F.Ok(f))
            && (!V.Readable(v) ==> read.Err?)
  {
    if V.Readable(v) {
      F.VaultFileRoundTrip(parse, f);
    } else {
      WrittenIsPlain(v, f);
      if V.TimeInRange(v.meta.autoLockSeconds) {
        BadBlobFails(f);
      } else {
        BadTimeFails(f);
      }
    }
  }

  /** A time the format writes as a non-negative integer that JSON carries exactly. */
  predicate Carried(seconds: int) {
    0 <= seconds <= MAX_SAFE_INTEGER
  }

  /** The text in storage for a file: what the writer makes of it, or, for a time that is negative or
      too large, a document whose time reads back as anything but a number from 1 to 2147483. */
  ghost predicate StoredAs(parse: string -> Option<Json>, v: V.File, text: string) {
    if Carried(v.meta.autoLockSeconds) then exists f :: Written(v, f) && text == F.SerializeVaultFile(f)
    else exists j, meta, time :: TimeIn(parse, text, j, meta, time) && !(time.Num? && V.TimeInRange(time.n))
  }

  ghost predicate TimeIn(parse: string -> Option<Json>, text: string, j: Json, meta: Json, time: Json) {
    parse(text) == Some(j) && F.Field(j, "meta") == F.Ok(meta) && F.Field(meta, "autoLockSeconds") == F.Ok(time)
  }

  /** After any sequence of vault calls, the text in storage parses exactly when the auto-lock time
      the vault was created with and the blob of the enrolment in force are in range, whatever
      integer the time is. */
  lemma StorageParsesExactly(parse: string -> Option<Json>, keystore: Option<nat>, events: seq<V.Event>, text: string)
    requires ReadsBack(parse)
    requires var w := V.Run(V.Install(keystore), events); w.s.file.Some? && StoredAs(parse, w.s.file.value, text)
    ensures var w := V.Run(V.Install(keystore), events);
            && (F.ParseVaultFile(parse, text).Ok? <==> V.NumbersInRange(w))
            && (F.ParseVaultFile(parse, text).Ok? <==> V.ReadFile(w.s).Ok?)
  {
    V.RunKeeps(V.Install(keystore), events);
    var v := V.Run(V.Install(keystore), events).s.file.value;
    if Carried(v.meta.autoLockSeconds) {
      var f :| Written(v, f) && text == F.SerializeVaultFile(f);
      StoredFilesReadBack(parse, v, f);
    } else {
      var j, meta, time :| TimeIn(parse, text, j, meta, time) && !(time.Num? && V.TimeInRange(time.n));
      OtherTimesAreRefused(parse, text, j, meta, time);
    }
  }
}
