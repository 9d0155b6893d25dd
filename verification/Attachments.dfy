/** The attachment pipeline end to end: prepare, encrypt, chunk, manifest on the sender's side;
    check, fetch, reassemble, decrypt, check again on the receiver's. */
module Attachments {
  import opened Options
  import opened Hex
  import opened Chunks
  import opened ImageFit

  // ---------------------------------------------------------------- formats

  datatype Sniffed = IsJpeg | IsPng | IsWebp | Unknown

  function SniffImageFormat(b: Bytes): Sniffed {
    if |b| >= 3 && b[..3] == [0xFF, 0xD8, 0xFF] then IsJpeg
    else if |b| >= 8 && b[..8] == [0x89, 0x50, 0x4E, 0x47, 0x0D, 0x0A, 0x1A, 0x0A] then IsPng
    else if |b| >= 12 && b[..4] == [0x52, 0x49, 0x46, 0x46] && b[8..12] == [0x57, 0x45, 0x42, 0x50] then IsWebp
    else Unknown
  }

  /** The formats by their first bytes, whatever the order they are tried in. */
  lemma SniffedExactly(b: Bytes)
    ensures SniffImageFormat(b) == IsJpeg <==> [0xFF, 0xD8, 0xFF] <= b
    ensures SniffImageFormat(b) == IsPng <==> [0x89, 0x50, 0x4E, 0x47, 0x0D, 0x0A, 0x1A, 0x0A] <= b
    ensures SniffImageFormat(b) == IsWebp
            <==> |b| >= 12 && Spells(b[..4], "RIFF") && Spells(b[8..12], "WEBP")
  {
    var jpeg: Bytes, png: Bytes := [0xFF, 0xD8, 0xFF], [0x89, 0x50, 0x4E, 0x47, 0x0D, 0x0A, 0x1A, 0x0A];
    PrefixIs(jpeg, b);
    PrefixIs(png, b);
    assert jpeg <= b ==> b[0] == 0xFF;
    assert png <= b ==> b[0] == 0x89;
    if |b| >= 12 {
      SpelledRiff(b[..4]);
      SpelledWebp(b[8..12]);
    }
  }

  lemma PrefixIs(p: Bytes, b: Bytes)
    ensures p <= b <==> |p| <= |b| && b[..|p|] == p
  {
  }

  lemma SpelledRiff(b: Bytes)
    ensures Spells(b, "RIFF") <==> b == [0x52, 0x49, 0x46, 0x46]
  {
  }

  lemma SpelledWebp(b: Bytes)
    ensures Spells(b, "WEBP") <==> b == [0x57, 0x45, 0x42, 0x50]
  {
  }

  /** The bytes are the characters of the text. */
  predicate Spells(b: Bytes, text: string) {
    |b| == |text| && forall i :: 0 <= i < |b| ==> b[i] as int == text[i] as int
  }

  function MimeOf(f: Format): string {
    match f case Webp => "image/webp" case Jpeg => "image/jpeg"
  }

  /** The mime type of sniffed content; anything unknown is no declarable type. */
  function SniffedMime(s: Sniffed): string {
    match s case IsJpeg => "image/jpeg" case IsPng => "image/png" case IsWebp => "image/webp" case Unknown => "unknown"
  }

  lemma MimesDiffer()
    ensures "image/jpeg" != "image/png" && "image/jpeg" != "image/webp" && "image/webp" != "image/png"
    ensures "unknown" !in ["image/jpeg", "image/png", "image/webp"]
    ensures |"image/jpeg"| == 10 && |"image/webp"| == 10 && |"image/png"| == 9
  {
    assert "image/jpeg"[6] != "image/webp"[6];
    assert |"unknown"| == 7;
  }

  // ---------------------------------------------------------------- the libraries

  /** AES-256-GCM and BLAKE2b as functions. */
  datatype Crypto = Crypto(
    encrypt: (Bytes, Bytes, Bytes, Bytes) -> Bytes,           // key, nonce, plaintext, associated data
    decrypt: (Bytes, Bytes, Bytes, Bytes) -> Option<Bytes>,   // key, nonce, ciphertext, associated data
    hash: Bytes -> Bytes)

  const TAG_BYTES: nat := 16

  /** Encryption adds the tag and decryption with the same key, nonce and data undoes it. */
  ghost predicate Lawful(c: Crypto) {
    forall key, nonce, plain, aad ::
      && |c.encrypt(key, nonce, plain, aad)| == |plain| + TAG_BYTES
      && c.decrypt(key, nonce, c.encrypt(key, nonce, plain, aad), aad) == Some(plain)
  }

  /** "CEMP/ATTACHMENT/v1" */
  const AAD_PREFIX: Bytes := [67, 69, 77, 80, 47, 65, 84, 84, 65, 67, 72, 77, 69, 78, 84, 47, 118, 49]

  function AadFor(id: Bytes): Bytes {
    AAD_PREFIX + id
  }

  /** What is authenticated with a ciphertext names the protocol and the attachment. */
  lemma AadNamesTheAttachment(a: Bytes, b: Bytes)
    ensures AadFor(a) == AadFor(b) <==> a == b
    ensures Spells(AadFor(a)[..|AadFor(a)| - |a|], "CEMP/ATTACHMENT/v1")
  {
    assert AadFor(a)[|AAD_PREFIX|..] == a && AadFor(b)[|AAD_PREFIX|..] == b;
    assert AadFor(a)[..|AAD_PREFIX|] == AAD_PREFIX;
  }

  // ---------------------------------------------------------------- preparing

  datatype Prepared = Prepared(bytes: Bytes, mimeType: string, width: int, height: int, thumbnail: Bytes,
        contentHash: Bytes)

  method PrepareImage(codec: Codec, crypto: Crypto, source: Bytes, format: Format, limits: Limits)
        returns (r: Result<Prepared>)
    ensures r.Ok? <==> CanPrepare(codec, source, format, limits)
    ensures r.Ok? ==>
            PreparedOk(crypto, format, limits, r.value)
            && PreparedFrom(codec, source, format, limits, r.value)
    ensures SniffImageFormat(source) == Unknown || codec.decode(source).None? ==> r == Err(UnsupportedImage)
  {
    if SniffImageFormat(source) == Unknown {
      return Err(UnsupportedImage);
    }
    var decoded := codec.decode(source);
    if decoded.None? {
      return Err(UnsupportedImage);
    }
    var image := decoded.value;
    var compressed := CompressToLimits(codec, image, format, limits);
    if compressed != Err(InvalidDimensions) {
      LadderSucceeds(codec, image, format,
                     PlanImageFit(Dimensions(image.width, image.height), limits.preferredEdge).value,
                     limits, compressed);
    }
    if compressed.Err? {
      return Err(compressed.problem);
    }
    CompressedIsInside(codec, image, format, limits, compressed);
    var thumbFit := PlanImageFit(Dimensions(image.width, image.height), limits.thumbnailEdge);
    if thumbFit.None? {
      return Err(InvalidDimensions);
    }
    var thumbImage := codec.resize(image, thumbFit.value.width, thumbFit.value.height);
    var c := compressed.value;
    r := Ok(Prepared(c.bytes, MimeOf(format), c.dimensions.width, c.dimensions.height,
                     codec.encode(thumbImage, format, 60), crypto.hash(c.bytes)));
  }

  /** When preparation succeeds: the source is a known format and decodes to an image with pixels,
      both edge limits are positive, and one of the twenty candidates is small enough. */
  ghost predicate CanPrepare(codec: Codec, source: Bytes, format: Format, limits: Limits) {
    && SniffImageFormat(source) != Unknown && codec.decode(source).Some?
    && var image := codec.decode(source).value; var d := Dimensions(image.width, image.height);
    && image.width > 0 && image.height > 0 && limits.preferredEdge > 0 && limits.thumbnailEdge > 0
    && SomeCandidateFits(codec, image, format, PlanImageFit(d, limits.preferredEdge).value, limits)
  }

  /** What preparation promises about its result. */
  predicate PreparedOk(crypto: Crypto, format: Format, limits: Limits, p: Prepared) {
    && p.mimeType == (if format.Webp? then "image/webp" else "image/jpeg") && p.contentHash == crypto.hash(p.bytes)
    && 1 <= p.width <= limits.preferredEdge && 1 <= p.height <= limits.preferredEdge
    && (limits.preferredBytes <= limits.maxBytes ==> |p.bytes| <= limits.maxBytes)
  }

  /** Bytes and dimensions are what the ladder chose for the decoded source, the thumbnail is the
      same source at the thumbnail's fit. */
  ghost predicate PreparedFrom(codec: Codec, source: Bytes, format: Format, limits: Limits, p: Prepared) {
    && codec.decode(source).Some?
    && var image := codec.decode(source).value; var d := Dimensions(image.width, image.height);
    && PlanImageFit(d, limits.preferredEdge).Some? && PlanImageFit(d, limits.thumbnailEdge).Some?
    && (exists c :: LadderResult(codec, image, format, PlanImageFit(d, limits.preferredEdge).value, limits, Ok(c))
                    && p.bytes == c.bytes && p.width == c.dimensions.width && p.height == c.dimensions.height)
    && var t := PlanImageFit(d, limits.thumbnailEdge).value;
    && p.thumbnail == codec.encode(codec.resize(image, t.width, t.height), format, 60)
  }

  /** The footprint shown before sending. */
  function EstimatedChunkCount(p: Prepared, chunkBytes: nat): nat
    requires chunkBytes > 0
  {
    CeilDiv(|p.bytes| + TAG_BYTES, chunkBytes)
  }

  // ---------------------------------------------------------------- sending

  datatype Encrypted = Encrypted(id: Bytes, nonce: Bytes, ciphertext: Bytes, cipherHash: Bytes)

  function EncryptAttachment(c: Crypto, plain: Bytes, key: Bytes, id: Bytes, nonce: Bytes): Option<Encrypted> {
    if |key| != 32 || |id| != 16 then None
    else
      var ct := c.encrypt(key, nonce, plain, AadFor(id));
      Some(Encrypted(id, nonce, ct, c.hash(ct)))
  }

  datatype OutPoint = OutPoint(txHash: Bytes, index: nat)

  datatype Manifest = Manifest(
    id: Bytes, root: OutPoint, chunks: seq<OutPoint>, encryptedSize: nat, plaintextSize: nat, mimeType: string,
    width: int, height: int, thumbnail: Option<Bytes>, contentHash: Bytes, cipherHash: Bytes, nonce: Bytes,
    family: nat, parameter: nat, reclaimGroup: Bytes)

  /** "0x" and lower-case hex; the prefix may be missing. */
  function StrictHex(text: string): Option<Bytes> {
    var bare := if |text| >= 2 && text[..2] == "0x" then text[2..] else text;
    if IsHex(bare) then Some(FromHex(bare)) else None
  }

  /** Chunk i is output i of the chunk transaction. */
  function ChunkOutPoints(txHash: Bytes, count: nat): (o: seq<OutPoint>)
    ensures |o| == count && forall i :: 0 <= i < count ==> o[i] == OutPoint(txHash, i)
  {
    seq(count, i requires 0 <= i < count => OutPoint(txHash, i))
  }

  function BuildManifest(p: Prepared, e: Encrypted, txHash: Bytes, count: nat, reclaimGroup: Bytes): Option<Manifest> {
    if count == 0 then None
    else
      Some(Manifest(e.id, OutPoint(txHash, 0), ChunkOutPoints(txHash, count), |e.ciphertext|, |p.bytes|, p.mimeType,
                    p.width, p.height, Some(p.thumbnail), p.contentHash, e.cipherHash, e.nonce, 3, 1, reclaimGroup))
  }

  /** The manifest of committed chunks: None where the sender throws. */
  function ManifestForCommittedChunks(p: Prepared, e: Encrypted, chunks: seq<Bytes>, chunksTxHash: string,
        reclaimGroup: Bytes): Option<Manifest> {
    if chunks == [] then None
    else match StrictHex(chunksTxHash) case None => None case Some(h) => BuildManifest(p, e, h, |chunks|, reclaimGroup)
  }

  // ---------------------------------------------------------------- checking

  datatype Rejection =
    | NoChunks | PlaintextSize | EncryptedSize | ChunkCount | ZeroDimensions | EdgeLimit | ThumbnailSize
    | MimeMissing | MimeUnsupported | Algorithm | ThumbnailContent

  const THUMBNAIL_MAX: nat := 32_768

  /** The checks in the order they are made; None accepts. */
  function CheckManifest(m: Manifest, limits: Limits): Option<Rejection> {
    if m.chunks == [] then Some(NoChunks)
    else if m.plaintextSize == 0 || m.plaintextSize > limits.maxBytes then Some(PlaintextSize)
    else if m.encryptedSize == 0 || m.encryptedSize != m.plaintextSize + TAG_BYTES then Some(EncryptedSize)
    else if |m.chunks| != (m.encryptedSize + (CHUNK_BYTES - 1)) / CHUNK_BYTES then Some(ChunkCount)
    else if m.width == 0 || m.height == 0 then Some(ZeroDimensions)
    else if Max(m.width, m.height) > limits.maxEdge then Some(EdgeLimit)
    else if m.thumbnail.Some? && |m.thumbnail.value| > THUMBNAIL_MAX then Some(ThumbnailSize)
    else if m.mimeType == "" || |m.mimeType| > 64 then Some(MimeMissing)
    else if m.mimeType != "image/webp" && m.mimeType != "image/jpeg" && m.mimeType != "image/png"
      then Some(MimeUnsupported)
    else if m.family != 3 || m.parameter != 1 then Some(Algorithm)
    else if m.thumbnail.Some? && SniffedMime(SniffImageFormat(m.thumbnail.value)) != m.mimeType
      then Some(ThumbnailContent)
    else None
  }

  /** What a manifest must declare to be accepted, in any order: between 1 byte and 1 MiB of plaintext
      and a tag more of ciphertext, as many chunks as that fills, dimensions from one to 1280 pixels, a
      thumbnail of at most 32 KiB whose first bytes are of the declared type, one of three image
      types, and AES-256-GCM. */
  predicate WellDeclared(m: Manifest) {
    && 1 <= m.plaintextSize <= 1_048_576 && m.encryptedSize == m.plaintextSize + 16
    && 32_768 * (|m.chunks| - 1) < m.encryptedSize <= 32_768 * |m.chunks|
    && m.width != 0 && m.height != 0 && m.width <= 1280 && m.height <= 1280
    && m.mimeType in {"image/webp", "image/jpeg", "image/png"} && m.family == 3 && m.parameter == 1
    && (m.thumbnail.Some? ==>
          |m.thumbnail.value| <= 32_768 && SniffedMime(SniffImageFormat(m.thumbnail.value)) == m.mimeType)
  }

  lemma AcceptedExactly(m: Manifest)
    ensures CheckManifest(m, DEFAULT_LIMITS).None? <==> WellDeclared(m)
  {
    MimesDiffer();
    assert |m.chunks| == (m.encryptedSize + 32_767) / 32_768
           <==> 32_768 * (|m.chunks| - 1) < m.encryptedSize <= 32_768 * |m.chunks|;
  }

  // ---------------------------------------------------------------- downloading

  datatype DownloadError =
    | Rejected(r: Rejection) | Unavailable(i: nat) | MalformedData(i: nat) | ChunkTooBig(i: nat) | SizeMismatch
    | CipherHashMismatch | DecryptFailed | PlainSizeMismatch | ContentHashMismatch | FormatMismatch

  datatype Downloaded = Downloaded(bytes: Bytes, mimeType: string, width: int, height: int, thumbnail: Option<Bytes>)

  datatype Download = Got(d: Downloaded) | Refused(e: DownloadError)

  /** The data of live cells, as the node prints it; None for a cell that is not live. */
  type Chain = OutPoint -> Option<string>

  /** Chunk i as the receiver takes it. */
  function FetchChunk(chain: Chain, o: OutPoint): Option<Bytes> {
    match chain(o)
    case None => None
    case Some(text) =>
      match StrictHex(text)
      case None => None
      case Some(b) => if |b| > CHUNK_BYTES then None else Some(b)
  }

  /** Checks on the reassembled ciphertext and on what it decrypts to. */
  function Opened(c: Crypto, m: Manifest, key: Bytes, ciphertext: Bytes): Download {
    if |ciphertext| != m.encryptedSize then Refused(SizeMismatch)
    else if c.hash(ciphertext) != m.cipherHash then Refused(CipherHashMismatch)
    else if |m.nonce| != 12 then Refused(DecryptFailed)
    else
      match c.decrypt(key, m.nonce, ciphertext, AadFor(m.id))
      case None => Refused(DecryptFailed)
      case Some(plain) =>
        if |plain| != m.plaintextSize then Refused(PlainSizeMismatch)
        else if c.hash(plain) != m.contentHash then Refused(ContentHashMismatch)
        else if SniffedMime(SniffImageFormat(plain)) != m.mimeType then Refused(FormatMismatch)
        else Got(Downloaded(plain, m.mimeType, m.width, m.height, m.thumbnail))
  }

  method DownloadAttachment(c: Crypto, chain: Chain, m: Manifest, key: Bytes) returns (r: Download)
    ensures r.Got? <==> Fetchable(chain, m) && Opened(c, m, key, Join(Fetched(chain, m))).Got?
    ensures r.Got? ==> r == Opened(c, m, key, Join(Fetched(chain, m)))
    ensures CheckManifest(m, DEFAULT_LIMITS).Some? ==> r == Refused(Rejected(CheckManifest(m, DEFAULT_LIMITS).value))
    ensures r.Refused? && (r.e.Unavailable? || r.e.MalformedData? || r.e.ChunkTooBig?)
            ==> FailsFirst(chain, m, r.e.i) && r.e == ChunkFailure(chain, m, r.e.i)
    ensures Fetchable(chain, m) ==> r == Opened(c, m, key, Join(Fetched(chain, m)))
  {
    var check := CheckManifest(m, DEFAULT_LIMITS);
    if check.Some? {
      return Refused(Rejected(check.value));
    }
    var chunks: seq<Bytes> := [];
    var i := 0;
    while i < |m.chunks|
      invariant 0 <= i <= |m.chunks| && |chunks| == i
      invariant forall k :: 0 <= k < i ==> FetchChunk(chain, m.chunks[k]) == Some(chunks[k])
    {
      var status := chain(m.chunks[i]);
      if status.None? {
        return Refused(Unavailable(i));
      }
      var data := StrictHex(status.value);
      if data.None? {
        return Refused(MalformedData(i));
      }
      if |data.value| > CHUNK_BYTES {
        return Refused(ChunkTooBig(i));
      }
      chunks := chunks + [data.value];
      i := i + 1;
    }
    assert chunks == Fetched(chain, m);
    var ciphertext := JoinChunks(chunks);
    r := Opened(c, m, key, ciphertext[..]);
  }

  /** The first chunk that cannot be taken, and what is wrong with it. */
  predicate FailsFirst(chain: Chain, m: Manifest, i: nat) {
    && CheckManifest(m, DEFAULT_LIMITS).None? && i < |m.chunks| && FetchChunk(chain, m.chunks[i]).None?
    && forall k :: 0 <= k < i ==> FetchChunk(chain, m.chunks[k]).Some?
  }

  function ChunkFailure(chain: Chain, m: Manifest, i: nat): DownloadError
    requires i < |m.chunks|
  {
    match chain(m.chunks[i])
    case None => Unavailable(i)
    case Some(text) => if StrictHex(text).None? then MalformedData(i) else ChunkTooBig(i)
  }

  predicate Fetchable(chain: Chain, m: Manifest) {
    CheckManifest(m, DEFAULT_LIMITS).None? && forall k :: 0 <= k < |m.chunks| ==> FetchChunk(chain, m.chunks[k]).Some?
  }

  function Fetched(chain: Chain, m: Manifest): (chunks: seq<Bytes>) {
    seq(|m.chunks|, k requires 0 <= k < |m.chunks| =>
      match FetchChunk(chain, m.chunks[k]) case Some(b) => b case None => [])
  }

  // ---------------------------------------------------------------- results

  /** A download gives exactly bytes that the ciphertext decrypts to under the attachment's name, where
      sizes, both hashes and the first bytes are the declared ones; the rest is the manifest's. */
  lemma OpenedExactly(c: Crypto, m: Manifest, key: Bytes, ciphertext: Bytes, d: Downloaded)
    ensures Opened(c, m, key, ciphertext) == Got(d)
            <==> |ciphertext| == m.encryptedSize && c.hash(ciphertext) == m.cipherHash && |m.nonce| == 12
                 && c.decrypt(key, m.nonce, ciphertext, AadFor(m.id)) == Some(d.bytes)
                 && |d.bytes| == m.plaintextSize && c.hash(d.bytes) == m.contentHash
                 && SniffedMime(SniffImageFormat(d.bytes)) == m.mimeType
                 && d == Downloaded(d.bytes, m.mimeType, m.width, m.height, m.thumbnail)
  {
  }

  /** The three chunk counts agree: the estimate before sending, the chunks that are cut, and the
      count the receiver demands. */
  lemma ChunkCountsAgree(c: Crypto, p: Prepared, key: Bytes, id: Bytes, nonce: Bytes)
    requires Lawful(c) && EncryptAttachment(c, p.bytes, key, id, nonce).Some?
    ensures var e := EncryptAttachment(c, p.bytes, key, id, nonce).value;
            && |Split(e.ciphertext, CHUNK_BYTES)| == EstimatedChunkCount(p, CHUNK_BYTES)
            && |Split(e.ciphertext, CHUNK_BYTES)| == (|e.ciphertext| + (CHUNK_BYTES - 1)) / CHUNK_BYTES
            && |Split(e.ciphertext, CHUNK_BYTES)| >= 1
  {
    var e := EncryptAttachment(c, p.bytes, key, id, nonce).value;
    SplitJoin(e.ciphertext, CHUNK_BYTES);
    assert |e.ciphertext| == |p.bytes| + TAG_BYTES;
  }

  /** An image within the protocol maximum takes at most 33 chunks, and more than 32 exactly in its
      last 16 sizes, where the tag no longer fits. */
  lemma AtMost33Chunks(p: Prepared)
    requires |p.bytes| <= DEFAULT_LIMITS.maxBytes
    ensures EstimatedChunkCount(p, CHUNK_BYTES) <= 33
    ensures EstimatedChunkCount(p, CHUNK_BYTES) == 33 <==> |p.bytes| > 1_048_560
  {
  }

  /** What the sender's image must satisfy for the receiver to accept it: exactly these conditions
      decide whether the manifest passes. */
  predicate Acceptable(p: Prepared) {
    && 0 < |p.bytes| <= DEFAULT_LIMITS.maxBytes
    && p.width <= DEFAULT_LIMITS.maxEdge && p.height <= DEFAULT_LIMITS.maxEdge
    && |p.thumbnail| <= THUMBNAIL_MAX && SniffedMime(SniffImageFormat(p.thumbnail)) == p.mimeType
  }

  lemma BuiltManifestPasses(c: Crypto, format: Format, limits: Limits, p: Prepared, key: Bytes, id: Bytes,
        nonce: Bytes, txHash: Bytes, group: Bytes)
    requires Lawful(c) && PreparedOk(c, format, limits, p) && |key| == 32 && |id| == 16
    ensures var e := EncryptAttachment(c, p.bytes, key, id, nonce).value;
            var m := BuildManifest(p, e, txHash, |Split(e.ciphertext, CHUNK_BYTES)|, group);
            m.Some? && (CheckManifest(m.value, DEFAULT_LIMITS).None? <==> Acceptable(p))
  {
    ChunkCountsAgree(c, p, key, id, nonce);
    MimesDiffer();
  }

  /** The chunk cells of a committed chunk transaction, while they are live. */
  ghost predicate Holds(chain: Chain, txHash: Bytes, chunks: seq<Bytes>) {
    forall i :: 0 <= i < |chunks| ==> chain(OutPoint(txHash, i)) == Some("0x" + ToHex(chunks[i]))
  }

  lemma StrictHexReadsBack(b: Bytes)
    ensures StrictHex("0x" + ToHex(b)) == Some(b)
  {
    HexRoundTrip(b);
    var text := "0x" + ToHex(b);
    assert text[..2] == "0x" && text[2..] == ToHex(b);
  }

  /** The receiver fetches exactly the chunks that were cut. */
  lemma FetchesTheChunks(chain: Chain, m: Manifest, txHash: Bytes, chunks: seq<Bytes>, ciphertext: Bytes)
    requires m.chunks == ChunkOutPoints(txHash, |chunks|) && Holds(chain, txHash, chunks)
    requires chunks == Split(ciphertext, CHUNK_BYTES) && CheckManifest(m, DEFAULT_LIMITS).None?
    ensures Fetchable(chain, m) && Join(Fetched(chain, m)) == ciphertext
  {
    SplitJoin(ciphertext, CHUNK_BYTES);
    forall k | 0 <= k < |m.chunks| ensures FetchChunk(chain, m.chunks[k]) == Some(chunks[k]) {
      StrictHexReadsBack(chunks[k]);
    }
    assert Fetched(chain, m) == chunks;
  }

  lemma OpensToTheImage(c: Crypto, format: Format, p: Prepared, key: Bytes, id: Bytes, nonce: Bytes, m: Manifest)
    requires Lawful(c) && PreparedOk(c, format, DEFAULT_LIMITS, p) && |key| == 32 && |id| == 16 && |nonce| == 12
    requires SniffedMime(SniffImageFormat(p.bytes)) == p.mimeType
    requires m.id == id && m.nonce == nonce && m.plaintextSize == |p.bytes| && m.contentHash == p.contentHash
    requires m.mimeType == p.mimeType && m.width == p.width && m.height == p.height && m.thumbnail == Some(p.thumbnail)
    requires var e := EncryptAttachment(c, p.bytes, key, id, nonce).value;
             m.encryptedSize == |e.ciphertext| && m.cipherHash == e.cipherHash
    ensures Opened(c, m, key, EncryptAttachment(c, p.bytes, key, id, nonce).value.ciphertext)
            == Got(Downloaded(p.bytes, p.mimeType, p.width, p.height, Some(p.thumbnail)))
  {
  }

  /** End to end: an image prepared under the default limits whose bytes and thumbnail are what the
      format says, encrypted, cut and committed, passes the receiver's checks and downloads to exactly
      the prepared bytes, with the dimensions inside the protocol's edge limit. */
  lemma EndToEnd(c: Crypto, format: Format, p: Prepared, key: Bytes, id: Bytes, nonce: Bytes, txHash: Bytes,
        group: Bytes, chain: Chain)
    requires Lawful(c) && PreparedOk(c, format, DEFAULT_LIMITS, p) && |key| == 32 && |id| == 16 && |nonce| == 12
    requires p.bytes != [] && SniffedMime(SniffImageFormat(p.bytes)) == p.mimeType
    requires |p.thumbnail| <= THUMBNAIL_MAX && SniffedMime(SniffImageFormat(p.thumbnail)) == p.mimeType
    requires Holds(chain, txHash, Split(EncryptAttachment(c, p.bytes, key, id, nonce).value.ciphertext, CHUNK_BYTES))
    ensures var e := EncryptAttachment(c, p.bytes, key, id, nonce).value;
            var chunks := Split(e.ciphertext, CHUNK_BYTES);
            var m := ManifestForCommittedChunks(p, e, chunks, "0x" + ToHex(txHash), group);
            && m.Some? && CheckManifest(m.value, DEFAULT_LIMITS).None? && Fetchable(chain, m.value)
            && m.value.root == m.value.chunks[0] == OutPoint(txHash, 0) && m.value.reclaimGroup == group
            && Opened(c, m.value, key, Join(Fetched(chain, m.value)))
               == Got(Downloaded(p.bytes, p.mimeType, p.width, p.height, Some(p.thumbnail)))
            && 1 <= p.width <= DEFAULT_LIMITS.maxEdge && 1 <= p.height <= DEFAULT_LIMITS.maxEdge
  {
    var e := EncryptAttachment(c, p.bytes, key, id, nonce).value;
    var chunks := Split(e.ciphertext, CHUNK_BYTES);
    StrictHexReadsBack(txHash);
    BuiltManifestPasses(c, format, DEFAULT_LIMITS, p, key, id, nonce, txHash, group);
    ChunkCountsAgree(c, p, key, id, nonce);
    var m := BuildManifest(p, e, txHash, |chunks|, group).value;
    FetchesTheChunks(chain, m, txHash, chunks, e.ciphertext);
    OpensToTheImage(c, format, p, key, id, nonce, m);
  }

  /** No two byte strings have the same hash. */
  ghost predicate CollisionFree(c: Crypto) {
    forall a, b :: c.hash(a) == c.hash(b) ==> a == b
  }

  /** Whatever a hostile chain serves under a genuine manifest: a download that succeeds gives the
      sender's own bytes. */
  lemma HostileChainsCannotSubstitute(c: Crypto, chain: Chain, m: Manifest, key: Bytes, original: Bytes)
    requires CollisionFree(c) && m.contentHash == c.hash(original)
    requires Fetchable(chain, m) && Opened(c, m, key, Join(Fetched(chain, m))).Got?
    ensures Opened(c, m, key, Join(Fetched(chain, m))).d.bytes == original
    ensures SniffedMime(SniffImageFormat(original)) == m.mimeType && 0 < |original| <= DEFAULT_LIMITS.maxBytes
  {
  }

  lemma {:induction false} FetchedIsBounded(chain: Chain, o: seq<OutPoint>, chunks: seq<Bytes>)
    requires |o| == |chunks| && forall i :: 0 <= i < |o| ==> FetchChunk(chain, o[i]) == Some(chunks[i])
    ensures |Join(chunks)| <= |chunks| * CHUNK_BYTES
    decreases |chunks|
  {
    if chunks != [] {
      assert FetchChunk(chain, o[0]) == Some(chunks[0]);
      FetchedIsBounded(chain, o[1..], chunks[1..]);
    }
  }

  /** Whatever manifest and whatever chain: once the manifest passes, at most 33 chunks are asked for
      and what is assembled from them, before any hash is checked, stays below 1,081,345 bytes. */
  lemma AssemblyIsBounded(chain: Chain, m: Manifest)
    requires Fetchable(chain, m)
    ensures |m.chunks| <= 33 && |Join(Fetched(chain, m))| <= |m.chunks| * CHUNK_BYTES <= 1_081_344
  {
    forall k | 0 <= k < |m.chunks| ensures FetchChunk(chain, m.chunks[k]) == Some(Fetched(chain, m)[k]) {
      assert FetchChunk(chain, m.chunks[k]).Some?;
    }
    FetchedIsBounded(chain, m.chunks, Fetched(chain, m));
  }
}
