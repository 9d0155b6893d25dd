/** The multi-slot vault as a state machine over its stored file. Encryption, key derivation and
    the platform keystore are ideal: a sealed value opens only under the key, nonce and associated
    data it was sealed with, a key derivation has no collisions, a keystore blob opens only while
    the key that wrapped it exists. Calls do not overlap; random values are inputs, any values. */
module Vault {
  import opened Options
  import opened Kdf

  // ---------------------------------------------------------------- ideal cryptography

  datatype Entropy = Entropy(wordCount: nat, id: nat)

  predicate IsVaultCount(n: nat) {
    n == 12 || n == 24
  }

  /** What creation draws: entropy of twelve or twenty-four words. */
  type FreshEntropy = e: Entropy | IsVaultCount(e.wordCount) witness Entropy(12, 0)

  /** The BIP39 seed of an entropy and a passphrase. */
  datatype Seed = Seed(entropy: Entropy, passphrase: Option<string>)

  datatype KdfParams = KdfParams(cost: Cost, salt: nat)

  datatype Key = Kek(password: string, kdf: KdfParams) | Vek(id: nat) | DatabaseKey(seed: Seed)

  datatype Plaintext = WrappedKey(key: Key) | Secret(entropy: Entropy, seed: Seed, hasPassphrase: bool)

  datatype AssociatedData =
    | PasswordWrap
    | Header(kdf: KdfParams, passwordSlot: WrapSlot, biometricSlot: Option<Blob>)

  datatype Sealed = Sealed(key: Key, nonce: nat, plaintext: Plaintext, aad: AssociatedData)

  function Open(key: Key, nonce: nat, s: Sealed, aad: AssociatedData): Option<Plaintext> {
    if s.key == key && s.nonce == nonce && s.aad == aad then Some(s.plaintext) else None
  }

  datatype WrapSlot = WrapSlot(nonce: nat, wrappedVek: Sealed)

  /** A platform keystore blob: which keystore key made it, and how many bytes it takes. */
  datatype Blob = Blob(maker: nat, key: Key, length: nat)

  // ---------------------------------------------------------------- the stored file

  datatype Meta = Meta(wordCount: nat, hasPassphrase: bool, autoLockSeconds: int)

  datatype File = File(kdf: KdfParams, passwordSlot: WrapSlot, biometricSlot: Option<Blob>,
                       payloadNonce: nat, payload: Sealed, meta: Meta)

  function HeaderOf(f: File): AssociatedData {
    Header(f.kdf, f.passwordSlot, f.biometricSlot)
  }

  predicate TimeInRange(seconds: int) {
    1 <= seconds <= 2_147_483
  }

  predicate BlobInRange(length: nat) {
    16 <= length <= 512
  }

  /** What the parser accepts of the files this vault writes: everything else about them is fixed
      (VaultStorage.StoredFilesReadBack). */
  predicate Readable(f: File) {
    && TimeInRange(f.meta.autoLockSeconds)
    && (f.biometricSlot.Some? ==> BlobInRange(f.biometricSlot.value.length))
  }

  const DEFAULT_AUTO_LOCK_SECONDS: int := 300
  const MAX_AUTO_LOCK_SECONDS: int := 3600

  function ClampAutoLock(seconds: int): int {
    if seconds <= MAX_AUTO_LOCK_SECONDS then seconds else MAX_AUTO_LOCK_SECONDS
  }

  datatype Status = Uninitialized | Locked | Unlocked

  datatype Error =
    | AlreadyInitialized | NotInitialized | InvalidMnemonic | KdfParamsOutOfRange | WrongPassword
    | CorruptVault | BiometricUnavailable | BiometricDenied | KeystoreError | IsLocked | Interrupted

  datatype Outcome<+T> = Ok(value: T) | Err(error: Error)

  datatype Unit = Done

  /** Storage and keystore outlive the process; status, keys and auto-lock do not. `keystore` is the
      generation of the wrapping key, if there is one. */
  datatype State = State(file: Option<File>, databaseKey: Option<Blob>, keystore: Option<nat>,
                         status: Status, vek: Option<Key>, seed: Option<Seed>, autoLockSeconds: int)

  function ReadFile(s: State): Outcome<File> {
    match s.file
    case None => Err(NotInitialized)
    case Some(f) => if Readable(f) then Ok(f) else Err(CorruptVault)
  }

  /** The payload of a file under a VEK, as the decoder accepts it. */
  function OpenPayload(f: File, vek: Key, code: Error): Outcome<Plaintext> {
    match Open(vek, f.payloadNonce, f.payload, HeaderOf(f))
    case Some(p) => Ok(p)
    case None => Err(code)
  }

  function UnwrapWithPassword(f: File, password: string): Outcome<Key> {
    match Open(Kek(password, f.kdf), f.passwordSlot.nonce, f.passwordSlot.wrappedVek, PasswordWrap)
    case Some(WrappedKey(vek)) => Ok(vek)
    case _ => Err(WrongPassword)
  }

  function WrapWithPassword(password: string, kdf: KdfParams, nonce: nat, vek: Key): WrapSlot {
    WrapSlot(nonce, Sealed(Kek(password, kdf), nonce, WrappedKey(vek), PasswordWrap))
  }

  function Cleared(s: State): State {
    s.(vek := None, seed := None)
  }

  function SetUnlocked(s: State, vek: Key, seed: Seed, seconds: int): State {
    s.(vek := Some(vek), seed := Some(seed), autoLockSeconds := seconds, status := Unlocked)
  }

  // ---------------------------------------------------------------- creation

  /** How creation can be cut short: the key derivation, the keystore, either storage write. */
  datatype Faults = Faults(derive: bool, wrap: bool, writeFile: bool, writeKey: bool)

  datatype Creation = Creation(password: string, cost: Option<CostOptions>, autoLockSeconds: Option<int>,
                               salt: nat, vek: nat, slotNonce: nat, payloadNonce: nat, blobLength: nat, faults: Faults)

  function TimeOf(c: Creation): int {
    match c.autoLockSeconds case Some(n) => n case None => DEFAULT_AUTO_LOCK_SECONDS
  }

  function NewFile(secret: Plaintext, c: Creation): File
    requires secret.Secret?
  {
    var kdf := KdfParams(Resolve(c.cost), c.salt);
    var slot := WrapWithPassword(c.password, kdf, c.slotNonce, Vek(c.vek));
    File(kdf, slot, None, c.payloadNonce, Sealed(Vek(c.vek), c.payloadNonce, secret, Header(kdf, slot, None)),
         Meta(secret.entropy.wordCount, secret.hasPassphrase, TimeOf(c)))
  }

  /** Creation proper. The database key is wrapped before anything is written; a failure between
      the two writes leaves the file behind and the vault object as it was. */
  function Build(s: State, secret: Plaintext, c: Creation): (State, Outcome<Unit>)
    requires secret.Secret?
  {
    if !ValidCost(Resolve(c.cost)) then (s, Err(KdfParamsOutOfRange))
    else if c.faults.derive then (s, Err(Interrupted))
    else if c.faults.wrap || s.keystore.None? then (s, Err(KeystoreError))
    else if c.faults.writeFile then (s, Err(Interrupted))
    else
      var file := NewFile(secret, c);
      var written := s.(file := Some(file));
      if c.faults.writeKey then (written, Err(Interrupted))
      else
        var blob := Blob(s.keystore.value, DatabaseKey(secret.seed), c.blobLength);
        (SetUnlocked(written.(databaseKey := Some(blob)), Vek(c.vek), secret.seed, file.meta.autoLockSeconds), Ok(Done))
  }

  function CanInitialize(s: State): bool {
    s.file.None? && s.status == Uninitialized
  }

  function AfterCreate(s: State, entropy: FreshEntropy, c: Creation): (State, Outcome<Unit>) {
    if !CanInitialize(s) then (s, Err(AlreadyInitialized))
    else Build(s, Secret(entropy, Seed(entropy, None), false), c)
  }

  /** `phrase` is None when the checksum or a word is wrong; an empty passphrase is no passphrase. */
  function AfterImport(s: State, phrase: Option<Entropy>, passphrase: Option<string>, c: Creation): (State,
        Outcome<Unit>) {
    if !CanInitialize(s) then (s, Err(AlreadyInitialized))
    else if phrase.None? || !IsVaultCount(phrase.value.wordCount) then (s, Err(InvalidMnemonic))
    else
      var normalized := if passphrase == Some("") then None else passphrase;
      Build(s, Secret(phrase.value, Seed(phrase.value, normalized), normalized.Some?), c)
  }

  // ---------------------------------------------------------------- unlocking

  function Admit(s: State, f: File, vek: Key, code: Error): (State, Outcome<Unit>) {
    match OpenPayload(f, vek, code)
    case Ok(Secret(_, seed, _)) => (SetUnlocked(s, vek, seed, ClampAutoLock(f.meta.autoLockSeconds)), Ok(Done))
    case Ok(_) => (s, Err(CorruptVault))
    case Err(e) => (s, Err(e))
  }

  function AfterUnlock(s: State, password: string, deriveFails: bool): (State, Outcome<Unit>) {
    match ReadFile(s)
    case Err(e) => (s, Err(e))
    case Ok(f) =>
      if deriveFails then (s, Err(Interrupted))
      else
        match UnwrapWithPassword(f, password)
        case Err(e) => (s, Err(e))
        case Ok(vek) => Admit(s, f, vek, WrongPassword)
  }

  function Unwrap(s: State, blob: Blob): Option<Key> {
    if s.keystore == Some(blob.maker) then Some(blob.key) else None
  }

  function AfterBiometricUnlock(s: State, accepted: bool): (State, Outcome<Unit>) {
    match ReadFile(s)
    case Err(e) => (s, Err(e))
    case Ok(f) =>
      if f.biometricSlot.None? then (s, Err(BiometricUnavailable))
      else
        match if accepted then Unwrap(s, f.biometricSlot.value) else None
        case None => (s, Err(BiometricDenied))
        case Some(vek) => if vek.Vek? then Admit(s, f, vek, CorruptVault) else (s, Err(CorruptVault))
  }

  function AfterLock(s: State): State {
    var t := Cleared(s);
    if t.status == Unlocked then t.(status := Locked) else t
  }

  /** The password-gated reveal: the phrase stands for its entropy. */
  function Reveal(s: State, password: string, deriveFails: bool): Outcome<Entropy> {
    match ReadFile(s)
    case Err(e) => Err(e)
    case Ok(f) =>
      if deriveFails then Err(Interrupted)
      else
        match UnwrapWithPassword(f, password)
        case Err(e) => Err(e)
        case Ok(vek) =>
          match OpenPayload(f, vek, WrongPassword)
          case Ok(Secret(entropy, _, _)) => Ok(entropy)
          case Ok(_) => Err(CorruptVault)
          case Err(e) => Err(e)
  }

  // ---------------------------------------------------------------- rewriting

  /** Random values and faults of one rewrite. */
  datatype Rewrite = Rewrite(salt: nat, slotNonce: nat, payloadNonce: nat, deriveOldFails: bool,
        deriveNewFails: bool, writeFails: bool)

  /** The payload again, under the same VEK and a new header. */
  function Resealed(f: File, kdf: KdfParams, slot: WrapSlot, bio: Option<Blob>, nonce: nat, vek: Key,
        p: Plaintext): File {
    f.(kdf := kdf, passwordSlot := slot, biometricSlot := bio, payloadNonce := nonce,
       payload := Sealed(vek, nonce, p, Header(kdf, slot, bio)))
  }

  function Stored(s: State, f: File, writeFails: bool): (State, Outcome<Unit>) {
    if writeFails then (s, Err(Interrupted)) else (s.(file := Some(f)), Ok(Done))
  }

  function AfterChangePassword(s: State, oldPassword: string, newPassword: string, r: Rewrite): (State, Outcome<Unit>) {
    match ReadFile(s)
    case Err(e) => (s, Err(e))
    case Ok(f) =>
      if r.deriveOldFails then (s, Err(Interrupted))
      else
        match UnwrapWithPassword(f, oldPassword)
        case Err(e) => (s, Err(e))
        case Ok(vek) =>
          if r.deriveNewFails then (s, Err(Interrupted))
          else
            match OpenPayload(f, vek, WrongPassword)
            case Err(e) => (s, Err(e))
            case Ok(p) =>
              var kdf := f.kdf.(salt := r.salt);
              var slot := WrapWithPassword(newPassword, kdf, r.slotNonce, vek);
              Stored(s, Resealed(f, kdf, slot, f.biometricSlot, r.payloadNonce, vek, p), r.writeFails)
  }

  function AssertUnlocked(s: State): Outcome<Unit> {
    match s.status
    case Uninitialized => Err(NotInitialized)
    case Locked => Err(IsLocked)
    case Unlocked => Ok(Done)
  }

  /** The database key, derived from the live seed; there is none when a failed wipe has left the vault
      unlocked without one. */
  function GetDatabaseKey(s: State): Outcome<Key> {
    if AssertUnlocked(s).Err? then Err(AssertUnlocked(s).error)
    else match s.seed case None => Err(Interrupted) case Some(seed) => Ok(DatabaseKey(seed))
  }

  /** The database key again, from the stored blob. */
  function UnwrapDatabaseKey(s: State): Outcome<Key> {
    if AssertUnlocked(s).Err? then Err(AssertUnlocked(s).error)
    else
      match s.databaseKey
      case None => Err(KeystoreError)
      case Some(blob) => match Unwrap(s, blob) case None => Err(KeystoreError) case Some(key) => Ok(key)
  }

  /** With the live VEK: None when a failed wipe has left the vault unlocked without one. */
  function RewriteSlots(s: State, f: File, bio: Option<Blob>, r: Rewrite): (State, Outcome<Unit>) {
    match s.vek
    case None => (s, Err(CorruptVault))
    case Some(vek) =>
      match OpenPayload(f, vek, CorruptVault)
      case Err(e) => (s, Err(e))
      case Ok(p) => Stored(s, Resealed(f, f.kdf, f.passwordSlot, bio, r.payloadNonce, vek, p), r.writeFails)
  }

  function AfterEnableBiometrics(s: State, available: bool, wrapFails: bool, blobLength: nat, r: Rewrite): (State,
        Outcome<Unit>) {
    if AssertUnlocked(s).Err? then (s, AssertUnlocked(s))
    else if !available then (s, Err(BiometricUnavailable))
    else
      match ReadFile(s)
      case Err(e) => (s, Err(e))
      case Ok(f) =>
        if f.biometricSlot.Some? then (s, Ok(Done))
        else if wrapFails || s.keystore.None? || s.vek.None? then (s, Err(KeystoreError))
        else RewriteSlots(s, f, Some(Blob(s.keystore.value, s.vek.value, blobLength)), r)
  }

  function AfterDisableBiometrics(s: State, r: Rewrite): (State, Outcome<Unit>) {
    if AssertUnlocked(s).Err? then (s, AssertUnlocked(s))
    else
      match ReadFile(s)
      case Err(e) => (s, Err(e))
      case Ok(f) => if f.biometricSlot.None? then (s, Ok(Done)) else RewriteSlots(s, f, None, r)
  }

  /** Which of the three deletions throws first, if any. */
  datatype WipeFault = NoFault | FileDeleteFails | KeyDeleteFails | KeystoreDeleteFails

  function AfterWipe(s: State, fault: WipeFault): (State, Outcome<Unit>) {
    var cleared := Cleared(s);
    match fault
    case FileDeleteFails => (cleared, Err(Interrupted))
    case KeyDeleteFails => (cleared.(file := None), Err(Interrupted))
    case KeystoreDeleteFails => (cleared.(file := None, databaseKey := None), Err(KeystoreError))
    case NoFault => (cleared.(file := None, databaseKey := None, keystore := None, status := Uninitialized), Ok(Done))
  }

  /** A new process over the same storage. */
  function Reopened(s: State): State {
    s.(status := if s.file.None? then Uninitialized else Locked, vek := None, seed := None,
       autoLockSeconds := DEFAULT_AUTO_LOCK_SECONDS)
  }

  // ---------------------------------------------------------------- runs

  datatype Event =
    | Create(entropy: FreshEntropy, c: Creation)
    | Import(phrase: Option<Entropy>, passphrase: Option<string>, c: Creation)
    | UnlockWith(password: string, deriveFails: bool)
    | UnlockBiometric(accepted: bool)
    | LockNow
    | ChangePassword(oldPassword: string, newPassword: string, r: Rewrite)
    | EnableBiometrics(available: bool, wrapFails: bool, blobLength: nat, r: Rewrite)
    | DisableBiometrics(r: Rewrite)
    | Wipe(fault: WipeFault)
    | Reopen
    | KeystoreChanges(keystore: Option<nat>)

  function Step(s: State, e: Event): (State, Outcome<Unit>) {
    match e
    case Create(entropy, c) => AfterCreate(s, entropy, c)
    case Import(phrase, passphrase, c) => AfterImport(s, phrase, passphrase, c)
    case UnlockWith(password, deriveFails) => AfterUnlock(s, password, deriveFails)
    case UnlockBiometric(accepted) => AfterBiometricUnlock(s, accepted)
    case LockNow => (AfterLock(s), Ok(Done))
    case ChangePassword(oldPassword, newPassword, r) => AfterChangePassword(s, oldPassword, newPassword, r)
    case EnableBiometrics(available, wrapFails, n, r) => AfterEnableBiometrics(s, available, wrapFails, n, r)
    case DisableBiometrics(r) => AfterDisableBiometrics(s, r)
    case Wipe(fault) => AfterWipe(s, fault)
    case Reopen => (Reopened(s), Ok(Done))
    case KeystoreChanges(k) => (s.(keystore := k), Ok(Done))
  }

  /** The vault together with what its owner knows: the password last set, the secret the vault was
      created from and the auto-lock time it was created with, and how long the keystore's answer
      to the enrolment in force was. */
  datatype World = World(s: State, password: string, secret: Plaintext, autoLock: int, enrolled: Option<nat>)

  function SecretOf(e: Event): Plaintext
    requires e.Create? || (e.Import? && e.phrase.Some?)
  {
    if e.Create? then Secret(e.entropy, Seed(e.entropy, None), false)
    else
      var p := if e.passphrase == Some("") then None else e.passphrase;
      Secret(e.phrase.value, Seed(e.phrase.value, p), p.Some?)
  }

  function Next(w: World, e: Event): World {
    var (t, outcome) := Step(w.s, e);
    if w.s.file.None? && t.file.Some? && (e.Create? || (e.Import? && e.phrase.Some?))
    then World(t, e.c.password, SecretOf(e), TimeOf(e.c), None)
    else if e.ChangePassword? && outcome.Ok? then w.(s := t, password := e.newPassword)
    else if e.EnableBiometrics? && outcome.Ok? && w.enrolled.None? then w.(s := t, enrolled := Some(e.blobLength))
    else if e.DisableBiometrics? && outcome.Ok? then w.(s := t, enrolled := None)
    else w.(s := t)
  }

  function Run(w: World, events: seq<Event>): World
    decreases |events|
  {
    if events == [] then w else Run(Next(w, events[0]), events[1..])
  }

  /** A fresh install over a keystore that has a key, or none. */
  function Install(keystore: Option<nat>): World {
    World(State(None, None, keystore, Uninitialized, None, None, DEFAULT_AUTO_LOCK_SECONDS), "",
          Secret(Entropy(12, 0), Seed(Entropy(12, 0), None), false), DEFAULT_AUTO_LOCK_SECONDS, None)
  }

  function VekOf(f: File): Option<Key> {
    match f.passwordSlot.wrappedVek.plaintext case WrappedKey(k) => Some(k) case _ => None
  }

  /** The file hangs together: the password slot wraps the VEK under the password, the payload is
      sealed under that VEK with the file's own header as associated data, and a biometric slot
      wraps the same VEK. */
  predicate Coherent(f: File, password: string, secret: Plaintext) {
    && VekOf(f).Some? && VekOf(f).value.Vek? && secret.Secret?
    && f.passwordSlot == WrapWithPassword(password, f.kdf, f.passwordSlot.nonce, VekOf(f).value)
    && f.payload == Sealed(VekOf(f).value, f.payloadNonce, secret, HeaderOf(f))
    && (f.biometricSlot.Some? ==> f.biometricSlot.value.key == VekOf(f).value)
    && ValidCost(f.kdf.cost) && IsVaultCount(f.meta.wordCount)
  }

  /** The file still says what its owner asked for. */
  predicate Recorded(w: World) {
    w.s.file.Some? ==>
      var f := w.s.file.value;
      && f.meta.autoLockSeconds == w.autoLock
      && (f.biometricSlot.Some? <==> w.enrolled.Some?)
      && (f.biometricSlot.Some? ==> f.biometricSlot.value.length == w.enrolled.value)
  }

  /** Both numbers the vault stores unchecked are in the range its parser accepts. */
  predicate NumbersInRange(w: World) {
    TimeInRange(w.autoLock) && (w.enrolled.Some? ==> BlobInRange(w.enrolled.value))
  }

  predicate Inv(w: World) {
    && (w.s.file.Some? ==> Coherent(w.s.file.value, w.password, w.secret))
    && w.secret.Secret? && Recorded(w)
    && (w.s.vek.Some? ==> w.s.file.Some? && w.s.vek == VekOf(w.s.file.value) && w.s.status == Unlocked)
    && w.s.seed == (if w.s.vek.Some? then Some(w.secret.seed) else None)
  }

  // ---------------------------------------------------------------- every call keeps it

  lemma CreateKeeps(w: World, e: Event)
    requires Inv(w) && e.Create?
    ensures Inv(Next(w, e))
  {
  }

  lemma ImportKeeps(w: World, e: Event)
    requires Inv(w) && e.Import?
    ensures Inv(Next(w, e))
  {
  }

  lemma BuildKeeps(w: World, e: Event)
    requires Inv(w) && (e.Create? || e.Import?)
    ensures Inv(Next(w, e))
  {
    if e.Create? { CreateKeeps(w, e); } else { ImportKeeps(w, e); }
  }

  lemma UnlockKeeps(w: World, e: Event)
    requires Inv(w) && (e.UnlockWith? || e.UnlockBiometric?)
    ensures Inv(Next(w, e)) && Next(w, e).s.file == w.s.file
  {
  }

  lemma ChangeKeeps(w: World, e: Event)
    requires Inv(w) && e.ChangePassword?
    ensures Inv(Next(w, e))
  {
  }

  lemma BiometricsKeep(w: World, e: Event)
    requires Inv(w) && (e.EnableBiometrics? || e.DisableBiometrics?)
    ensures Inv(Next(w, e))
  {
  }

  lemma OthersKeep(w: World, e: Event)
    requires Inv(w) && (e.LockNow? || e.Wipe? || e.Reopen? || e.KeystoreChanges?)
    ensures Inv(Next(w, e))
  {
  }

  lemma NextKeeps(w: World, e: Event)
    requires Inv(w)
    ensures Inv(Next(w, e))
  {
    if e.Create? || e.Import? {
      BuildKeeps(w, e);
    } else if e.UnlockWith? || e.UnlockBiometric? {
      UnlockKeeps(w, e);
    } else if e.ChangePassword? {
      ChangeKeeps(w, e);
    } else if e.EnableBiometrics? || e.DisableBiometrics? {
      BiometricsKeep(w, e);
    } else {
      OthersKeep(w, e);
    }
  }

  lemma {:induction false} RunKeeps(w: World, events: seq<Event>)
    requires Inv(w)
    ensures Inv(Run(w, events))
    decreases |events|
  {
    if events != [] {
      NextKeeps(w, events[0]);
      RunKeeps(Next(w, events[0]), events[1..]);
    }
  }

  // ---------------------------------------------------------------- results

  /** After any sequence of calls, failed ones included, the stored file is coherent and live keys,
      if there are any, are the file's own and belong to the original secret. */
  lemma TheFileStaysCoherent(keystore: Option<nat>, events: seq<Event>)
    ensures var w := Run(Install(keystore), events);
            && (w.s.file.Some? ==> Coherent(w.s.file.value, w.password, w.secret))
            && w.secret.Secret?
            && (w.s.vek.Some? ==> w.s.file.Some? && w.s.vek == VekOf(w.s.file.value) && w.s.seed == Some(w.secret.seed))
            && (w.s.status != Unlocked ==> w.s.vek.None? && w.s.seed.None?)
  {
    RunKeeps(Install(keystore), events);
  }

  /** After any sequence of calls the stored file can be read back exactly when the auto-lock time
      the vault was created or imported with, and the length of the blob an enrolment in force
      stored, are in range. Neither is checked before it is written. */
  lemma WhenTheFileCanBeRead(keystore: Option<nat>, events: seq<Event>)
    requires Run(Install(keystore), events).s.file.Some?
    ensures var w := Run(Install(keystore), events);
            && (ReadFile(w.s).Ok? <==> NumbersInRange(w))
            && (w.enrolled.Some? <==> w.s.file.value.biometricSlot.Some?)
  {
    RunKeeps(Install(keystore), events);
  }

  /** The password last set opens the original seed, and no other password does: an unlock without
      faults succeeds exactly when the password is the current one and both unchecked numbers are
      in range. Revealing is gated the same way and shows the original phrase. */
  lemma ThePasswordOpensTheSeed(keystore: Option<nat>, events: seq<Event>, password: string)
    requires Run(Install(keystore), events).s.file.Some?
    ensures var w := Run(Install(keystore), events);
            var (t, outcome) := AfterUnlock(w.s, password, false);
            && w.secret.Secret?
            && (outcome.Ok? <==> password == w.password && NumbersInRange(w))
            && (outcome.Ok? ==> t.status == Unlocked && t.seed == Some(w.secret.seed) && t.vek == VekOf(w.s.file.value)
                                && t.autoLockSeconds == if w.autoLock <= 3600 then w.autoLock else 3600)
            && (NumbersInRange(w) && password != w.password ==> outcome == Err(WrongPassword))
            && (Reveal(w.s, password, false).Ok? <==> outcome.Ok?)
            && (outcome.Ok? ==> Reveal(w.s, password, false) == Ok(w.secret.entropy))
  {
    RunKeeps(Install(keystore), events);
  }

  /** An enrolled biometric opens the same seed, exactly when the prompt is accepted and the
      keystore still has the key that made the slot. */
  lemma TheBiometricOpensTheSeed(keystore: Option<nat>, events: seq<Event>, accepted: bool)
    requires var f := Run(Install(keystore), events).s.file; f.Some? && f.value.biometricSlot.Some?
    ensures var w := Run(Install(keystore), events);
            var (t, outcome) := AfterBiometricUnlock(w.s, accepted);
            && w.secret.Secret?
            && (outcome.Ok? <==> NumbersInRange(w) && accepted
                                 && w.s.keystore == Some(w.s.file.value.biometricSlot.value.maker))
            && (outcome.Ok? ==> t.status == Unlocked && t.seed == Some(w.secret.seed) && t.vek == VekOf(w.s.file.value)
                                && t.autoLockSeconds == if w.autoLock <= 3600 then w.autoLock else 3600)
  {
    RunKeeps(Install(keystore), events);
  }

  /** A failed call leaves the stored file as it was, with two exceptions: a wipe, and a creation
      whose second write failed, which leaves the complete new file behind. */
  lemma FailedCallsLeaveTheFile(s: State, e: Event)
    requires Step(s, e).1.Err? && !e.Wipe?
    ensures Step(s, e).0.file == s.file || ((e.Create? || e.Import?) && e.c.faults.writeKey && CanInitialize(s))
    ensures Step(s, e).0.vek == s.vek && Step(s, e).0.seed == s.seed && Step(s, e).0.status == s.status
  {
  }

  /** Changing the password succeeds exactly with the current one, a readable file and no fault. It
      replaces the password slot only: VEK, secret, biometric slot and meta carry over, the new
      password opens and the old one no longer does. */
  lemma ChangingThePassword(keystore: Option<nat>, events: seq<Event>, oldPassword: string, newPassword: string,
        r: Rewrite)
    requires Run(Install(keystore), events).s.file.Some?
    ensures var w := Run(Install(keystore), events);
            AfterChangePassword(w.s, oldPassword, newPassword, r).1.Ok?
            <==> oldPassword == w.password && NumbersInRange(w)
                 && !r.deriveOldFails && !r.deriveNewFails && !r.writeFails
    ensures var w := Run(Install(keystore), events);
            var (t, outcome) := AfterChangePassword(w.s, oldPassword, newPassword, r);
            outcome.Ok? ==>
            && t.file.Some? && t.file.value.kdf == KdfParams(w.s.file.value.kdf.cost, r.salt)
            && t.file.value.passwordSlot.nonce == r.slotNonce && t.file.value.payloadNonce == r.payloadNonce
            && VekOf(t.file.value) == VekOf(w.s.file.value) && t.file.value.meta == w.s.file.value.meta
            && t.file.value.biometricSlot == w.s.file.value.biometricSlot
            && t.file.value.payload.plaintext == w.secret
            && AfterUnlock(t, newPassword, false).1.Ok?
            && (oldPassword != newPassword ==> AfterUnlock(t, oldPassword, false).1 == Err(WrongPassword))
  {
    RunKeeps(Install(keystore), events);
    ChangeKeeps(Run(Install(keystore), events), ChangePassword(oldPassword, newPassword, r));
  }

  /** Enrolling a biometric succeeds exactly on an unlocked vault with live keys, a device that offers
      one and a keystore that has a key; an enrolment in force is left as it is. The biometric and the
      password then open the locked vault exactly when the blob's length is one the parser accepts. */
  lemma EnrollingABiometric(keystore: Option<nat>, events: seq<Event>, available: bool, wrapFails: bool,
        length: nat, r: Rewrite)
    requires Run(Install(keystore), events).s.file.Some?
    ensures var w := Run(Install(keystore), events);
            var (t, outcome) := AfterEnableBiometrics(w.s, available, wrapFails, length, r);
            && (outcome.Ok? <==>
                  w.s.status == Unlocked && available && NumbersInRange(w)
                  && (w.enrolled.Some? || (w.s.vek.Some? && w.s.keystore.Some? && !wrapFails && !r.writeFails)))
            && (outcome.Ok? && w.enrolled.Some? ==> t == w.s)
            && (outcome.Ok? && w.enrolled.None? ==>
                  && (AfterBiometricUnlock(AfterLock(t), true).1.Ok? <==> 16 <= length <= 512)
                  && (AfterUnlock(AfterLock(t), w.password, false).1.Ok? <==> 16 <= length <= 512)
                  && t.file.Some? && t.file.value.payloadNonce == r.payloadNonce)
  {
    var w := Run(Install(keystore), events);
    RunKeeps(Install(keystore), events);
    BiometricsKeep(w, EnableBiometrics(available, wrapFails, length, r));
  }

  /** Taking the enrolment back: the biometric no longer opens the vault and the password still does. */
  lemma DisablingTheBiometric(keystore: Option<nat>, events: seq<Event>, r: Rewrite)
    requires Run(Install(keystore), events).s.file.Some?
    ensures var w := Run(Install(keystore), events);
            var (t, outcome) := AfterDisableBiometrics(w.s, r);
            && (outcome.Ok? <==>
                  w.s.status == Unlocked && NumbersInRange(w)
                  && (w.enrolled.None? || (w.s.vek.Some? && !r.writeFails)))
            && (outcome.Ok? ==>
                  && AfterBiometricUnlock(AfterLock(t), true).1 == Err(BiometricUnavailable)
                  && AfterUnlock(AfterLock(t), w.password, false).1.Ok?)
            && (outcome.Ok? && w.enrolled.Some? ==> t.file.Some? && t.file.value.payloadNonce == r.payloadNonce)
  {
    var w := Run(Install(keystore), events);
    RunKeeps(Install(keystore), events);
    BiometricsKeep(w, DisableBiometrics(r));
  }

  /** A lock drops the keys and nothing else; what needs a key is refused until the next unlock. */
  lemma LockedMeansLocked(keystore: Option<nat>, events: seq<Event>, r: Rewrite)
    ensures var s := Run(Install(keystore), events).s;
            var t := AfterLock(s);
            && t.vek.None? && t.seed.None? && t.status != Unlocked
            && (s.status != Unlocked ==> t == s)
            && (s.status == Unlocked ==> t.status == Locked && AfterDisableBiometrics(t, r) == (t, Err(IsLocked)))
            && t.file == s.file && t.databaseKey == s.databaseKey && t.keystore == s.keystore
            && t.autoLockSeconds == s.autoLockSeconds
  {
    RunKeeps(Install(keystore), events);
  }

  /** When a vault can be created or imported: nothing there, an acceptable phrase and cost, a
      keystore with a key, and no fault. */
  lemma WhenCreationSucceeds(s: State, e: Event)
    requires e.Create? || e.Import?
    ensures Step(s, e).1.Ok?
            <==> s.file.None? && s.status == Uninitialized
                 && (e.Import? ==> e.phrase.Some? && e.phrase.value.wordCount in {12, 24})
                 && ValidCost(Resolve(e.c.cost)) && s.keystore.Some? && e.c.faults == Faults(false, false, false, false)
    ensures s.file.Some? || s.status != Uninitialized ==> Step(s, e) == (s, Err(AlreadyInitialized))
  {
  }

  /** What a successful creation or import leaves: unlocked with the new seed, the auto-lock time asked
      for or 300 seconds, and a database key wrapped by the keystore; it opens again exactly when the
      time is in range. */
  lemma CreatedVaultsCanBeReadBack(w: World, e: Event)
    requires Inv(w) && (e.Create? || e.Import?) && Step(w.s, e).1.Ok?
    ensures e.Import? ==> e.phrase.Some?
    ensures var t := Next(w, e).s;
            && t.status == Unlocked && t.file.Some?
            && t.autoLockSeconds == (match e.c.autoLockSeconds case Some(n) => n case None => 300)
            && t.seed == Some(if e.Create? then Seed(e.entropy, None)
                              else Seed(e.phrase.value, if e.passphrase == Some("") then None else e.passphrase))
            && t.databaseKey.Some? && Unwrap(t, t.databaseKey.value) == Some(DatabaseKey(t.seed.value))
            && (AfterUnlock(AfterLock(t), e.c.password, false).1.Ok?
                <==> 1 <= t.autoLockSeconds <= 2_147_483)
  {
    BuildKeeps(w, e);
  }

  predicate DeletesTheFile(e: Event) {
    e.Wipe? && e.fault != FileDeleteFails
  }

  predicate ReadsTheFile(e: Event) {
    e.UnlockWith? || e.UnlockBiometric? || e.ChangePassword? || e.EnableBiometrics? || e.DisableBiometrics?
  }

  /** What stops such a call before it reads the file, None if nothing does. */
  function RefusedEarly(s: State, e: Event): Option<Error> {
    match e
    case EnableBiometrics(available, _, _, _) =>
      if AssertUnlocked(s).Err? then Some(AssertUnlocked(s).error)
      else if !available then Some(BiometricUnavailable) else None
    case DisableBiometrics(_) => if AssertUnlocked(s).Err? then Some(AssertUnlocked(s).error) else None
    case _ => None
  }

  /** A file that cannot be read back stays as it is, and every call that reads it fails and changes
      nothing: as corrupt, unless the vault's status or the device refuses it before. Only a wipe
      that deletes the file ends that. */
  lemma {:induction false} UnreadableIsForGood(w: World, events: seq<Event>, e: Event, password: string)
    requires Inv(w) && w.s.file.Some? && !NumbersInRange(w)
    requires forall e :: e in events ==> !DeletesTheFile(e)
    ensures var t := Run(w, events).s;
            && t.file == w.s.file
            && (ReadsTheFile(e) ==>
                  Step(t, e) == (t, Err(match RefusedEarly(t, e) case Some(error) => error case None => CorruptVault)))
            && Reveal(t, password, false) == Err(CorruptVault)
    decreases |events|
  {
    if events != [] {
      NextKeeps(w, events[0]);
      UnreadableStays(w, events[0]);
      UnreadableIsForGood(Next(w, events[0]), events[1..], e, password);
    }
  }

  lemma UnreadableStays(w: World, e: Event)
    requires Inv(w) && w.s.file.Some? && !NumbersInRange(w) && !DeletesTheFile(e)
    ensures Next(w, e).s.file == w.s.file && Next(w, e).autoLock == w.autoLock && Next(w, e).enrolled == w.enrolled
  {
  }

  /** Two vaults that can never be opened again, though every call succeeded: one created with the
      time 0, one that enrolled a keystore blob of 513 bytes. */
  lemma UnreadableVaults(keystore: nat, password: string)
    ensures var none := Faults(false, false, false, false);
            var zero := Creation(password, None, Some(0), 1, 2, 3, 4, 60, none);
            var good := Creation(password, None, None, 1, 2, 3, 4, 60, none);
            var enrol := EnableBiometrics(true, false, 513, Rewrite(0, 0, 5, false, false, false));
            var w := Next(Install(Some(keystore)), Create(Entropy(12, 7), zero));
            var v := Next(Next(Install(Some(keystore)), Create(Entropy(12, 7), good)), enrol);
            && w.s.status == Unlocked && AfterUnlock(Reopened(w.s), password, false).1 == Err(CorruptVault)
            && v.s.file.Some? && v.s.file.value.biometricSlot.Some?
            && AfterUnlock(Reopened(v.s), password, false).1 == Err(CorruptVault)
  {
  }

  /** A wipe is complete unless a deletion fails, and drops the live keys in any case. A completed one
      leaves nothing: no file, no live key, and no keystore key that could open a copied biometric
      slot or database-key blob. */
  lemma WipedMeansGone(s: State, fault: WipeFault, password: string, copy: File, keyBlob: Blob)
    ensures var (t, outcome) := AfterWipe(s, fault);
            && (outcome.Ok? <==> fault == NoFault) && t.vek.None? && t.seed.None?
            && (fault != NoFault ==> t.status == s.status && t.keystore == s.keystore)
    ensures var t := AfterWipe(s, NoFault).0;
            && t.file.None? && t.databaseKey.None? && t.vek.None? && t.seed.None? && t.status == Uninitialized
            && AfterUnlock(t, password, false).1 == Err(NotInitialized)
            && (copy.biometricSlot.Some? ==> AfterBiometricUnlock(t.(file := Some(copy)), true).1.Err?)
            && Unwrap(t, keyBlob).None?
  {
  }

  // ---------------------------------------------------------------- unlocked without keys

  /** What `unlocked` promises. */
  predicate KeysAgree(s: State) {
    s.status == Unlocked <==> s.vek.Some?
  }

  /** A wipe of an unlocked vault that any of the three deletions cuts short. */
  predicate LosesKeys(s: State, e: Event) {
    e.Wipe? && e.fault != NoFault && s.status == Unlocked
  }

  /** What gives an unlocked vault its keys back or takes the word back: locking, a new process, a
      complete wipe, and an unlock that succeeds (the file is still there when its own deletion was
      what failed). */
  predicate Repairs(w: World, e: Event) {
    || e.LockNow? || e.Reopen? || e == Wipe(NoFault)
    || (w.s.file.Some? && NumbersInRange(w)
        && match e
           case UnlockWith(password, deriveFails) => password == w.password && !deriveFails
           case UnlockBiometric(accepted) =>
             accepted && w.s.file.value.biometricSlot.Some?
             && w.s.keystore == Some(w.s.file.value.biometricSlot.value.maker)
           case _ => false)
  }

  /** One call: keys and status part exactly in an interrupted wipe, and meet again exactly in a
      repair. */
  lemma KeysPartAndMeet(w: World, e: Event)
    requires Inv(w)
    ensures KeysAgree(w.s) ==> (KeysAgree(Next(w, e).s) <==> !LosesKeys(w.s, e))
    ensures !KeysAgree(w.s) ==> (KeysAgree(Next(w, e).s) <==> Repairs(w, e))
    ensures Repairs(w, e) ==> !LosesKeys(w.s, e)
  {
    if e.UnlockWith? || e.UnlockBiometric? {
      UnlockKeeps(w, e);
    } else if e.Create? || e.Import? {
      BuildKeeps(w, e);
    } else if e.EnableBiometrics? || e.DisableBiometrics? {
      BiometricsKeep(w, e);
    } else if e.ChangePassword? {
      ChangeKeeps(w, e);
    }
  }

  lemma {:induction false} RunSnoc(w: World, events: seq<Event>, e: Event)
    ensures Run(w, events + [e]) == Next(Run(w, events), e)
    decreases |events|
  {
    if events == [] {
      assert events + [e] == [e];
      assert Run(Next(w, e), []) == Next(w, e);
    } else {
      assert (events + [e])[1..] == events[1..] + [e];
      RunSnoc(Next(w, events[0]), events[1..], e);
    }
  }

  /** The world before event i of a run. */
  function Before(keystore: Option<nat>, events: seq<Event>, i: nat): World
    requires i <= |events|
  {
    Run(Install(keystore), events[..i])
  }

  ghost predicate LostAt(keystore: Option<nat>, events: seq<Event>, n: nat, i: nat)
    requires n <= |events|
  {
    && i < n && LosesKeys(Before(keystore, events, i).s, events[i])
    && forall j :: i < j < n ==> !Repairs(Before(keystore, events, j), events[j])
  }

  /** Before event n: some wipe lost the keys and nothing up to there has repaired that. */
  ghost predicate KeysLost(keystore: Option<nat>, events: seq<Event>, n: nat)
    requires n <= |events|
  {
    exists i :: LostAt(keystore, events, n, i)
  }

  lemma {:induction false} KeysLostBefore(keystore: Option<nat>, events: seq<Event>, n: nat)
    requires n <= |events|
    ensures !KeysAgree(Before(keystore, events, n).s) <==> KeysLost(keystore, events, n)
    decreases n
  {
    if n > 0 {
      KeysLostBefore(keystore, events, n - 1);
      var w := Before(keystore, events, n - 1);
      assert events[..n] == events[..n - 1] + [events[n - 1]];
      RunSnoc(Install(keystore), events[..n - 1], events[n - 1]);
      RunKeeps(Install(keystore), events[..n - 1]);
      KeysPartAndMeet(w, events[n - 1]);
      if LosesKeys(w.s, events[n - 1]) {
        assert LostAt(keystore, events, n, n - 1);
      } else {
        OneMore(keystore, events, n);
      }
    }
  }

  lemma OneMore(keystore: Option<nat>, events: seq<Event>, n: nat)
    requires 0 < n <= |events| && !LosesKeys(Before(keystore, events, n - 1).s, events[n - 1])
    ensures KeysLost(keystore, events, n)
            <==> KeysLost(keystore, events, n - 1) && !Repairs(Before(keystore, events, n - 1), events[n - 1])
  {
    if KeysLost(keystore, events, n) {
      var i :| LostAt(keystore, events, n, i);
      assert LostAt(keystore, events, n - 1, i);
    }
    if KeysLost(keystore, events, n - 1) && !Repairs(Before(keystore, events, n - 1), events[n - 1]) {
      var i :| LostAt(keystore, events, n - 1, i);
      assert LostAt(keystore, events, n, i);
    }
  }

  /** After any sequence of calls the vault is `unlocked` without keys exactly when a wipe of the
      unlocked vault was cut short, at whichever deletion, and nothing since has repaired that.
      In that state nothing can be created; otherwise `unlocked` means live keys. */
  lemma UnlockedWithoutKeys(keystore: Option<nat>, events: seq<Event>, entropy: FreshEntropy, c: Creation)
    ensures var s := Run(Install(keystore), events).s;
            && (s.status == Unlocked && s.vek.None? <==> KeysLost(keystore, events, |events|))
            && (s.vek.Some? ==> s.status == Unlocked)
            && (s.status == Unlocked && s.vek.None? ==> AfterCreate(s, entropy, c).1 == Err(AlreadyInitialized))
  {
    RunKeeps(Install(keystore), events);
    KeysLostBefore(keystore, events, |events|);
    assert events[..|events|] == events;
  }

  // ---------------------------------------------------------------- the program

  class SecureVault {
    // Storage and keystore.
    var file: Option<File>
    var databaseKey: Option<Blob>
    var keystore: Option<nat>
    // The object's own fields.
    var status: Status
    var vek: Option<Key>
    var seed: Option<Seed>
    var autoLockSeconds: int

    function Snapshot(): State
      reads this
    {
      State(file, databaseKey, keystore, status, vek, seed, autoLockSeconds)
    }

    /** Opening over existing storage. */
    constructor Open(file: Option<File>, databaseKey: Option<Blob>, keystore: Option<nat>)
      ensures Snapshot() == Reopened(State(file, databaseKey, keystore, Locked, None, None, 0))
    {
      this.file, this.databaseKey, this.keystore := file, databaseKey, keystore;
      status := if file.None? then Uninitialized else Locked;
      vek, seed, autoLockSeconds := None, None, DEFAULT_AUTO_LOCK_SECONDS;
    }

    method ReadVaultFile() returns (r: Outcome<File>)
      ensures r == ReadFile(Snapshot())
    {
      if file.None? {
        return Err(NotInitialized);
      }
      r := if Readable(file.value) then Ok(file.value) else Err(CorruptVault);
    }

    method ClearLiveState()
      modifies this
      ensures Snapshot() == Cleared(old(Snapshot()))
    {
      vek := None;
      seed := None;
    }

    method Admitted(newVek: Key, newSeed: Seed, seconds: int)
      modifies this
      ensures Snapshot() == SetUnlocked(old(Snapshot()), newVek, newSeed, seconds)
    {
      ClearLiveState();
      vek := Some(newVek);
      seed := Some(newSeed);
      autoLockSeconds := seconds;
      status := Unlocked;
    }

    method BuildVault(secret: Plaintext, c: Creation) returns (r: Outcome<Unit>)
      requires secret.Secret?
      modifies this
      ensures (Snapshot(), r) == Build(old(Snapshot()), secret, c)
    {
      var kdf := KdfParams(Resolve(c.cost), c.salt);
      if !ValidCost(kdf.cost) {
        return Err(KdfParamsOutOfRange);
      }
      if c.faults.derive {
        return Err(Interrupted);
      }
      var slot := WrapWithPassword(c.password, kdf, c.slotNonce, Vek(c.vek));
      var payload := Sealed(Vek(c.vek), c.payloadNonce, secret, Header(kdf, slot, None));
      var seconds := TimeOf(c);
      var meta := Meta(secret.entropy.wordCount, secret.hasPassphrase, seconds);
      if c.faults.wrap || keystore.None? {
        return Err(KeystoreError);
      }
      var blob := Blob(keystore.value, DatabaseKey(secret.seed), c.blobLength);
      if c.faults.writeFile {
        return Err(Interrupted);
      }
      file := Some(File(kdf, slot, None, c.payloadNonce, payload, meta));
      if c.faults.writeKey {
        return Err(Interrupted);
      }
      databaseKey := Some(blob);
      Admitted(Vek(c.vek), secret.seed, seconds);
      r := Ok(Done);
    }

    method CreateWithNewMnemonic(entropy: FreshEntropy, c: Creation) returns (r: Outcome<Unit>)
      modifies this
      ensures (Snapshot(), r) == AfterCreate(old(Snapshot()), entropy, c)
    {
      if file.Some? || status != Uninitialized {
        return Err(AlreadyInitialized);
      }
      r := BuildVault(Secret(entropy, Seed(entropy, None), false), c);
    }

    method ImportMnemonic(phrase: Option<Entropy>, passphrase: Option<string>, c: Creation) returns (r: Outcome<Unit>)
      modifies this
      ensures (Snapshot(), r) == AfterImport(old(Snapshot()), phrase, passphrase, c)
    {
      if file.Some? || status != Uninitialized {
        return Err(AlreadyInitialized);
      }
      if phrase.None? || !IsVaultCount(phrase.value.wordCount) {
        return Err(InvalidMnemonic);
      }
      var normalized := if passphrase == Some("") then None else passphrase;
      r := BuildVault(Secret(phrase.value, Seed(phrase.value, normalized), normalized.Some?), c);
    }

    method Unlock(password: string, deriveFails: bool) returns (r: Outcome<Unit>)
      modifies this
      ensures (Snapshot(), r) == AfterUnlock(old(Snapshot()), password, deriveFails)
    {
      var read := ReadVaultFile();
      if read.Err? {
        return Err(read.error);
      }
      if deriveFails {
        return Err(Interrupted);
      }
      var unwrapped := UnwrapWithPassword(read.value, password);
      if unwrapped.Err? {
        return Err(unwrapped.error);
      }
      r := AdmitFile(read.value, unwrapped.value, WrongPassword);
    }

    method AdmitFile(f: File, key: Key, code: Error) returns (r: Outcome<Unit>)
      modifies this
      ensures (Snapshot(), r) == Admit(old(Snapshot()), f, key, code)
    {
      var payload := OpenPayload(f, key, code);
      if payload.Err? {
        return Err(payload.error);
      }
      if !payload.value.Secret? {
        return Err(CorruptVault);
      }
      Admitted(key, payload.value.seed, ClampAutoLock(f.meta.autoLockSeconds));
      r := Ok(Done);
    }

    method UnlockWithBiometrics(accepted: bool) returns (r: Outcome<Unit>)
      modifies this
      ensures (Snapshot(), r) == AfterBiometricUnlock(old(Snapshot()), accepted)
    {
      var read := ReadVaultFile();
      if read.Err? {
        return Err(read.error);
      }
      if read.value.biometricSlot.None? {
        return Err(BiometricUnavailable);
      }
      var blob := read.value.biometricSlot.value;
      if !accepted || keystore != Some(blob.maker) {
        return Err(BiometricDenied);
      }
      if !blob.key.Vek? {
        return Err(CorruptVault);
      }
      r := AdmitFile(read.value, blob.key, CorruptVault);
    }

    method Lock()
      modifies this
      ensures Snapshot() == AfterLock(old(Snapshot()))
    {
      ClearLiveState();
      if status == Unlocked {
        status := Locked;
      }
    }

    method RevealMnemonic(password: string, deriveFails: bool) returns (r: Outcome<Entropy>)
      ensures r == Reveal(Snapshot(), password, deriveFails)
    {
      var read := ReadVaultFile();
      if read.Err? {
        return Err(read.error);
      }
      if deriveFails {
        return Err(Interrupted);
      }
      var unwrapped := UnwrapWithPassword(read.value, password);
      if unwrapped.Err? {
        return Err(unwrapped.error);
      }
      var payload := OpenPayload(read.value, unwrapped.value, WrongPassword);
      if payload.Err? {
        return Err(payload.error);
      }
      r := if payload.value.Secret? then Ok(payload.value.entropy) else Err(CorruptVault);
    }

    method WriteFile(f: File, fails: bool) returns (r: Outcome<Unit>)
      modifies this
      ensures (Snapshot(), r) == Stored(old(Snapshot()), f, fails)
    {
      if fails {
        return Err(Interrupted);
      }
      file := Some(f);
      r := Ok(Done);
    }

    method ChangePassword(oldPassword: string, newPassword: string, w: Rewrite) returns (r: Outcome<Unit>)
      modifies this
      ensures (Snapshot(), r) == AfterChangePassword(old(Snapshot()), oldPassword, newPassword, w)
    {
      var read := ReadVaultFile();
      if read.Err? {
        return Err(read.error);
      }
      var f := read.value;
      if w.deriveOldFails {
        return Err(Interrupted);
      }
      var unwrapped := UnwrapWithPassword(f, oldPassword);
      if unwrapped.Err? {
        return Err(unwrapped.error);
      }
      if w.deriveNewFails {
        return Err(Interrupted);
      }
      var kdf := KdfParams(f.kdf.cost, w.salt);
      var slot := WrapWithPassword(newPassword, kdf, w.slotNonce, unwrapped.value);
      var payload := OpenPayload(f, unwrapped.value, WrongPassword);
      if payload.Err? {
        return Err(payload.error);
      }
      var resealed := Sealed(unwrapped.value, w.payloadNonce, payload.value, Header(kdf, slot, f.biometricSlot));
      r := WriteFile(f.(kdf := kdf, passwordSlot := slot, payloadNonce := w.payloadNonce,
                        payload := resealed), w.writeFails);
    }

    method DeriveDatabaseKey() returns (r: Outcome<Key>)
      ensures r == GetDatabaseKey(Snapshot())
    {
      if status == Uninitialized {
        return Err(NotInitialized);
      }
      if status == Locked {
        return Err(IsLocked);
      }
      r := if seed.None? then Err(Interrupted) else Ok(DatabaseKey(seed.value));
    }

    method ReadDatabaseKey() returns (r: Outcome<Key>)
      ensures r == UnwrapDatabaseKey(Snapshot())
    {
      if status == Uninitialized {
        return Err(NotInitialized);
      }
      if status == Locked {
        return Err(IsLocked);
      }
      if databaseKey.None? || keystore != Some(databaseKey.value.maker) {
        return Err(KeystoreError);
      }
      r := Ok(databaseKey.value.key);
    }

    method EnableBiometrics(available: bool, wrapFails: bool, blobLength: nat, w: Rewrite) returns (r: Outcome<Unit>)
      modifies this
      ensures (Snapshot(), r) == AfterEnableBiometrics(old(Snapshot()), available, wrapFails, blobLength, w)
    {
      if status == Uninitialized {
        return Err(NotInitialized);
      }
      if status == Locked {
        return Err(IsLocked);
      }
      if !available {
        return Err(BiometricUnavailable);
      }
      var read := ReadVaultFile();
      if read.Err? {
        return Err(read.error);
      }
      if read.value.biometricSlot.Some? {
        return Ok(Done);
      }
      if wrapFails || keystore.None? || vek.None? {
        return Err(KeystoreError);
      }
      r := Rewritten(read.value, Some(Blob(keystore.value, vek.value, blobLength)), w);
    }

    method DisableBiometrics(w: Rewrite) returns (r: Outcome<Unit>)
      modifies this
      ensures (Snapshot(), r) == AfterDisableBiometrics(old(Snapshot()), w)
    {
      if status == Uninitialized {
        return Err(NotInitialized);
      }
      if status == Locked {
        return Err(IsLocked);
      }
      var read := ReadVaultFile();
      if read.Err? {
        return Err(read.error);
      }
      if read.value.biometricSlot.None? {
        return Ok(Done);
      }
      r := Rewritten(read.value, None, w);
    }

    method Rewritten(f: File, bio: Option<Blob>, w: Rewrite) returns (r: Outcome<Unit>)
      modifies this
      ensures (Snapshot(), r) == RewriteSlots(old(Snapshot()), f, bio, w)
    {
      if vek.None? {
        return Err(CorruptVault);
      }
      var payload := OpenPayload(f, vek.value, CorruptVault);
      if payload.Err? {
        return Err(payload.error);
      }
      var resealed := Sealed(vek.value, w.payloadNonce, payload.value, Header(f.kdf, f.passwordSlot, bio));
      r := WriteFile(f.(biometricSlot := bio, payloadNonce := w.payloadNonce, payload := resealed), w.writeFails);
    }

    method Wipe(fault: WipeFault) returns (r: Outcome<Unit>)
      modifies this
      ensures (Snapshot(), r) == AfterWipe(old(Snapshot()), fault)
    {
      ClearLiveState();
      if fault == FileDeleteFails {
        return Err(Interrupted);
      }
      file := None;
      if fault == KeyDeleteFails {
        return Err(Interrupted);
      }
      databaseKey := None;
      if fault == KeystoreDeleteFails {
        return Err(KeystoreError);
      }
      keystore := None;
      status := Uninitialized;
      r := Ok(Done);
    }
  }

  // ---------------------------------------------------------------- the confirmation quiz

  /** The pool after some positions were drawn to its front. */
  ghost predicate IsDraw(pool: seq<nat>, n: nat) {
    |pool| == n && (forall i :: 0 <= i < n ==> pool[i] < n) && forall i, j :: 0 <= i < j < n ==> pool[i] != pool[j]
  }

  predicate Ascending(s: seq<nat>) {
    forall i, j :: 0 <= i < j < |s| ==> s[i] < s[j]
  }

  lemma FirstIsSmallest(s: seq<nat>, x: nat, rest: seq<nat>)
    requires s != [] && Ascending(s) && s[0] < x && Ascending(rest)
    requires forall y :: y in rest <==> y in s[1..] || y == x
    ensures forall k :: 0 <= k < |rest| ==> s[0] < rest[k]
    ensures Ascending([s[0]] + rest)
  {
    forall k | 0 <= k < |rest| ensures s[0] < rest[k] {
      assert rest[k] in rest;
      if rest[k] != x {
        var j :| 0 <= j < |s[1..]| && s[1..][j] == rest[k];
        assert s[0] < s[j + 1];
      }
    }
  }

  /** Put one more position where it belongs. */
  function Insert(s: seq<nat>, x: nat): (r: seq<nat>)
    requires Ascending(s) && x !in s
    ensures Ascending(r) && |r| == |s| + 1 && forall y :: y in r <==> y in s || y == x
  {
    if s == [] then [x]
    else if x < s[0] then [x] + s
    else
      var rest := Insert(s[1..], x);
      FirstIsSmallest(s, x, rest);
      [s[0]] + rest
  }

  /** The partial shuffle: the first `count` of a pool of all positions, each draw swapped to its
      place. Any random numbers, one per draw. */
  method Draw(n: nat, count: nat, random: seq<nat>) returns (drawn: seq<nat>)
    requires count <= n <= |random|
    ensures |drawn| == count
    ensures forall i :: 0 <= i < count ==> drawn[i] < n
    ensures forall i, j :: 0 <= i < j < count ==> drawn[i] != drawn[j]
  {
    var pool := new nat[n](i => i);
    var i := 0;
    while i < count
      invariant 0 <= i <= count && IsDraw(pool[..], n)
    {
      var j := i + random[i] % (n - i);
      pool[i], pool[j] := pool[j], pool[i];
      i := i + 1;
    }
    drawn := pool[..count];
  }

  /** The quiz: distinct 1-based positions of the phrase, ascending, as many as asked for but at
      least one and at most all. */
  method GenerateQuiz(words: nat, wanted: int, random: seq<nat>) returns (positions: seq<nat>)
    requires words > 0 && |random| >= words
    ensures Ascending(positions) && forall p :: p in positions ==> 1 <= p <= words
    ensures |positions| == if wanted < 1 then 1 else if wanted > words then words else wanted
  {
    var count := if wanted < 1 then 1 else if wanted > words then words else wanted;
    var drawn := Draw(words, count, random);
    positions := [];
    var i := 0;
    while i < count
      invariant 0 <= i <= count && |positions| == i && Ascending(positions)
      invariant forall p :: p in positions <==> exists k :: 0 <= k < i && p == drawn[k] + 1
    {
      positions := Insert(positions, drawn[i] + 1);
      i := i + 1;
    }
  }

  /** Every position in range and every answer, once trimmed and lower-cased, the word there. */
  method VerifyQuiz(positions: seq<nat>, answers: seq<string>, words: seq<string>, normal: string -> string)
        returns (ok: bool)
    ensures ok <==> |answers| == |positions|
                    && forall i :: 0 <= i < |positions|
                         ==> 1 <= positions[i] <= |words| && normal(answers[i]) == words[positions[i] - 1]
  {
    if |answers| != |positions| {
      return false;
    }
    var i := 0;
    while i < |positions|
      invariant 0 <= i <= |positions|
      invariant forall k :: 0 <= k < i ==> 1 <= positions[k] <= |words| && normal(answers[k]) == words[positions[k] - 1]
    {
      if positions[i] < 1 || positions[i] > |words| || normal(answers[i]) != words[positions[i] - 1] {
        return false;
      }
      i := i + 1;
    }
    ok := true;
  }
}
