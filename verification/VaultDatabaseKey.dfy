/** The two ways to the database key: derived from the live seed, and unwrapped from the stored blob. The
    documentation calls them byte-identical. */
module VaultDatabaseKey {
  import opened Options
  import opened Vault

  predicate Creates(e: Event) {
    e.Create? || e.Import?
  }

  /** A wipe that reaches the stored key. */
  predicate DeletesTheKey(e: Event) {
    e.Wipe? && (e.fault == NoFault || e.fault == KeystoreDeleteFails)
  }

  /** The seed of the last creation that went through, unless a wipe has reached its key since. */
  function KeptSeed(keystore: Option<nat>, events: seq<Event>): Option<Seed>
    decreases |events|
  {
    if events == [] then None
    else
      var front, e := events[..|events| - 1], events[|events| - 1];
      if Creates(e) && Step(Run(Install(keystore), front).s, e).1.Ok? then Some(SecretOf(e).seed)
      else if DeletesTheKey(e) then None
      else KeptSeed(keystore, front)
  }

  lemma KeyOfOneCall(w: World, e: Event)
    ensures var t := Next(w, e).s;
            if Creates(e) && Step(w.s, e).1.Ok?
            then t.databaseKey.Some? && t.databaseKey.value.key == DatabaseKey(SecretOf(e).seed)
            else t.databaseKey == if DeletesTheKey(e) then None else w.s.databaseKey
  {
  }

  lemma {:induction false} TheKeptKeyIsStored(keystore: Option<nat>, events: seq<Event>)
    ensures var s := Run(Install(keystore), events).s;
            match KeptSeed(keystore, events)
            case None => s.databaseKey.None?
            case Some(seed) => s.databaseKey.Some? && s.databaseKey.value.key == DatabaseKey(seed)
    decreases |events|
  {
    if events != [] {
      var front, e := events[..|events| - 1], events[|events| - 1];
      assert events == front + [e];
      TheKeptKeyIsStored(keystore, front);
      RunSnoc(Install(keystore), front, e);
      KeyOfOneCall(Run(Install(keystore), front), e);
    }
  }

  /** After any run that ends unlocked with live keys: the derived key is the current secret's, the
      unwrapped one belongs to the last vault whose creation went through, and they are the same key
      exactly when that is this vault's seed and the keystore still has the key that wrapped it. */
  lemma TheKeysAgreeExactly(keystore: Option<nat>, events: seq<Event>)
    requires Run(Install(keystore), events).s.vek.Some?
    ensures var w, kept := Run(Install(keystore), events), KeptSeed(keystore, events);
            && w.secret.Secret? && (kept.Some? <==> w.s.databaseKey.Some?)
            && GetDatabaseKey(w.s) == Ok(DatabaseKey(w.secret.seed))
            && UnwrapDatabaseKey(w.s) == (if kept.Some? && w.s.keystore == Some(w.s.databaseKey.value.maker)
                                          then Ok(DatabaseKey(kept.value)) else Err(KeystoreError))
            && (UnwrapDatabaseKey(w.s) == GetDatabaseKey(w.s)
                <==> kept == Some(w.secret.seed) && w.s.keystore == Some(w.s.databaseKey.value.maker))
  {
    TheFileStaysCoherent(keystore, events);
    RunKeeps(Install(keystore), events);
    TheKeptKeyIsStored(keystore, events);
  }

  /** A creation that fails between its two writes: the file is there, the key blob is the old one. */
  predicate CutBetweenTheWrites(e: Event) {
    Creates(e) && e.c.faults.writeKey
  }

  lemma SecretOfOneCall(w: World, e: Event)
    requires !CutBetweenTheWrites(e) && Next(w, e).s.file.Some?
    ensures if Creates(e) && Step(w.s, e).1.Ok? then Next(w, e).secret == SecretOf(e)
            else w.s.file.Some? && Next(w, e).secret == w.secret && !DeletesTheKey(e)
  {
  }

  /** Without such a creation the stored key is always the current vault's. */
  lemma {:induction false} UncutCreationsAgree(keystore: Option<nat>, events: seq<Event>)
    requires forall i :: 0 <= i < |events| ==> !CutBetweenTheWrites(events[i])
    requires Run(Install(keystore), events).s.file.Some?
    ensures var w := Run(Install(keystore), events);
            w.secret.Secret? && KeptSeed(keystore, events) == Some(w.secret.seed)
    decreases |events|
  {
    TheFileStaysCoherent(keystore, events);
    if events != [] {
      var front, e := events[..|events| - 1], events[|events| - 1];
      var w := Run(Install(keystore), front);
      assert events == front + [e];
      RunSnoc(Install(keystore), front, e);
      SecretOfOneCall(w, e);
      if !(Creates(e) && Step(w.s, e).1.Ok?) {
        UncutCreationsAgree(keystore, front);
      }
    }
  }

  lemma {:induction false} ThreeCalls(w: World, a: Event, b: Event, c: Event, rest: seq<Event>)
    ensures Run(w, [a, b, c] + rest) == Run(Next(Next(Next(w, a), b), c), rest)
  {
    assert ([a, b, c] + rest)[1..] == [b, c] + rest && ([b, c] + rest)[1..] == [c] + rest;
    assert ([c] + rest)[1..] == rest;
    assert Run(w, [a, b, c] + rest) == Run(Next(w, a), [b, c] + rest);
    assert Run(Next(w, a), [b, c] + rest) == Run(Next(Next(w, a), b), [c] + rest);
  }

  const Sound := Faults(false, false, false, false)

  const CutShort := Faults(false, false, false, true)

  function Simple(password: string, faults: Faults): Creation {
    Creation(password, None, None, 1, 2, 3, 4, 60, faults)
  }

  /** No vault, but the key blob of one. */
  function OnlyTheKey(keystore: nat, seed: Seed): State {
    State(None, Some(Blob(keystore, DatabaseKey(seed), 60)), Some(keystore), Uninitialized, None, None, 300)
  }

  lemma WipedButForTheKey(keystore: nat, password: string, first: FreshEntropy)
    ensures var w := Next(Install(Some(keystore)), Create(first, Simple(password, Sound)));
            Next(Next(w, Wipe(KeyDeleteFails)), Reopen).s == OnlyTheKey(keystore, Seed(first, None))
  {
  }

  lemma OpenedOverTheOldKey(w: World, keystore: nat, seed: Seed, password: string, second: FreshEntropy)
    requires w.s == OnlyTheKey(keystore, seed)
    ensures var s := Next(Next(Next(w, Create(second, Simple(password, CutShort))), Reopen),
                          UnlockWith(password, false)).s;
            && s.status == Unlocked && s.seed == Some(Seed(second, None))
            && s.databaseKey == w.s.databaseKey && s.keystore == w.s.keystore
  {
  }

  /** The run that goes wrong: a vault is wiped but its key blob stays, the next creation writes the
      file and not the key, and the unlocked vault unwraps the first vault's database key. */
  lemma AnotherVaultsKey(keystore: nat, password: string, first: FreshEntropy, second: FreshEntropy)
    ensures var s := Run(Install(Some(keystore)),
                         [Create(first, Simple(password, Sound)), Wipe(KeyDeleteFails), Reopen]
                         + [Create(second, Simple(password, CutShort)), Reopen, UnlockWith(password, false)]).s;
            && s.status == Unlocked && GetDatabaseKey(s) == Ok(DatabaseKey(Seed(second, None)))
            && UnwrapDatabaseKey(s) == Ok(DatabaseKey(Seed(first, None)))
  {
    var a, b := Create(first, Simple(password, Sound)), Create(second, Simple(password, CutShort));
    var rest := [b, Reopen, UnlockWith(password, false)];
    var w := Next(Next(Next(Install(Some(keystore)), a), Wipe(KeyDeleteFails)), Reopen);
    ThreeCalls(Install(Some(keystore)), a, Wipe(KeyDeleteFails), Reopen, rest);
    ThreeCalls(w, b, Reopen, UnlockWith(password, false), []);
    assert rest + [] == rest;
    WipedButForTheKey(keystore, password, first);
    OpenedOverTheOldKey(w, keystore, Seed(first, None), password, second);
  }
}
