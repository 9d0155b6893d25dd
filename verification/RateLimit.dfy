/** The per-contact and global token buckets. Tokens and elapsed time are real numbers: the
    source's floating-point rounding is not modelled. */
module RateLimit {
  import opened Options

  const HOUR_MS: real := 3_600_000.0

  datatype Scope = OutgoingScope | IncomingScope

  function ScopeName(scope: Scope): string {
    match scope case OutgoingScope => "outgoing" case IncomingScope => "incoming"
  }

  function BucketName(scope: Scope, id: string): string {
    ScopeName(scope) + ":" + id
  }

  /** Profile ids are hex strings, so none of them is called "global". */
  predicate IsHex(id: string) {
    forall i :: 0 <= i < |id| ==> '0' <= id[i] <= '9' || 'a' <= id[i] <= 'f'
  }

  datatype Bucket = Bucket(tokens: real, updatedAt: int)

  type Store = map<string, Bucket>

  /** Both allowances are rates; a limiter that allows nothing refuses everything. */
  datatype Config = Config(perContact: real, perGlobal: real)

  predicate ConfigOk(c: Config) {
    c.perContact >= 0.0 && c.perGlobal >= 0.0
  }

  // ---------------------------------------------------------------- what one call does

  function Min(a: real, b: real): real {
    if a <= b then a else b
  }

  function Elapsed(from: int, now: int): real {
    if now <= from then 0.0 else (now - from) as real
  }

  /** What a bucket earns between two moments. */
  function Earned(perHour: real, from: int, now: int): real {
    (Elapsed(from, now) / HOUR_MS) * perHour
  }

  /** The level a bucket stands at, whether it is stored yet or not. */
  function Level(store: Store, bucket: string, perHour: real, now: int): real {
    if bucket in store then
      Min(perHour, store[bucket].tokens + Earned(perHour, store[bucket].updatedAt, now))
    else perHour
  }

  /** A bucket seen for the first time is created full. */
  function Touched(store: Store, bucket: string, perHour: real, now: int): Store {
    if bucket in store then store else store[bucket := Bucket(perHour, now)]
  }

  datatype Call = Call(scope: Scope, id: Option<string>, now: int)

  predicate CallOk(c: Call) {
    c.id.Some? ==> IsHex(c.id.value)
  }

  function GlobalName(c: Call): string {
    BucketName(c.scope, "global")
  }

  function Admits(store: Store, cfg: Config, c: Call): bool {
    && Level(store, GlobalName(c), cfg.perGlobal, c.now) >= 1.0
    && (c.id.Some? ==> Level(store, BucketName(c.scope, c.id.value), cfg.perContact, c.now) >= 1.0)
  }

  function AfterCall(store: Store, cfg: Config, c: Call): Store {
    var g := GlobalName(c);
    var global := Level(store, g, cfg.perGlobal, c.now);
    var s1 := Touched(store, g, cfg.perGlobal, c.now);
    match c.id
    case None => if global < 1.0 then s1 else s1[g := Bucket(global - 1.0, c.now)]
    case Some(id) =>
      var k := BucketName(c.scope, id);
      var contact := Level(s1, k, cfg.perContact, c.now);
      var s2 := Touched(s1, k, cfg.perContact, c.now);
      if contact < 1.0 || global < 1.0 then s2
      else s2[k := Bucket(contact - 1.0, c.now)][g := Bucket(global - 1.0, c.now)]
  }

  // ---------------------------------------------------------------- names

  lemma NamesDiffer(a: Scope, x: string, b: Scope, y: string)
    ensures BucketName(a, x) == BucketName(b, y) <==> a == b && x == y
  {
    if BucketName(a, x) == BucketName(b, y) {
      assert BucketName(a, x)[..8] == ScopeName(a) && BucketName(b, y)[..8] == ScopeName(b);
      assert ScopeName(OutgoingScope)[0] != ScopeName(IncomingScope)[0];
      assert BucketName(a, x)[9..] == x && BucketName(b, y)[9..] == y;
    }
  }

  lemma GlobalIsNoContact(a: Scope, b: Scope, id: string)
    requires IsHex(id)
    ensures BucketName(a, "global") != BucketName(b, id)
  {
    NamesDiffer(a, "global", b, id);
    assert "global"[0] == 'g';
  }

  // ---------------------------------------------------------------- the allowance of a bucket

  /** The hourly allowance a bucket name is used with. */
  function Allowance(cfg: Config, bucket: string): real {
    if bucket == BucketName(OutgoingScope, "global") || bucket == BucketName(IncomingScope, "global")
    then cfg.perGlobal else cfg.perContact
  }

  predicate Charges(c: Call, bucket: string) {
    bucket == GlobalName(c) || (c.id.Some? && bucket == BucketName(c.scope, c.id.value))
  }

  ghost predicate StoreOk(store: Store, cfg: Config) {
    forall k :: k in store ==> 0.0 <= store[k].tokens <= Allowance(cfg, k)
  }

  lemma EarnedFacts(perHour: real, a: int, b: int, c: int)
    requires perHour >= 0.0 && b <= c
    ensures Earned(perHour, a, b) >= 0.0 && Earned(perHour, b, b) == 0.0
    ensures Earned(perHour, a, c) <= Earned(perHour, a, b) + Earned(perHour, b, c)
  {
    var x, y, z := Elapsed(a, b) / HOUR_MS, Elapsed(b, c) / HOUR_MS, Elapsed(a, c) / HOUR_MS;
    assert z <= x + y;
    TimesPositive(x, perHour);
    TimesPositive(x + y - z, perHour);
    assert (x + y - z) * perHour == x * perHour + y * perHour - z * perHour;
  }

  lemma TimesPositive(x: real, y: real)
    requires x >= 0.0 && y >= 0.0
    ensures x * y >= 0.0
  {
  }

  /** At every moment a bucket holds between nothing and its cap. */
  lemma LevelBounds(store: Store, cfg: Config, bucket: string, now: int)
    requires ConfigOk(cfg) && StoreOk(store, cfg)
    ensures 0.0 <= Level(store, bucket, Allowance(cfg, bucket), now) <= Allowance(cfg, bucket)
  {
    if bucket in store {
      EarnedFacts(Allowance(cfg, bucket), store[bucket].updatedAt, now, now);
    }
  }

  /** Waiting refills at the hourly rate at most. */
  lemma Refill(store: Store, cfg: Config, bucket: string, start: int, now: int)
    requires ConfigOk(cfg) && start <= now
    ensures var p := Allowance(cfg, bucket);
            Level(store, bucket, p, now) <= Level(store, bucket, p, start) + Earned(p, start, now)
  {
    var p := Allowance(cfg, bucket);
    EarnedFacts(p, start, start, now);
    EarnedFacts(p, start, now, now);
    if bucket in store {
      EarnedFacts(p, store[bucket].updatedAt, start, now);
    }
  }

  /** Writing a level back under the current time sets that bucket and no other. */
  lemma Put(store: Store, cfg: Config, name: string, tokens: real, now: int, bucket: string)
    requires ConfigOk(cfg) && StoreOk(store, cfg) && 0.0 <= tokens <= Allowance(cfg, name)
    ensures var t := store[name := Bucket(tokens, now)]; var p := Allowance(cfg, bucket);
            StoreOk(t, cfg) && Level(t, bucket, p, now)
              == if bucket == name then tokens else Level(store, bucket, p, now)
  {
    EarnedFacts(Allowance(cfg, name), now, now, now);
  }

  lemma Touch(store: Store, cfg: Config, name: string, now: int, bucket: string)
    requires ConfigOk(cfg) && StoreOk(store, cfg)
    ensures var t := Touched(store, name, Allowance(cfg, name), now); var p := Allowance(cfg, bucket);
            StoreOk(t, cfg) && Level(t, bucket, p, now) == Level(store, bucket, p, now)
  {
    if name !in store {
      Put(store, cfg, name, Allowance(cfg, name), now, bucket);
    }
  }

  lemma Allowances(cfg: Config, c: Call)
    requires CallOk(c)
    ensures Allowance(cfg, GlobalName(c)) == cfg.perGlobal
    ensures c.id.Some? ==> Allowance(cfg, BucketName(c.scope, c.id.value)) == cfg.perContact
    ensures c.id.Some? ==> GlobalName(c) != BucketName(c.scope, c.id.value)
  {
    if c.id.Some? {
      GlobalIsNoContact(OutgoingScope, c.scope, c.id.value);
      GlobalIsNoContact(IncomingScope, c.scope, c.id.value);
    }
  }

  /** The exact effect of a call, bucket by bucket: an admitted call takes one token from the
      global bucket and, for a known sender, one from that contact's; a refused call takes none
      from anyone; no other bucket moves. */
  lemma OneCall(store: Store, cfg: Config, c: Call, bucket: string)
    requires ConfigOk(cfg) && StoreOk(store, cfg) && CallOk(c)
    ensures StoreOk(AfterCall(store, cfg, c), cfg)
    ensures var p := Allowance(cfg, bucket);
            Level(AfterCall(store, cfg, c), bucket, p, c.now)
            == Level(store, bucket, p, c.now) - if Admits(store, cfg, c) && Charges(c, bucket) then 1.0 else 0.0
  {
    Allowances(cfg, c);
    var g := GlobalName(c);
    var s1 := Touched(store, g, cfg.perGlobal, c.now);
    Touch(store, cfg, g, c.now, bucket);
    LevelBounds(store, cfg, g, c.now);
    var global := Level(store, g, cfg.perGlobal, c.now);
    match c.id
    case None =>
      if global >= 1.0 {
        Put(s1, cfg, g, global - 1.0, c.now, bucket);
      }
    case Some(id) =>
      KnownSender(store, cfg, c, id, bucket);
  }

  lemma TakeBoth(store: Store, cfg: Config, k: string, g: string, contact: real, global: real, now: int, bucket: string)
    requires ConfigOk(cfg) && StoreOk(store, cfg) && k != g
    requires 0.0 <= contact <= Allowance(cfg, k) && 0.0 <= global <= Allowance(cfg, g)
    ensures var t := store[k := Bucket(contact, now)][g := Bucket(global, now)]; var p := Allowance(cfg, bucket);
            StoreOk(t, cfg)
            && Level(t, bucket, p, now)
               == if bucket == g then global else if bucket == k then contact else Level(store, bucket, p, now)
  {
    Put(store, cfg, k, contact, now, bucket);
    Put(store[k := Bucket(contact, now)], cfg, g, global, now, bucket);
  }

  /** A known sender is admitted exactly when both buckets hold a token. */
  lemma BothLevels(store: Store, cfg: Config, c: Call, id: string)
    requires ConfigOk(cfg) && StoreOk(store, cfg) && CallOk(c) && c.id == Some(id)
    ensures var g, k := GlobalName(c), BucketName(c.scope, id);
            var s1 := Touched(store, g, cfg.perGlobal, c.now);
            var global, contact := Level(store, g, cfg.perGlobal, c.now), Level(store, k, cfg.perContact, c.now);
            && Level(s1, k, cfg.perContact, c.now) == contact
            && (Admits(store, cfg, c) <==> contact >= 1.0 && global >= 1.0)
            && AfterCall(store, cfg, c)
               == var s2 := Touched(s1, k, cfg.perContact, c.now);
                  if Admits(store, cfg, c) then s2[k := Bucket(contact - 1.0, c.now)][g := Bucket(global - 1.0, c.now)]
                  else s2
  {
    Allowances(cfg, c);
    BothTouched(store, cfg, c, GlobalName(c), BucketName(c.scope, id), GlobalName(c));
  }

  lemma KnownSender(store: Store, cfg: Config, c: Call, id: string, bucket: string)
    requires ConfigOk(cfg) && StoreOk(store, cfg) && CallOk(c) && c.id == Some(id)
    ensures StoreOk(AfterCall(store, cfg, c), cfg)
    ensures var p := Allowance(cfg, bucket);
            Level(AfterCall(store, cfg, c), bucket, p, c.now)
            == Level(store, bucket, p, c.now) - if Admits(store, cfg, c) && Charges(c, bucket) then 1.0 else 0.0
  {
    Allowances(cfg, c);
    BothLevels(store, cfg, c, id);
    var g, k := GlobalName(c), BucketName(c.scope, id);
    BothTouched(store, cfg, c, g, k, bucket);
    if Admits(store, cfg, c) {
      var s2 := Touched(Touched(store, g, cfg.perGlobal, c.now), k, cfg.perContact, c.now);
      var global, contact := Level(store, g, cfg.perGlobal, c.now), Level(store, k, cfg.perContact, c.now);
      TakeBoth(s2, cfg, k, g, contact - 1.0, global - 1.0, c.now, bucket);
    }
  }

  /** Looking at both buckets of a known sender moves no level. */
  lemma BothTouched(store: Store, cfg: Config, c: Call, g: string, k: string, bucket: string)
    requires ConfigOk(cfg) && StoreOk(store, cfg)
    requires Allowance(cfg, g) == cfg.perGlobal && Allowance(cfg, k) == cfg.perContact
    ensures var s1 := Touched(store, g, cfg.perGlobal, c.now);
            var s2 := Touched(s1, k, cfg.perContact, c.now); var p := Allowance(cfg, bucket);
            && StoreOk(s2, cfg) && Level(s2, bucket, p, c.now) == Level(store, bucket, p, c.now)
            && Level(s1, k, cfg.perContact, c.now) == Level(store, k, cfg.perContact, c.now)
            && 0.0 <= Level(store, g, cfg.perGlobal, c.now) <= cfg.perGlobal
            && 0.0 <= Level(s1, k, cfg.perContact, c.now) <= cfg.perContact
  {
    var s1 := Touched(store, g, cfg.perGlobal, c.now);
    Touch(store, cfg, g, c.now, bucket);
    Touch(store, cfg, g, c.now, k);
    Touch(s1, cfg, k, c.now, bucket);
    LevelBounds(store, cfg, g, c.now);
    LevelBounds(s1, cfg, k, c.now);
  }

  // ---------------------------------------------------------------- whole runs

  function Run(store: Store, cfg: Config, calls: seq<Call>): Store
    decreases |calls|
  {
    if calls == [] then store else Run(AfterCall(store, cfg, calls[0]), cfg, calls[1..])
  }

  /** How many of the calls were admitted and charged to the bucket. */
  function Admitted(store: Store, cfg: Config, calls: seq<Call>, bucket: string): nat
    decreases |calls|
  {
    if calls == [] then 0
    else
      (if Admits(store, cfg, calls[0]) && Charges(calls[0], bucket) then 1 else 0)
      + Admitted(AfterCall(store, cfg, calls[0]), cfg, calls[1..], bucket)
  }

  /** The clock never runs back. */
  ghost predicate InOrder(calls: seq<Call>) {
    forall i, j :: 0 <= i <= j < |calls| ==> calls[i].now <= calls[j].now
  }

  ghost predicate CallsOk(calls: seq<Call>) {
    InOrder(calls) && forall i :: 0 <= i < |calls| ==> CallOk(calls[i])
  }

  /** What is admitted comes out of the level at the start and what is earned meanwhile. */
  lemma {:induction false} AdmittedIsPaidFor(store: Store, cfg: Config, calls: seq<Call>, bucket: string)
    requires ConfigOk(cfg) && StoreOk(store, cfg) && CallsOk(calls) && calls != []
    ensures var p := Allowance(cfg, bucket); var first, last := calls[0].now, calls[|calls| - 1].now;
            && StoreOk(Run(store, cfg, calls), cfg)
            && Admitted(store, cfg, calls, bucket) as real + Level(Run(store, cfg, calls), bucket, p, last)
               <= Level(store, bucket, p, first) + Earned(p, first, last)
    decreases |calls|
  {
    var p := Allowance(cfg, bucket);
    var t := AfterCall(store, cfg, calls[0]);
    OneCall(store, cfg, calls[0], bucket);
    if |calls| == 1 {
      assert calls[1..] == [];
      EarnedFacts(p, 0, calls[0].now, calls[0].now);
    } else {
      var rest := calls[1..];
      AdmittedIsPaidFor(t, cfg, rest, bucket);
      Refill(t, cfg, bucket, calls[0].now, calls[1].now);
      EarnedAdds(p, calls[0].now, calls[1].now, rest[|rest| - 1].now);
    }
  }

  lemma EarnedAdds(perHour: real, a: int, b: int, c: int)
    requires a <= b <= c
    ensures Earned(perHour, a, c) == Earned(perHour, a, b) + Earned(perHour, b, c)
  {
    var x, y := Elapsed(a, b) / HOUR_MS, Elapsed(b, c) / HOUR_MS;
    assert Elapsed(a, c) / HOUR_MS == x + y;
    assert (x + y) * perHour == x * perHour + y * perHour;
  }

  lemma Slices(calls: seq<Call>, i: nat, j: nat)
    requires CallsOk(calls) && i <= j <= |calls|
    ensures CallsOk(calls[i..j])
  {
    var part := calls[i..j];
    forall k, l | 0 <= k <= l < |part| ensures part[k].now <= part[l].now {
      assert part[k] == calls[i + k] && part[l] == calls[i + l];
    }
    forall k | 0 <= k < |part| ensures CallOk(part[k]) {
      assert part[k] == calls[i + k];
    }
  }

  lemma StaysOk(store: Store, cfg: Config, calls: seq<Call>, i: nat, bucket: string)
    requires ConfigOk(cfg) && StoreOk(store, cfg) && CallsOk(calls) && i <= |calls|
    ensures StoreOk(Run(store, cfg, calls[..i]), cfg)
  {
    if i > 0 {
      Slices(calls, 0, i);
      assert calls[0..i] == calls[..i];
      AdmittedIsPaidFor(store, cfg, calls[..i], bucket);
    }
  }

  lemma EarnedByTheHour(perHour: real, from: int, now: int)
    requires from <= now
    ensures Earned(perHour, from, now) == ((now - from) as real / 3_600_000.0) * perHour
  {
  }

  /** The allowance, and the allowance again for every 3,600,000 milliseconds. */
  predicate AtMostHourly(admitted: nat, perHour: real, ms: int) {
    admitted as real <= perHour + (ms as real / 3_600_000.0) * perHour
  }

  lemma HourlyBound(admitted: nat, perHour: real, from: int, now: int)
    requires from <= now && admitted as real <= perHour + Earned(perHour, from, now)
    ensures AtMostHourly(admitted, perHour, now - from)
  {
    EarnedByTheHour(perHour, from, now);
  }

  /** What a run of calls admits, from any store. */
  lemma AdmittedBound(s: Store, cfg: Config, calls: seq<Call>, bucket: string)
    requires ConfigOk(cfg) && StoreOk(s, cfg) && CallsOk(calls) && calls != []
    ensures Admitted(s, cfg, calls, bucket) as real
         <= Allowance(cfg, bucket) + Earned(Allowance(cfg, bucket), calls[0].now, calls[|calls| - 1].now)
  {
    AdmittedIsPaidFor(s, cfg, calls, bucket);
    LevelBounds(s, cfg, bucket, calls[0].now);
    LevelBounds(Run(s, cfg, calls), cfg, bucket, calls[|calls| - 1].now);
  }

  lemma AdmittedByTheHour(s: Store, cfg: Config, calls: seq<Call>, bucket: string)
    requires ConfigOk(cfg) && StoreOk(s, cfg) && CallsOk(calls) && calls != []
    ensures AtMostHourly(Admitted(s, cfg, calls, bucket), Allowance(cfg, bucket),
                         calls[|calls| - 1].now - calls[0].now)
  {
    AdmittedBound(s, cfg, calls, bucket);
    HourlyBound(Admitted(s, cfg, calls, bucket), Allowance(cfg, bucket), calls[0].now, calls[|calls| - 1].now);
  }

  /** Over any calls with a clock that does not run back, and any window of them, at most the
      hourly allowance p and p for every 3,600,000 milliseconds of the window's length is admitted for
      a bucket: for one contact c + c*T/hour, in total g + g*T/hour. Tokens stay between nothing and
      the cap. */
  lemma WindowBound(store: Store, cfg: Config, calls: seq<Call>, i: nat, j: nat, bucket: string)
    requires ConfigOk(cfg) && StoreOk(store, cfg) && CallsOk(calls) && i < j <= |calls|
    ensures var s := Run(store, cfg, calls[..i]);
            && AtMostHourly(Admitted(s, cfg, calls[i..j], bucket), Allowance(cfg, bucket),
                            calls[j - 1].now - calls[i].now)
            && StoreOk(s, cfg)
  {
    StaysOk(store, cfg, calls, i, bucket);
    Slices(calls, i, j);
    assert calls[i..j][0] == calls[i] && calls[i..j][j - i - 1] == calls[j - 1];
    AdmittedByTheHour(Run(store, cfg, calls[..i]), cfg, calls[i..j], bucket);
  }

  lemma ChargedNow(store: Store, cfg: Config, c: Call, bucket: string)
    requires CallOk(c) && Admits(store, cfg, c) && Charges(c, bucket)
    ensures bucket in AfterCall(store, cfg, c) && AfterCall(store, cfg, c)[bucket].updatedAt == c.now
  {
    Allowances(cfg, c);
  }

  /** A stored bucket, some milliseconds after it was written. */
  lemma LevelLater(store: Store, bucket: string, perHour: real, t: nat)
    requires bucket in store
    ensures var filled := store[bucket].tokens + (t as real / 3_600_000.0) * perHour;
            Level(store, bucket, perHour, store[bucket].updatedAt + t) == if filled <= perHour then filled else perHour
  {
    EarnedByTheHour(perHour, store[bucket].updatedAt, store[bucket].updatedAt + t);
  }

  lemma WrittenLevel(store: Store, cfg: Config, c: Call, bucket: string)
    requires ConfigOk(cfg) && StoreOk(store, cfg) && CallOk(c) && Admits(store, cfg, c) && Charges(c, bucket)
    ensures var t := AfterCall(store, cfg, c);
            && bucket in t && t[bucket].updatedAt == c.now
            && t[bucket].tokens == Level(store, bucket, Allowance(cfg, bucket), c.now) - 1.0
  {
    OneCall(store, cfg, c, bucket);
    ChargedNow(store, cfg, c, bucket);
    EarnedFacts(Allowance(cfg, bucket), c.now, c.now, c.now);
  }

  /** The other side: t milliseconds after a call that a bucket was charged for, it stands at what
      the call left and t/3,600,000 of its allowance more, up to the allowance. */
  lemma RefilledAtTheRate(store: Store, cfg: Config, c: Call, bucket: string, t: nat)
    requires ConfigOk(cfg) && StoreOk(store, cfg) && CallOk(c) && Admits(store, cfg, c) && Charges(c, bucket)
    ensures var p := Allowance(cfg, bucket);
            var filled := Level(store, bucket, p, c.now) - 1.0 + (t as real / 3_600_000.0) * p;
            Level(AfterCall(store, cfg, c), bucket, p, c.now + t) == if filled <= p then filled else p
  {
    WrittenLevel(store, cfg, c, bucket);
    LevelLater(AfterCall(store, cfg, c), bucket, Allowance(cfg, bucket), t);
  }

  /** Charges to contacts never exceed the charges to the global bucket: everything one contact
      is admitted for in a scope is also charged there. */
  lemma {:induction false} ContactChargesAreGlobalCharges(store: Store, cfg: Config, calls: seq<Call>, scope: Scope,
        id: string)
    requires IsHex(id)
    ensures Admitted(store, cfg, calls, BucketName(scope, id))
            <= Admitted(store, cfg, calls, BucketName(scope, "global"))
    decreases |calls|
  {
    if calls != [] {
      var c := calls[0];
      NamesDiffer(scope, id, c.scope, "global");
      NamesDiffer(scope, "global", c.scope, "global");
      if c.id.Some? {
        NamesDiffer(scope, id, c.scope, c.id.value);
      }
      GlobalIsNoContact(c.scope, scope, id);
      ContactChargesAreGlobalCharges(AfterCall(store, cfg, c), cfg, calls[1..], scope, id);
    }
  }

  // ---------------------------------------------------------------- the program

  class RateLimiter {
    const cfg: Config
    var store: Store

    constructor (cfg: Config)
      ensures this.cfg == cfg && store == map[]
    {
      this.cfg := cfg;
      store := map[];
    }

    method Refill(bucket: string, perHour: real, now: int) returns (tokens: real)
      modifies this
      ensures tokens == Level(old(store), bucket, perHour, now)
      ensures store == Touched(old(store), bucket, perHour, now)
    {
      if bucket !in store {
        store := store[bucket := Bucket(perHour, now)];
        return perHour;
      }
      var existing := store[bucket];
      var elapsed := if now <= existing.updatedAt then 0.0 else (now - existing.updatedAt) as real;
      tokens := Min(perHour, existing.tokens + (elapsed / HOUR_MS) * perHour);
    }

    method Consume(scope: Scope, id: Option<string>, now: int) returns (admitted: bool)
      requires CallOk(Call(scope, id, now))
      modifies this
      ensures admitted == Admits(old(store), cfg, Call(scope, id, now))
      ensures store == AfterCall(old(store), cfg, Call(scope, id, now))
    {
      Allowances(cfg, Call(scope, id, now));
      var global := Refill(BucketName(scope, "global"), cfg.perGlobal, now);
      if id.None? {
        if global < 1.0 {
          return false;
        }
        store := store[BucketName(scope, "global") := Bucket(global - 1.0, now)];
        return true;
      }
      var contact := Refill(BucketName(scope, id.value), cfg.perContact, now);
      if contact < 1.0 || global < 1.0 {
        return false;
      }
      store := store[BucketName(scope, id.value) := Bucket(contact - 1.0, now)];
      store := store[BucketName(scope, "global") := Bucket(global - 1.0, now)];
      return true;
    }

    method Available(scope: Scope, id: string, now: int) returns (whole: int)
      modifies this
      ensures whole == Level(old(store), BucketName(scope, id), cfg.perContact, now).Floor
      ensures store == Touched(old(store), BucketName(scope, id), cfg.perContact, now)
    {
      var tokens := Refill(BucketName(scope, id), cfg.perContact, now);
      whole := tokens.Floor;
    }
  }
}
