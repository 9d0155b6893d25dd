/** Cost parameters of the password KDF: the caps every recorded set must meet and the defaults
    creation fills in. The derivations themselves are library code. */
module Kdf {
  import opened Options

  datatype Cost =
    | Argon2id(m: nat, t: nat, lanes: nat)
    | Scrypt(logN: nat, r: nat, parallel: nat)

  /** The caps, applied to parsed files and to creation overrides alike. */
  predicate ValidCost(c: Cost) {
    match c
    case Argon2id(m, t, p) => 8 <= m <= 1_048_576 && 1 <= t <= 16 && 1 <= p <= 8 && m >= 8 * p
    case Scrypt(logN, r, p) => 1 <= logN <= 20 && 1 <= r <= 8 && 1 <= p <= 8
  }

  const SALT_MIN: nat := 8
  const SALT_MAX: nat := 64

  datatype CostOptions =
    | Argon2idOptions(m: Option<nat>, t: Option<nat>, lanes: Option<nat>)
    | ScryptOptions(logN: Option<nat>, r: Option<nat>, parallel: Option<nat>)

  function Or(o: Option<nat>, default: nat): nat {
    match o case Some(v) => v case None => default
  }

  /** Anything omitted falls back to the default profile. */
  function Resolve(options: Option<CostOptions>): Cost {
    match options
    case None => Argon2id(65_536, 3, 1)
    case Some(Argon2idOptions(m, t, p)) => Argon2id(Or(m, 65_536), Or(t, 3), Or(p, 1))
    case Some(ScryptOptions(logN, r, p)) => Scrypt(Or(logN, 17), Or(r, 8), Or(p, 1))
  }

  /** What creation uses when nothing is asked for, and that every default is within the caps: Argon2id
      over 64 MiB in three passes on one lane; scrypt, when asked for, with N = 2^17, r = 8, p = 1. */
  lemma Defaults(m: Option<nat>, r: Option<nat>)
    ensures Resolve(None) == Argon2id(65_536, 3, 1) && ValidCost(Resolve(None))
    ensures Resolve(Some(Argon2idOptions(m, None, None))) == Argon2id(if m.Some? then m.value else 65_536, 3, 1)
    ensures Resolve(Some(ScryptOptions(None, r, None))) == Scrypt(17, if r.Some? then r.value else 8, 1)
    ensures ValidCost(Resolve(Some(ScryptOptions(None, None, None))))
  {
  }
}
