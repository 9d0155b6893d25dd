/** Runs of a system that is left to itself: the same step over and over. */
module Undisturbed {

  function Iterate<T>(step: T -> T, x: T, n: nat): T
    decreases n
  {
    if n == 0 then x else Iterate(step, step(x), n - 1)
  }

  ghost predicate OverBy<T>(step: T -> T, x: T, y: T, m: nat) {
    forall n: nat :: n >= m ==> Iterate(step, x, n) == y
  }

  /** From some point on nothing changes any more, and this is how things stand. */
  ghost predicate EndsAs<T>(step: T -> T, x: T, y: T) {
    exists m: nat :: OverBy(step, x, y, m)
  }

  /** The states on the way from one to the other. */
  ghost predicate IsPath<T(!new)>(step: T -> T, path: seq<T>, x: T, y: T) {
    && path != [] && path[0] == x && path[|path| - 1] == y
    && forall i :: 0 < i < |path| ==> path[i] == step(path[i - 1])
  }

  ghost predicate Leads<T(!new)>(step: T -> T, x: T, y: T) {
    exists path :: IsPath(step, path, x, y)
  }

  lemma Stays<T(!new)>(step: T -> T, x: T)
    ensures Leads(step, x, x)
  {
    assert IsPath(step, [x], x, x);
  }

  lemma Next<T(!new)>(step: T -> T, x: T, y: T)
    requires step(x) == y
    ensures Leads(step, x, y)
  {
    assert IsPath(step, [x, y], x, y);
  }

  lemma Then<T(!new)>(step: T -> T, x: T, y: T, z: T)
    requires Leads(step, x, y) && Leads(step, y, z)
    ensures Leads(step, x, z)
  {
    var a :| IsPath(step, a, x, y);
    var b :| IsPath(step, b, y, z);
    var path := a + b[1..];
    forall i | 0 < i < |path| ensures path[i] == step(path[i - 1]) {
      if i >= |a| {
        assert path[i] == b[i - |a| + 1] && path[i - 1] == b[i - |a|];
      }
    }
    assert IsPath(step, path, x, z);
  }

  lemma {:induction false} AlongThePath<T(!new)>(step: T -> T, path: seq<T>, x: T, y: T)
    requires IsPath(step, path, x, y)
    ensures Iterate(step, x, |path| - 1) == y
    decreases |path|
  {
    if |path| > 1 {
      assert path[1] == step(x);
      assert forall i :: 0 < i < |path[1..]| ==> path[1..][i] == path[i + 1] && path[1..][i - 1] == path[i];
      AlongThePath(step, path[1..], path[1], y);
    }
  }

  lemma {:induction false} IterateAdds<T>(step: T -> T, x: T, a: nat, b: nat)
    ensures Iterate(step, x, a + b) == Iterate(step, Iterate(step, x, a), b)
    decreases a
  {
    if a > 0 {
      IterateAdds(step, step(x), a - 1, b);
    }
  }

  lemma {:induction false} IterateRests<T>(step: T -> T, x: T, n: nat)
    requires step(x) == x
    ensures Iterate(step, x, n) == x
    decreases n
  {
    if n > 0 {
      IterateRests(step, x, n - 1);
    }
  }

  lemma Ends<T(!new)>(step: T -> T, x: T, y: T)
    requires Leads(step, x, y) && step(y) == y
    ensures EndsAs(step, x, y)
  {
    var path :| IsPath(step, path, x, y);
    var m := |path| - 1;
    AlongThePath(step, path, x, y);
    forall n: nat | n >= m ensures Iterate(step, x, n) == y {
      IterateAdds(step, x, m, n - m);
      IterateRests(step, y, n - m);
    }
    assert OverBy(step, x, y, m);
  }

  /** Only one end is possible. */
  lemma OneEnd<T>(step: T -> T, x: T, y: T, z: T)
    requires EndsAs(step, x, y) && EndsAs(step, x, z)
    ensures y == z
  {
    var m: nat :| OverBy(step, x, y, m);
    var n: nat :| OverBy(step, x, z, n);
    assert Iterate(step, x, m + n) == y && Iterate(step, x, m + n) == z;
  }
}
