/** The background tick of a locked app: probe the cached route tags, notify about outpoints not
    seen before, remember the sighting. Which tags answer and whether the notification is posted
    is up to the network and the platform; cache writes succeed and the cached tags stay. */
module BackgroundSync {
  import opened Options

  type Outpoint = string

  datatype TagCache = TagCache(tags: seq<string>, lastSeen: seq<Outpoint>)

  datatype Outcome = Notified | Quiet | Idle

  /** Each cached tag's answer in order, None where the query failed. */
  datatype Tick = Tick(answers: seq<Option<seq<Outpoint>>>, notifyWorks: bool)

  datatype Result = Result(outcome: Outcome, cache: Option<TagCache>, notified: seq<Outpoint>)

  function NewOutpoints(lastSeen: seq<Outpoint>, current: seq<Outpoint>): (r: seq<Outpoint>)
    ensures forall x :: x in r <==> x in current && x !in lastSeen
  {
    if current == [] then []
    else (if current[0] in lastSeen then [] else [current[0]]) + NewOutpoints(lastSeen, current[1..])
  }

  function Deduplicated(items: seq<Outpoint>): (r: seq<Outpoint>)
    ensures forall x :: x in r <==> x in items
    ensures forall i, j :: 0 <= i < j < |r| ==> r[i] != r[j]
  {
    if items == [] then []
    else
      var front := Deduplicated(items[..|items| - 1]);
      if items[|items| - 1] in front then front else front + [items[|items| - 1]]
  }

  function Current(answers: seq<Option<seq<Outpoint>>>): (r: seq<Outpoint>)
    ensures forall i, x :: 0 <= i < |answers| && answers[i].Some? && x in answers[i].value ==> x in r
  {
    if answers == [] then []
    else
      var last := answers[|answers| - 1];
      Current(answers[..|answers| - 1]) + match last case None => [] case Some(found) => found
  }

  function Answered(answers: seq<Option<seq<Outpoint>>>): (n: nat)
    ensures n <= |answers|
    ensures n == |answers| <==> forall i :: 0 <= i < |answers| ==> answers[i].Some?
  {
    if answers == [] then 0
    else Answered(answers[..|answers| - 1]) + if answers[|answers| - 1].Some? then 1 else 0
  }

  /** One tick. `notified` lists what a successful notification counted. */
  function Ticked(cache: Option<TagCache>, t: Tick): Result {
    if cache.None? || cache.value.tags == [] then Result(Idle, cache, [])
    else
      var current := Current(t.answers);
      var unseen := NewOutpoints(cache.value.lastSeen, current);
      if Answered(t.answers) == 0 || (unseen != [] && !t.notifyWorks) then Result(Quiet, cache, [])
      else
        var lastSeen := if Answered(t.answers) == |cache.value.tags| then current
                        else Deduplicated(cache.value.lastSeen + current);
        Result(if unseen != [] then Notified else Quiet, Some(cache.value.(lastSeen := lastSeen)), unseen)
  }

  method RunLocked(cache: Option<TagCache>, t: Tick) returns (r: Result)
    requires cache.Some? ==> |t.answers| == |cache.value.tags|
    ensures r == Ticked(cache, t)
  {
    if cache.None? || cache.value.tags == [] {
      return Result(Idle, cache, []);
    }
    var current: seq<Outpoint> := [];
    var answered := 0;
    var i := 0;
    while i < |cache.value.tags|
      invariant 0 <= i <= |t.answers|
      invariant current == Current(t.answers[..i]) && answered == Answered(t.answers[..i])
    {
      assert t.answers[..i + 1][..i] == t.answers[..i];
      if t.answers[i].Some? {
        current := current + t.answers[i].value;
        answered := answered + 1;
      }
      i := i + 1;
    }
    assert t.answers[..i] == t.answers;
    if answered == 0 {
      return Result(Quiet, cache, []);
    }
    var unseen := NewOutpoints(cache.value.lastSeen, current);
    if |unseen| > 0 && !t.notifyWorks {
      return Result(Quiet, cache, []);
    }
    var lastSeen := if answered == |cache.value.tags| then current
                    else Deduplicated(cache.value.lastSeen + current);
    r := Result(if |unseen| > 0 then Notified else Quiet, Some(cache.value.(lastSeen := lastSeen)), unseen);
  }

  /** What a successful notification of this tick counts. */
  function CountedIn(cache: TagCache, t: Tick): seq<Outpoint> {
    Ticked(Some(cache), t).notified
  }

  /** A tick with an answer for each cached tag took the cache from `c` to `d`. */
  ghost predicate Link(c: TagCache, t: Tick, d: TagCache) {
    |t.answers| == |c.tags| && Ticked(Some(c), t).cache == Some(d)
  }

  /** What a tick remembers was remembered or is in its notification; what it notifies about is new
      and remembered; and what stays on chain is not forgotten. */
  lemma OneTick(c: TagCache, t: Tick, d: TagCache, x: Outpoint, k: nat)
    requires Link(c, t, d) && k < |c.tags|
    ensures d.tags == c.tags
    ensures x in d.lastSeen ==> x in c.lastSeen || x in CountedIn(c, t)
    ensures x in CountedIn(c, t) ==> x !in c.lastSeen && x in d.lastSeen
    ensures x in c.lastSeen && (t.answers[k].Some? ==> x in t.answers[k].value) ==> x in d.lastSeen
  {
    assert t.answers[k].Some? && x in t.answers[k].value ==> x in Current(t.answers);
    assert Answered(t.answers) == |c.tags| ==> t.answers[k].Some?;
  }

  // ---------------------------------------------------------------- runs

  /** The caches before and after each of a sequence of locked ticks; something is cached. */
  ghost predicate Trace(caches: seq<TagCache>, ticks: seq<Tick>) {
    && |caches| == |ticks| + 1
    && (forall i :: 0 <= i < |ticks| ==> Link(caches[i], ticks[i], caches[i + 1]))
    && (forall i :: 0 <= i < |caches| ==> caches[i].tags == caches[0].tags != [])
  }

  /** Everything remembered was there at the start or has been in a successful notification. */
  lemma {:induction false} RememberedMeansNotified(caches: seq<TagCache>, ticks: seq<Tick>, n: nat, x: Outpoint)
    requires Trace(caches, ticks) && n <= |ticks|
    requires x in caches[n].lastSeen && x !in caches[0].lastSeen
    ensures exists i :: 0 <= i < n && x in CountedIn(caches[i], ticks[i])
    decreases n
  {
    OneTick(caches[n - 1], ticks[n - 1], caches[n], x, 0);
    if x in caches[n - 1].lastSeen {
      RememberedMeansNotified(caches, ticks, n - 1, x);
    }
  }

  /** Outpoint `x` of tag `k` is on chain during ticks `from` up to `n`: the tag reports it
      whenever it answers. */
  ghost predicate StaysOnChain(ticks: seq<Tick>, x: Outpoint, k: nat, from: nat, n: nat)
    requires n <= |ticks|
  {
    forall i :: from <= i < n && k < |ticks[i].answers| && ticks[i].answers[k].Some? ==> x in ticks[i].answers[k].value
  }

  lemma {:induction false} RememberedWhileOnChain(caches: seq<TagCache>, ticks: seq<Tick>, x: Outpoint, k: nat,
        i: nat, n: nat)
    requires Trace(caches, ticks) && k < |caches[0].tags| && i <= n <= |ticks|
    requires x in caches[i].lastSeen && StaysOnChain(ticks, x, k, i, n)
    ensures x in caches[n].lastSeen
    decreases n
  {
    if i < n {
      RememberedWhileOnChain(caches, ticks, x, k, i, n - 1);
      var t := ticks[n - 1];
      assert Link(caches[n - 1], t, caches[n]) && k < |t.answers|;
      assert t.answers[k].Some? ==> x in t.answers[k].value;
      OneTick(caches[n - 1], t, caches[n], x, k);
    }
  }

  /** An outpoint that stays on chain is counted by at most one successful notification, whatever
      queries and notifications fail in between. */
  lemma CountedOnce(caches: seq<TagCache>, ticks: seq<Tick>, x: Outpoint, k: nat, i: nat, j: nat)
    requires Trace(caches, ticks) && k < |caches[0].tags| && i < j < |ticks|
    requires x in CountedIn(caches[i], ticks[i]) && StaysOnChain(ticks, x, k, i + 1, j)
    ensures x !in CountedIn(caches[j], ticks[j])
  {
    OneTick(caches[i], ticks[i], caches[i + 1], x, k);
    RememberedWhileOnChain(caches, ticks, x, k, i + 1, j);
    OneTick(caches[j], ticks[j], caches[j + 1], x, k);
  }

  /** Nothing waiting is lost: an outpoint some tag reports and that is not remembered is notified
      about in this tick, or the tick leaves the cache as it was for the next one. */
  lemma NothingIsLost(cache: TagCache, t: Tick, k: nat, x: Outpoint)
    requires |t.answers| == |cache.tags| && k < |cache.tags| && t.answers[k].Some? && x in t.answers[k].value
    requires x !in cache.lastSeen
    ensures var r := Ticked(Some(cache), t);
            if t.notifyWorks then r.outcome == Notified && x in r.notified else r.cache == Some(cache)
  {
    assert x in Current(t.answers) && x in NewOutpoints(cache.lastSeen, Current(t.answers));
    SomeAnswered(t.answers, k);
  }

  lemma {:induction false} SomeAnswered(answers: seq<Option<seq<Outpoint>>>, k: nat)
    requires k < |answers| && answers[k].Some?
    ensures Answered(answers) > 0
    decreases |answers|
  {
    if k < |answers| - 1 {
      SomeAnswered(answers[..|answers| - 1], k);
    }
  }

  // ---------------------------------------------------------------- one tick, exactly

  /** Some tag's answer lists the outpoint. */
  ghost predicate Reported(t: Tick, x: Outpoint) {
    exists k :: 0 <= k < |t.answers| && t.answers[k].Some? && x in t.answers[k].value
  }

  ghost predicate HasNews(cache: TagCache, t: Tick) {
    exists x :: Reported(t, x) && x !in cache.lastSeen
  }

  lemma {:induction false} CurrentIsReported(t: Tick, n: nat, x: Outpoint)
    requires n <= |t.answers| && x in Current(t.answers[..n])
    ensures Reported(t, x)
    decreases n
  {
    if n > 0 {
      assert t.answers[..n][..n - 1] == t.answers[..n - 1];
      if x in Current(t.answers[..n - 1]) {
        CurrentIsReported(t, n - 1, x);
      } else {
        assert t.answers[n - 1].Some? && x in t.answers[n - 1].value;
      }
    }
  }

  lemma CurrentExactly(t: Tick, x: Outpoint)
    ensures x in Current(t.answers) <==> Reported(t, x)
  {
    assert t.answers[..|t.answers|] == t.answers;
    if x in Current(t.answers) {
      CurrentIsReported(t, |t.answers|, x);
    }
  }

  lemma NewsExactly(cache: TagCache, t: Tick)
    ensures NewOutpoints(cache.lastSeen, Current(t.answers)) != [] <==> HasNews(cache, t)
  {
    var unseen := NewOutpoints(cache.lastSeen, Current(t.answers));
    if unseen != [] {
      assert unseen[0] in unseen;
      CurrentExactly(t, unseen[0]);
    }
    if HasNews(cache, t) {
      var x :| Reported(t, x) && x !in cache.lastSeen;
      CurrentExactly(t, x);
      assert x in unseen;
    }
  }

  lemma SilenceReportsNothing(t: Tick, x: Outpoint)
    requires Answered(t.answers) == 0
    ensures !Reported(t, x)
  {
    if Reported(t, x) {
      var k :| 0 <= k < |t.answers| && t.answers[k].Some? && x in t.answers[k].value;
      SomeAnswered(t.answers, k);
    }
  }

  /** What a tick tells the user and what it remembers, outpoint by outpoint: an answer of every tag
      replaces the memory, anything less adds to it, and unnotified news leaves it alone. */
  lemma TickExactly(cache: TagCache, t: Tick, x: Outpoint)
    requires |t.answers| == |cache.tags|
    ensures var r := Ticked(Some(cache), t);
            && (r.outcome == Idle <==> cache.tags == [])
            && (r.outcome == Notified <==> HasNews(cache, t) && t.notifyWorks)
            && (x in r.notified <==> Reported(t, x) && x !in cache.lastSeen && t.notifyWorks)
            && r.cache.Some? && r.cache.value.tags == cache.tags
            && (x in r.cache.value.lastSeen
                <==> if cache.tags == [] || (HasNews(cache, t) && !t.notifyWorks) then x in cache.lastSeen
                     else if forall k :: 0 <= k < |t.answers| ==> t.answers[k].Some? then Reported(t, x)
                     else x in cache.lastSeen || Reported(t, x))
  {
    CurrentExactly(t, x);
    NewsExactly(cache, t);
    if Answered(t.answers) == 0 {
      SilenceReportsNothing(t, x);
      NoNewsWithoutAnswer(cache, t);
    }
  }

  lemma NoNewsWithoutAnswer(cache: TagCache, t: Tick)
    requires Answered(t.answers) == 0
    ensures !HasNews(cache, t)
  {
    forall x ensures !Reported(t, x) {
      SilenceReportsNothing(t, x);
    }
  }
}
