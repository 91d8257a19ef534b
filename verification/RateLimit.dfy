/** The fixed-window rate limiter: a counter that is incremented by every request and expires after the window. */
module RateLimit {
  import opened Wrappers

  /**
   * One counter key; `count` is 0 while the key does not exist. `owed` says that the request that created the key has not
   * set its expiry yet. `life` numbers the lifetimes of the key and `born` is when the current one began.
   */
  datatype Counter = Counter(count: nat, expiresAt: Option<int>, owed: bool, life: nat, born: int)

  function NoCounter(): Counter {
    Counter(0, None, false, 0, 0)
  }

  /** The key as Redis sees it at time `at`. */
  function Seen(k: Counter, at: int): Counter {
    if k.expiresAt.Some? && k.expiresAt.value <= at then k.(count := 0, expiresAt := None) else k
  }

  /** `INCR`. */
  function Incremented(k: Counter, at: int): Counter {
    var seen := Seen(k, at);
    if seen.count == 0 then Counter(1, None, true, seen.life + 1, at) else seen.(count := seen.count + 1)
  }

  /** `EXPIRE`, sent by the request that saw the count at 1. */
  function Expiring(k: Counter, at: int, window: nat): Counter {
    if k.owed then k.(expiresAt := Some(at + window), owed := false) else k
  }

  /** A request whose two commands run back to back. */
  function Requested(k: Counter, at: int, window: nat): Counter {
    Expiring(Incremented(k, at), at, window)
  }

  datatype Key = Key(scope: string, actor: string)

  /** The limiter's keys; times are in milliseconds. */
  class Limiter {
    var counters: map<Key, Counter>

    function CounterOf(key: Key): Counter
      reads this
    {
      if key in counters then counters[key] else NoCounter()
    }

    /** Every call has sent both its commands. */
    ghost predicate Valid()
      reads this
    {
      forall key :: key in counters ==> !counters[key].owed
    }

    /** `enforceLimit`; refusing stands for the error it throws. */
    method EnforceLimit(scope: string, actor: string, maxRequests: int, windowSeconds: int, at: int) returns (admitted: bool)
      requires Valid()
      modifies this
      ensures actor == "" || maxRequests <= 0 || windowSeconds <= 0 ==> admitted && counters == old(counters)
      ensures actor != "" && maxRequests > 0 && windowSeconds > 0 ==>
        && counters == old(counters)[Key(scope, actor) := Requested(old(CounterOf(Key(scope, actor))), at, 1000 * windowSeconds)]
        && (admitted <==> counters[Key(scope, actor)].count <= maxRequests)
      ensures Valid()
    {
      if actor == "" || maxRequests <= 0 || windowSeconds <= 0 {
        return true;
      }
      var key := Key(scope, actor);
      counters := counters[key := Incremented(CounterOf(key), at)];
      var count := counters[key].count;
      if count == 1 {
        counters := counters[key := Expiring(counters[key], at, 1000 * windowSeconds)];
      }
      return count <= maxRequests;
    }
  }

  // ----- any number of requests, whose commands interleave -----

  /** The commands that reach one counter: a request's increment, or the expiry that the first request of a lifetime sets. */
  datatype Command = Incr(at: int) | Expire(at: int)

  function Do(k: Counter, command: Command, window: nat): Counter {
    match command
    case Incr(at) => Incremented(k, at)
    case Expire(at) => Expiring(k, at, window)
  }

  ghost predicate IsTrace(ks: seq<Counter>, commands: seq<Command>, window: nat) {
    && |ks| == |commands| + 1
    && ks[0] == NoCounter()
    && (forall i :: 0 <= i < |commands| ==> ks[i + 1] == Do(ks[i], commands[i], window))
    && (forall i, j :: 0 <= i <= j < |commands| ==> commands[i].at <= commands[j].at)
  }

  /** The lifetime and the count that the i-th command left. */
  function LifeAt(ks: seq<Counter>, i: nat): nat
    requires i + 1 < |ks|
  {
    ks[i + 1].life
  }

  function CountAt(ks: seq<Counter>, i: nat): nat
    requires i + 1 < |ks|
  {
    ks[i + 1].count
  }

  /** The i-th command is a request, and it is let through. */
  predicate Admits(ks: seq<Counter>, commands: seq<Command>, max: nat, i: nat) {
    |ks| == |commands| + 1 && i < |commands| && commands[i].Incr? && CountAt(ks, i) <= max
  }

  function AdmittedInLife(ks: seq<Counter>, commands: seq<Command>, max: nat, life: nat): set<nat>
    requires |ks| == |commands| + 1
  {
    set i: nat | i < |commands| && Admits(ks, commands, max, i) && LifeAt(ks, i) == life
  }

  /** The requests admitted from time `start` on and before `start + window`. */
  function AdmittedWithin(ks: seq<Counter>, commands: seq<Command>, max: nat, start: int, window: nat): set<nat>
    requires |ks| == |commands| + 1
  {
    set i: nat | i < |commands| && Admits(ks, commands, max, i) && start <= commands[i].at < start + window
  }

  /** A counter that exists began its lifetime, and expires no earlier than a window after that. */
  predicate Sane(k: Counter, window: nat, last: int) {
    && (k.count > 0 ==> k.born <= last)
    && (k.expiresAt.Some? ==> k.count > 0 && !k.owed && k.expiresAt.value >= k.born + window)
    && (k.count > 0 && k.expiresAt.None? ==> k.owed)
    && (k.life == 0 <==> k.count == 0)
  }

  lemma {:induction false} TraceIsSane(ks: seq<Counter>, commands: seq<Command>, window: nat, i: nat)
    requires IsTrace(ks, commands, window) && i < |commands|
    ensures Sane(ks[i + 1], window, commands[i].at)
  {
    if i > 0 {
      TraceIsSane(ks, commands, window, i - 1);
    }
    assert ks[i + 1] == Do(ks[i], commands[i], window);
  }

  /** Within a lifetime the count strictly grows; lifetimes succeed each other at least a window apart. */
  lemma {:induction false} Apart(ks: seq<Counter>, commands: seq<Command>, window: nat, i: nat, j: nat)
    requires IsTrace(ks, commands, window) && i < j < |commands| && commands[i].Incr?
    ensures LifeAt(ks, j) >= LifeAt(ks, i)
    ensures LifeAt(ks, j) == LifeAt(ks, i) ==>
      CountAt(ks, j) >= CountAt(ks, i) && ks[j + 1].born == ks[i + 1].born && (commands[j].Incr? ==> CountAt(ks, j) > CountAt(ks, i))
    ensures LifeAt(ks, j) > LifeAt(ks, i) ==> ks[j + 1].born >= commands[i].at && ks[j + 1].born >= ks[i + 1].born + window
    ensures LifeAt(ks, j) > LifeAt(ks, i) + 1 ==> ks[j + 1].born >= commands[i].at + window
    decreases j
  {
    TraceIsSane(ks, commands, window, j - 1);
    assert ks[j + 1] == Do(ks[j], commands[j], window);
    if i + 1 < j {
      Apart(ks, commands, window, i, j - 1);
    } else {
      assert ks[j] == Do(ks[i], commands[i], window);
    }
  }

  /** A set with distinct positive values up to `n` has at most `n` members. */
  lemma {:induction false} DistinctValuesBound(s: set<nat>, f: nat -> nat, n: nat)
    requires forall i :: i in s ==> 1 <= f(i) <= n
    requires forall i, j :: i in s && j in s && f(i) == f(j) ==> i == j
    ensures |s| <= n
    decreases n
  {
    if n == 0 {
      assert s == {};
    } else if i :| i in s && f(i) == n {
      DistinctValuesBound(s - {i}, f, n - 1);
    } else {
      DistinctValuesBound(s, f, n - 1);
    }
  }

  /** One lifetime of the key admits at most `max` requests, and one fewer when its first one is left out. */
  lemma LifetimeBound(ks: seq<Counter>, commands: seq<Command>, max: nat, window: nat, life: nat)
    requires IsTrace(ks, commands, window)
    ensures |AdmittedInLife(ks, commands, max, life)| <= max
  {
    CountsWithin(ks, commands, max, window, life, AdmittedInLife(ks, commands, max, life), 0);
  }

  lemma CountsWithin(ks: seq<Counter>, commands: seq<Command>, max: nat, window: nat, life: nat, s: set<nat>, skipped: nat)
    requires IsTrace(ks, commands, window) && s <= AdmittedInLife(ks, commands, max, life) && skipped <= max
    requires forall i :: i in s ==> CountAt(ks, i) > skipped
    ensures |s| <= max - skipped
  {
    var f := (i: nat) => if i < |commands| && CountAt(ks, i) > skipped then CountAt(ks, i) - skipped else 0;
    forall i, j | i in s && j in s && f(i) == f(j) ensures i == j {
      if i < j {
        Apart(ks, commands, window, i, j);
      } else if j < i {
        Apart(ks, commands, window, j, i);
      }
    }
    DistinctValuesBound(s, f, max - skipped);
  }

  /** The first request of a lifetime is made when it is born. */
  lemma FirstAtBirth(ks: seq<Counter>, commands: seq<Command>, window: nat, i: nat)
    requires IsTrace(ks, commands, window) && i < |commands| && commands[i].Incr?
    ensures CountAt(ks, i) >= 1 && (CountAt(ks, i) == 1 ==> ks[i + 1].born == commands[i].at)
  {
    assert ks[i + 1] == Do(ks[i], commands[i], window);
  }

  /** Any stretch of time as long as the window admits fewer than twice `max` requests, wherever it starts. */
  lemma WindowBound(ks: seq<Counter>, commands: seq<Command>, max: nat, window: nat, start: int)
    requires IsTrace(ks, commands, window) && max > 0
    ensures |AdmittedWithin(ks, commands, max, start, window)| <= 2 * max - 1
  {
    var s := AdmittedWithin(ks, commands, max, start, window);
    if s != {} {
      var first := Least(s);
      var life := LifeAt(ks, first);
      var early := set i | i in s && LifeAt(ks, i) == life;
      var late := set i | i in s && LifeAt(ks, i) == life + 1;
      forall i | i in s ensures i in early || i in late {
        LifeOf(ks, commands, max, window, start, first, i);
      }
      assert s == early + late;
      TwoLifetimes(ks, commands, max, window, start, life, early, late);
    }
  }

  lemma TwoLifetimes(ks: seq<Counter>, commands: seq<Command>, max: nat, window: nat, start: int, life: nat, early: set<nat>, late: set<nat>)
    requires IsTrace(ks, commands, window) && max > 0
    requires early <= AdmittedWithin(ks, commands, max, start, window) && forall i :: i in early ==> LifeAt(ks, i) == life
    requires late <= AdmittedWithin(ks, commands, max, start, window) && forall i :: i in late ==> LifeAt(ks, i) == life + 1
    ensures |early| + |late| <= 2 * max - 1
  {
    CountsWithin(ks, commands, max, window, life, early, 0);
    if j :| j in late {
      forall i | i in early ensures CountAt(ks, i) > 1 {
        NotTheFirst(ks, commands, max, window, start, i, j);
      }
      CountsWithin(ks, commands, max, window, life, early, 1);
      CountsWithin(ks, commands, max, window, life + 1, late, 0);
    }
  }

  lemma {:induction false} Least(s: set<nat>) returns (m: nat)
    requires s != {}
    ensures m in s && forall i :: i in s ==> m <= i
  {
    var k :| k in s;
    m := k;
    if i :| i in s && i < k {
      assert i in s - {k};
      m := Least(s - {k});
      assert forall j :: j in s ==> j == k || j in s - {k};
    }
  }

  lemma LifeOf(ks: seq<Counter>, commands: seq<Command>, max: nat, window: nat, start: int, i: nat, j: nat)
    requires IsTrace(ks, commands, window) && i <= j
    requires i in AdmittedWithin(ks, commands, max, start, window) && j in AdmittedWithin(ks, commands, max, start, window)
    ensures LifeAt(ks, j) == LifeAt(ks, i) || LifeAt(ks, j) == LifeAt(ks, i) + 1
  {
    if i < j {
      Apart(ks, commands, window, i, j);
      TraceIsSane(ks, commands, window, j);
    }
  }

  lemma NotTheFirst(ks: seq<Counter>, commands: seq<Command>, max: nat, window: nat, start: int, i: nat, j: nat)
    requires IsTrace(ks, commands, window)
    requires i in AdmittedWithin(ks, commands, max, start, window) && j in AdmittedWithin(ks, commands, max, start, window)
    requires LifeAt(ks, j) == LifeAt(ks, i) + 1
    ensures CountAt(ks, i) > 1
  {
    FirstAtBirth(ks, commands, window, i);
    if j < i {
      Apart(ks, commands, window, j, i);
    } else {
      Apart(ks, commands, window, i, j);
      TraceIsSane(ks, commands, window, j);
    }
  }

  /**
   * A schedule that meets the bound: a first request opens a lifetime, the others come just before it ends, and as many as
   * are let through come just after.
   */
  function TightCommand(max: nat, window: nat, i: nat): Command {
    if i == 0 then Incr(0)
    else if i == 1 then Expire(0)
    else if i <= max then Incr(window - 1)
    else if i == max + 2 then Expire(window)
    else Incr(window)
  }

  function TightCounter(max: nat, window: nat, i: nat): Counter {
    if i == 0 then NoCounter()
    else if i == 1 then Counter(1, None, true, 1, 0)
    else if i <= max + 1 then Counter(i - 1, Some(window), false, 1, 0)
    else if i == max + 2 then Counter(1, None, true, 2, window)
    else Counter(i - max - 2, Some(2 * window), false, 2, window)
  }

  lemma TightStep(max: nat, window: nat, i: nat)
    requires max > 0 && window > 0
    ensures TightCounter(max, window, i + 1) == Do(TightCounter(max, window, i), TightCommand(max, window, i), window)
  {
  }

  function Range(lo: nat, hi: nat): (r: set<nat>)
    requires lo <= hi
    ensures |r| == hi - lo && forall i: nat :: i in r <==> lo <= i < hi
    decreases hi - lo
  {
    if lo == hi then {} else Range(lo, hi - 1) + {hi - 1}
  }

  function TightCounters(max: nat, window: nat): seq<Counter> {
    seq(2 * max + 3, (i: nat) => TightCounter(max, window, i))
  }

  function TightCommands(max: nat, window: nat): seq<Command> {
    seq(2 * max + 2, (i: nat) => TightCommand(max, window, i))
  }

  lemma TightIsTrace(max: nat, window: nat)
    requires max > 0 && window > 0
    ensures IsTrace(TightCounters(max, window), TightCommands(max, window), window)
  {
    var ks, commands := TightCounters(max, window), TightCommands(max, window);
    forall i | 0 <= i < |commands| ensures ks[i + 1] == Do(ks[i], commands[i], window) {
      TightStep(max, window, i);
    }
  }

  lemma TightAdmits(max: nat, window: nat, i: nat)
    requires max > 0 && window > 1
    ensures i in AdmittedWithin(TightCounters(max, window), TightCommands(max, window), max, window - 1, window)
       <==> 2 <= i < max + 2 || max + 3 <= i < 2 * max + 2
  {
  }

  /** The bound is met, whatever the limit and the window (of more than one millisecond). */
  lemma BoundIsMet(max: nat, window: nat) returns (ks: seq<Counter>, commands: seq<Command>, start: int)
    requires max > 0 && window > 1
    ensures IsTrace(ks, commands, window) && |AdmittedWithin(ks, commands, max, start, window)| == 2 * max - 1
  {
    ks, commands, start := TightCounters(max, window), TightCommands(max, window), window - 1;
    TightIsTrace(max, window);
    var admitted := AdmittedWithin(ks, commands, max, start, window);
    var early, late := Range(2, max + 2), Range(max + 3, 2 * max + 2);
    forall i: nat ensures i in admitted <==> i in early || i in late {
      TightAdmits(max, window, i);
    }
    Disjoint(admitted, early, late);
  }

  lemma Disjoint(all: set<nat>, early: set<nat>, late: set<nat>)
    requires early !! late && forall i: nat :: i in all <==> i in early || i in late
    ensures |all| == |early| + |late|
  {
    assert all == early + late;
  }
}
