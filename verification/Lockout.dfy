/** internal/state/state.go: the lock after repeated failed claim verifications, as a function of the history. */
module Lockout {
  import opened Basics

  const FAIL_THRESHOLD := 5
  const LOCK_SECONDS := 300.0

  /** Times are in seconds. IsLocked reads the clock twice: once for its answer, once for the reset. */
  datatype Event = Failure(at: real) | Check(first: real, second: real)

  function Begins(e: Event): real { if e.Failure? then e.at else e.first }
  function Ends(e: Event): real { if e.Failure? then e.at else e.second }

  /** The clock never goes back. */
  ghost predicate Ordered(h: seq<Event>) {
    && (forall i :: 0 <= i < |h| ==> Begins(h[i]) <= Ends(h[i]))
    && (forall i, j :: 0 <= i < j < |h| ==> Ends(h[i]) <= Begins(h[j]))
  }

  // ----- the code -----

  datatype Counter = Counter(failCount: nat, lockUntil: Option<real>)

  const ZERO: Counter := Counter(0, None)

  predicate LockedAt(c: Counter, now: real) {
    c.lockUntil.Some? && now < c.lockUntil.value
  }

  function Step(c: Counter, e: Event): Counter {
    match e
    case Failure(at) =>
      Counter(c.failCount + 1, if c.failCount + 1 >= FAIL_THRESHOLD then Some(at + LOCK_SECONDS) else c.lockUntil)
    case Check(first, second) =>
      if !LockedAt(c, first) && c.lockUntil.Some? && second > c.lockUntil.value then c.(failCount := 0) else c
  }

  function After(h: seq<Event>): Counter {
    if h == [] then ZERO else Step(After(h[..|h| - 1]), h[|h| - 1])
  }

  class VerifyState {
    var failCount: nat
    var lockUntil: Option<real>
    ghost var history: seq<Event>

    ghost predicate Valid()
      reads this
    {
      Counter(failCount, lockUntil) == After(history)
    }

    constructor ()
      ensures Valid() && history == []
    {
      failCount, lockUntil, history := 0, None, [];
    }

    method RecordVerifyFailure(now: real)
      requires Valid()
      modifies this
      ensures Valid() && history == old(history) + [Failure(now)]
    {
      history := history + [Failure(now)];
      assert history[..|history| - 1] == old(history);
      failCount := failCount + 1;
      if failCount >= FAIL_THRESHOLD {
        lockUntil := Some(now + LOCK_SECONDS);
      }
    }

    method IsLocked(first: real, second: real) returns (locked: bool)
      requires Valid()
      modifies this
      ensures Valid() && history == old(history) + [Check(first, second)]
      ensures locked == LockedAt(After(old(history)), first)
    {
      history := history + [Check(first, second)];
      assert history[..|history| - 1] == old(history);
      if lockUntil.Some? && first < lockUntil.value {
        return true;
      }
      if lockUntil.Some? && second > lockUntil.value {
        failCount := 0;
      }
      locked := false;
    }
  }

  // ----- the history -----

  function FailuresIn(h: seq<Event>, from: nat, upto: nat): nat
    requires upto <= |h|
    decreases upto
  {
    if upto <= from then 0 else FailuresIn(h, from, upto - 1) + if h[upto - 1].Failure? then 1 else 0
  }

  /** Event i is a failure, at least the fifth one since the last check that reset the count. */
  ghost predicate Locks(h: seq<Event>, i: nat)
    requires i < |h|
    decreases i, 2
  {
    h[i].Failure? && FailuresIn(h, SinceReset(h, i), i + 1) >= 5
  }

  /** Event j is a check made after every lock so far has run out, with at least one such lock. */
  ghost predicate Resets(h: seq<Event>, j: nat)
    requires j < |h|
    decreases j, 1
  {
    && h[j].Check?
    && (exists i :: 0 <= i < j && Locks(h, i))
    && (forall i :: 0 <= i < j && Locks(h, i) ==> h[i].at + 300.0 <= h[j].first && h[i].at + 300.0 < h[j].second)
  }

  /** The position after the last reset among the first n events. */
  ghost function SinceReset(h: seq<Event>, n: nat): (r: nat)
    requires n <= |h|
    ensures r <= n
    decreases n, 0
  {
    if n == 0 then 0 else if Resets(h, n - 1) then n else SinceReset(h, n - 1)
  }

  /** Longer histories agree on their common part. */
  lemma {:induction false} SamePast(h: seq<Event>, g: seq<Event>, n: nat)
    requires n <= |h| && n <= |g| && h[..n] == g[..n]
    ensures SinceReset(h, n) == SinceReset(g, n)
    ensures n < |h| && n < |g| && h[n] == g[n] ==> (Locks(h, n) <==> Locks(g, n)) && (Resets(h, n) <==> Resets(g, n))
    decreases n
  {
    forall i | 0 <= i < n
      ensures h[i] == g[i] && SinceReset(h, i) == SinceReset(g, i) && (Locks(h, i) <==> Locks(g, i)) && (Resets(h, i) <==> Resets(g, i))
    {
      assert h[i] == h[..n][i] && g[i] == g[..n][i];
      assert h[..i] == h[..n][..i] && g[..i] == g[..n][..i];
      SamePast(h, g, i);
    }
    if n < |h| && n < |g| && h[n] == g[n] {
      SameFailures(h, g, SinceReset(h, n), n + 1);
    }
  }

  lemma {:induction false} SameFailures(h: seq<Event>, g: seq<Event>, from: nat, upto: nat)
    requires upto <= |h| && upto <= |g| && forall i :: 0 <= i < upto ==> h[i] == g[i]
    ensures FailuresIn(h, from, upto) == FailuresIn(g, from, upto)
    decreases upto
  {
    if upto > from {
      SameFailures(h, g, from, upto - 1);
    }
  }

  /** The fields of the code, read off the history. */
  ghost predicate Agrees(h: seq<Event>) {
    var c := After(h);
    && c.failCount == FailuresIn(h, SinceReset(h, |h|), |h|)
    && (c.lockUntil.None? ==> forall i :: 0 <= i < |h| ==> !Locks(h, i))
    && (c.lockUntil.Some? ==>
          && (exists i :: 0 <= i < |h| && Locks(h, i) && h[i].at + 300.0 == c.lockUntil.value)
          && (forall i :: 0 <= i < |h| && Locks(h, i) ==> h[i].at + 300.0 <= c.lockUntil.value))
  }

  /** What is known of a history once its last event is split off. */
  ghost predicate Split(h: seq<Event>, g: seq<Event>) {
    var n := |g|;
    && |h| == n + 1
    && Agrees(g)
    && After(h) == Step(After(g), h[n])
    && (forall i :: 0 <= i < n ==> h[i] == g[i] && (Locks(h, i) <==> Locks(g, i)) && (Locks(h, i) ==> h[i].Failure?))
    && SinceReset(h, n) == SinceReset(g, n)
    && FailuresIn(h, SinceReset(h, n), n) == FailuresIn(g, SinceReset(g, n), n)
  }

  lemma AfterFailure(h: seq<Event>, g: seq<Event>)
    requires Split(h, g) && h[|g|].Failure?
    requires forall i :: 0 <= i < |g| ==> Ends(g[i]) <= h[|g|].at
    ensures Agrees(h)
  {
    var n, c := |g|, After(g);
    assert !Resets(h, n);
    assert FailuresIn(h, SinceReset(h, n + 1), n + 1) == c.failCount + 1;
    assert Locks(h, n) <==> c.failCount + 1 >= 5;
    hide FailuresIn, SinceReset, Resets, Locks, After;
    if c.lockUntil.Some? {
      var i :| 0 <= i < n && Locks(g, i) && g[i].at + 300.0 == c.lockUntil.value;
      assert Locks(h, i) && h[i].at + 300.0 == c.lockUntil.value;
    }
    if Locks(h, n) {
      forall i | 0 <= i < n && Locks(h, i)
        ensures h[i].at <= h[n].at
      {
        assert Ends(g[i]) <= h[n].at;
      }
      assert h[n].at + 300.0 == After(h).lockUntil.value;
    }
  }

  /** A check resets exactly when the code sets its count to zero. */
  lemma ResetsWhen(h: seq<Event>, g: seq<Event>)
    requires Split(h, g) && h[|g|].Check?
    ensures Resets(h, |g|) <==>
      After(g).lockUntil.Some? && After(g).lockUntil.value <= h[|g|].first && After(g).lockUntil.value < h[|g|].second
  {
    hide FailuresIn, SinceReset, Locks, After;
    var n, c := |g|, After(g);
    if c.lockUntil.Some? {
      var i :| 0 <= i < n && Locks(g, i) && g[i].at + 300.0 == c.lockUntil.value;
      assert Locks(h, i) && h[i].at + 300.0 == c.lockUntil.value;
    }
  }

  lemma AfterCheck(h: seq<Event>, g: seq<Event>)
    requires Split(h, g) && h[|g|].Check?
    ensures Agrees(h)
  {
    ResetsWhen(h, g);
    var n, c := |g|, After(g);
    assert !Locks(h, n);
    assert FailuresIn(h, SinceReset(h, n + 1), n + 1) == if Resets(h, n) then 0 else c.failCount;
    hide FailuresIn, SinceReset, Resets, Locks, After;
    if c.lockUntil.Some? {
      var i :| 0 <= i < n && Locks(g, i) && g[i].at + 300.0 == c.lockUntil.value;
      assert Locks(h, i) && h[i].at + 300.0 == c.lockUntil.value;
    }
  }

  lemma {:induction false} CodeAgrees(h: seq<Event>)
    requires Ordered(h)
    ensures Agrees(h)
  {
    if h != [] {
      var n := |h| - 1;
      var g := h[..n];
      CodeAgrees(g);
      SplitLast(h);
      if h[n].Failure? {
        assert forall i :: 0 <= i < n ==> Ends(h[i]) <= Begins(h[n]);
        AfterFailure(h, g);
      } else {
        AfterCheck(h, g);
      }
    }
  }

  lemma SplitLast(h: seq<Event>)
    requires h != [] && Agrees(h[..|h| - 1])
    ensures Split(h, h[..|h| - 1])
  {
    hide Agrees, Step;
    var n := |h| - 1;
    var g := h[..n];
    forall i | 0 <= i < n
      ensures h[i] == g[i] && (Locks(h, i) <==> Locks(g, i))
    {
      assert h[..i] == g[..i];
      SamePast(h, g, i);
    }
    assert h[..n] == g[..n];
    SamePast(h, g, n);
    SameFailures(h, g, SinceReset(g, n), n);
  }

  /**
   * IsLocked answers true at a time t if and only if some earlier failure less than 300 s before t was at least the
   * fifth since the last resetting check.
   */
  lemma LockedIff(h: seq<Event>, t: real)
    requires Ordered(h)
    ensures LockedAt(After(h), t) <==> exists i :: 0 <= i < |h| && Locks(h, i) && t < h[i].at + 300.0
  {
    CodeAgrees(h);
  }

  /** The lock never ends earlier than it was going to. */
  lemma LockUntilGrows(h: seq<Event>, e: Event)
    requires Ordered(h + [e])
    ensures After(h).lockUntil.Some? ==>
      After(h + [e]).lockUntil.Some? && After(h).lockUntil.value <= After(h + [e]).lockUntil.value
  {
    var g := h + [e];
    assert g[..|g| - 1] == h;
    forall i | 0 <= i < |h|
      ensures h[i] == g[i] && Ends(h[i]) <= Begins(e)
    {
      assert g[|h|] == e && Ends(g[i]) <= Begins(g[|h|]);
    }
    assert Ordered(h) by {
      forall i, j | 0 <= i < j < |h| ensures Ends(h[i]) <= Begins(h[j]) { assert g[i] == h[i] && g[j] == h[j]; }
    }
    CodeAgrees(h);
  }
}
