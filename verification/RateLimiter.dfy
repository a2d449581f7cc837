/** The fixed-window limiter of authentication attempts. */
module RateLimiter {
  import opened Wrappers

  const WINDOW := 15 * 60 * 1000

  const LIMIT := 10

  datatype Window = Window(count: nat, resetAt: int)

  type Limits = map<string, Window>

  datatype Attempt = Attempt(key: string, now: int)

  /** The window of the key after an attempt: a new one when there is none or it is over. */
  function Counted(limits: Limits, a: Attempt): Window {
    var current := if a.key in limits then limits[a.key] else Window(0, a.now + WINDOW);
    var open := if current.resetAt <= a.now then Window(0, a.now + WINDOW) else current;
    open.(count := open.count + 1)
  }

  function Step(limits: Limits, a: Attempt): Limits { limits[a.key := Counted(limits, a)] }

  function After(es: seq<Attempt>): Limits {
    if es == [] then map[] else Step(After(es[..|es| - 1]), es[|es| - 1])
  }

  /** The window attempt `i` falls into, as it stands then. */
  function WindowOf(es: seq<Attempt>, i: nat): Window
    requires i < |es|
  {
    Counted(After(es[..i]), es[i])
  }

  predicate Admitted(es: seq<Attempt>, i: nat)
    requires i < |es|
  {
    WindowOf(es, i).count <= LIMIT
  }

  class AuthRateLimits {
    var limits: Limits

    constructor ()
      ensures limits == map[]
    {
      limits := map[];
    }

    method AllowAuthAttempt(key: string, now: int) returns (allowed: bool)
      modifies this
      ensures limits == Step(old(limits), Attempt(key, now))
      ensures allowed == (Counted(old(limits), Attempt(key, now)).count <= LIMIT)
    {
      var current := if key in limits then limits[key] else Window(0, now + WINDOW);
      if current.resetAt <= now { current := Window(0, now + WINDOW); }
      current := current.(count := current.count + 1);
      limits := limits[key := current];
      allowed := current.count <= LIMIT;
    }
  }

  // ---------------------------------------------------------------------- counting

  /** How many of the first `n` attempts of the key were admitted in the window that ends at `r`. */
  function InWindow(es: seq<Attempt>, key: string, r: int, n: nat): nat
    requires n <= |es|
  {
    if n == 0 then 0 else
    InWindow(es, key, r, n - 1) +
    if es[n - 1].key == key && WindowOf(es, n - 1).resetAt == r && Admitted(es, n - 1) then 1 else 0
  }

  /** How many of them were admitted at a time from `lo` to `hi`, both included. */
  function InInterval(es: seq<Attempt>, key: string, lo: int, hi: int, n: nat): nat
    requires n <= |es|
  {
    if n == 0 then 0 else
    InInterval(es, key, lo, hi, n - 1) +
    if es[n - 1].key == key && lo <= es[n - 1].now <= hi && Admitted(es, n - 1) then 1 else 0
  }

  predicate ClockAdvances(es: seq<Attempt>) {
    forall i, j :: 0 <= i < j < |es| ==> es[i].now <= es[j].now
  }

  lemma {:induction false} StateAfter(es: seq<Attempt>, n: nat)
    requires n < |es|
    ensures After(es[..n + 1]) == After(es[..n])[es[n].key := WindowOf(es, n)]
  {
    assert es[..n + 1][..n] == es[..n];
  }

  /** The window kept for a key after `n` attempts is the latest, counts at least what it admitted, and
      was open at the last attempt. */
  lemma {:induction false} WindowCounts(es: seq<Attempt>, key: string, n: nat, r: int)
    requires n <= |es| && ClockAdvances(es)
    ensures key !in After(es[..n]) ==> InWindow(es, key, r, n) == 0
    ensures key in After(es[..n]) ==>
              var w := After(es[..n])[key];
              && (n > 0 && w.resetAt <= es[n - 1].now + WINDOW)
              && (r > w.resetAt ==> InWindow(es, key, r, n) == 0)
              && (r == w.resetAt ==> InWindow(es, key, r, n) <= w.count)
    ensures InWindow(es, key, r, n) <= LIMIT
  {
    if n > 0 {
      WindowCounts(es, key, n - 1, r);
      StateAfter(es, n - 1);
      if n > 1 { assert es[n - 2].now <= es[n - 1].now; }
    }
  }

  /** A window admits at most ten attempts of a key. */
  lemma {:induction false} AtMostTenPerWindow(es: seq<Attempt>, key: string, r: int)
    requires ClockAdvances(es)
    ensures InWindow(es, key, r, |es|) <= 10
  {
    WindowCounts(es, key, |es|, r);
  }

  /** After `i`, the window of a key moves only forward, and by at least a full window. */
  lemma {:induction false} WindowsMoveForward(es: seq<Attempt>, i: nat, n: nat)
    requires i < n <= |es| && ClockAdvances(es)
    ensures var w := WindowOf(es, i); es[i].now < w.resetAt <= es[i].now + WINDOW
    ensures es[i].key in After(es[..n]) && var w, later := WindowOf(es, i).resetAt, After(es[..n])[es[i].key].resetAt;
              w == later || w + WINDOW <= later
    decreases n
  {
    if i > 0 { ResetIsNear(es, es[i].key, i); }
    StateAfter(es, n - 1);
    if i < n - 1 {
      WindowsMoveForward(es, i, n - 1);
    }
  }

  lemma {:induction false} ResetIsNear(es: seq<Attempt>, key: string, n: nat)
    requires 0 < n <= |es| && ClockAdvances(es)
    ensures key in After(es[..n]) ==> After(es[..n])[key].resetAt <= es[n - 1].now + WINDOW
  {
    WindowCounts(es, key, n, 0);
  }

  /** Two attempts of one key are in the same window or in windows that end a window apart. */
  lemma {:induction false} WindowsAreApart(es: seq<Attempt>, i: nat, j: nat)
    requires i < j < |es| && es[i].key == es[j].key && ClockAdvances(es)
    ensures var r, q := WindowOf(es, i).resetAt, WindowOf(es, j).resetAt; r == q || r + WINDOW <= q
    ensures es[i].now < WindowOf(es, i).resetAt && WindowOf(es, j).resetAt <= es[j].now + WINDOW
  {
    WindowsMoveForward(es, i, j);
    WindowsMoveForward(es, i, j + 1);
    WindowsMoveForward(es, j, j + 1);
    StateAfter(es, j);
  }

  predicate Hit(es: seq<Attempt>, key: string, lo: int, hi: int, i: nat) {
    i < |es| && es[i].key == key && lo <= es[i].now <= hi
  }

  lemma {:induction false} FirstHit(es: seq<Attempt>, key: string, lo: int, hi: int, n: nat) returns (f: nat)
    requires n <= |es|
    ensures f <= n && (f < n ==> Hit(es, key, lo, hi, f)) && forall i: nat :: i < f ==> !Hit(es, key, lo, hi, i)
  {
    f := 0;
    while f < n && !Hit(es, key, lo, hi, f)
      invariant f <= n && forall i: nat :: i < f ==> !Hit(es, key, lo, hi, i)
    {
      f := f + 1;
    }
  }

  lemma {:induction false} LastHit(es: seq<Attempt>, key: string, lo: int, hi: int, f: nat, n: nat) returns (l: nat)
    requires f < n <= |es| && Hit(es, key, lo, hi, f)
    ensures f <= l < n && Hit(es, key, lo, hi, l) && forall i: nat :: l < i < n ==> !Hit(es, key, lo, hi, i)
  {
    l := n - 1;
    while !Hit(es, key, lo, hi, l)
      invariant f <= l < n && forall i: nat :: l < i < n ==> !Hit(es, key, lo, hi, i)
      decreases l
    {
      l := l - 1;
    }
  }

  /** Between the first and the last attempt of a fifteen-minute interval no third window fits. */
  lemma {:induction false} NoThirdWindow(es: seq<Attempt>, key: string, lo: int, f: nat, i: nat, l: nat)
    requires f <= i <= l < |es| && ClockAdvances(es)
    requires Hit(es, key, lo, lo + WINDOW, f) && Hit(es, key, lo, lo + WINDOW, i) && Hit(es, key, lo, lo + WINDOW, l)
    ensures WindowOf(es, i).resetAt == WindowOf(es, f).resetAt || WindowOf(es, i).resetAt == WindowOf(es, l).resetAt
  {
    if f < i < l {
      WindowsAreApart(es, f, i);
      WindowsAreApart(es, i, l);
    }
  }

  /** The attempts of a fifteen-minute interval fall into at most two windows. */
  lemma {:induction false} TwoWindows(es: seq<Attempt>, key: string, lo: int) returns (r: int, q: int)
    requires ClockAdvances(es)
    ensures forall i: nat :: i < |es| && Hit(es, key, lo, lo + WINDOW, i) ==>
              WindowOf(es, i).resetAt == r || WindowOf(es, i).resetAt == q
  {
    var f := FirstHit(es, key, lo, lo + WINDOW, |es|);
    r, q := 0, 0;
    if f < |es| {
      var l := LastHit(es, key, lo, lo + WINDOW, f, |es|);
      r, q := WindowOf(es, f).resetAt, WindowOf(es, l).resetAt;
      forall i: nat | i < |es| && Hit(es, key, lo, lo + WINDOW, i)
        ensures WindowOf(es, i).resetAt == r || WindowOf(es, i).resetAt == q
      {
        NoThirdWindow(es, key, lo, f, i, l);
      }
    }
  }

  lemma {:induction false} IntervalIsInWindows(es: seq<Attempt>, key: string, lo: int, hi: int, r: int, q: int, n: nat)
    requires n <= |es| && forall i: nat :: i < n && Hit(es, key, lo, hi, i) ==>
               WindowOf(es, i).resetAt == r || WindowOf(es, i).resetAt == q
    ensures InInterval(es, key, lo, hi, n) <= InWindow(es, key, r, n) + InWindow(es, key, q, n)
  {
    if n > 0 {
      IntervalIsInWindows(es, key, lo, hi, r, q, n - 1);
      if es[n - 1].key == key && lo <= es[n - 1].now <= hi { assert Hit(es, key, lo, hi, n - 1); }
    }
  }

  /** Any fifteen minutes admit at most twenty attempts of a key. */
  lemma {:induction false} AtMostTwentyPerInterval(es: seq<Attempt>, key: string, lo: int)
    requires ClockAdvances(es)
    ensures InInterval(es, key, lo, lo + WINDOW, |es|) <= 20
  {
    var r, q := TwoWindows(es, key, lo);
    IntervalIsInWindows(es, key, lo, lo + WINDOW, r, q, |es|);
    AtMostTenPerWindow(es, key, r);
    AtMostTenPerWindow(es, key, q);
  }

  // ------------------------------------------------------------------- independent keys

  function Of(es: seq<Attempt>, key: string): seq<Attempt> {
    if es == [] then [] else
    Of(es[..|es| - 1], key) + if es[|es| - 1].key == key then [es[|es| - 1]] else []
  }

  /** What a key has used, and so whether its next attempt is admitted, depends on its own attempts
      only. */
  lemma {:induction false} KeysAreIndependent(es: seq<Attempt>, key: string, now: int)
    ensures Get(After(es), key) == Get(After(Of(es, key)), key)
    ensures Counted(After(es), Attempt(key, now)) == Counted(After(Of(es, key)), Attempt(key, now))
  {
    if es != [] {
      var n := |es| - 1;
      KeysAreIndependent(es[..n], key, if es[n].key == key then es[n].now else now);
      var mine := Of(es[..n], key);
      if es[n].key == key {
        assert Of(es, key) == mine + [es[n]] && (mine + [es[n]])[..|mine|] == mine;
      } else {
        assert Of(es, key) == mine;
      }
    }
    assert key in After(es) <==> Get(After(es), key).Some?;
    assert key in After(Of(es, key)) <==> Get(After(Of(es, key)), key).Some?;
  }

  /** A refused attempt of an open window stays refused until the window is over. */
  lemma {:induction false} RefusedUntilReset(limits: Limits, key: string, now: int, later: int)
    requires Counted(limits, Attempt(key, now)).count > LIMIT && now <= later
    ensures var after := Step(limits, Attempt(key, now));
            Counted(after, Attempt(key, later)).count <= LIMIT <==> after[key].resetAt <= later
  {
  }

  // --------------------------------------------------------------- who is admitted

  /** The attempt of the key, among the first `n`, that opened its latest window: an attempt opens one when the
      key has none or fifteen minutes have passed since the one before it opened. */
  function LastOpening(es: seq<Attempt>, key: string, n: nat): (p: Option<nat>)
    requires n <= |es|
    ensures p.Some? ==> p.value < n && es[p.value].key == key
  {
    if n == 0 then None else
    var p := LastOpening(es, key, n - 1);
    if es[n - 1].key != key then p
    else if p.Some? && es[n - 1].now < es[p.value].now + 900_000 then p
    else Some(n - 1)
  }

  /** How many of the attempts from `lo` to before `hi` are of the key. */
  function Attempts(es: seq<Attempt>, key: string, lo: nat, hi: nat): nat
    requires hi <= |es|
  {
    if hi <= lo then 0 else Attempts(es, key, lo, hi - 1) + if es[hi - 1].key == key then 1 else 0
  }

  /** The window kept for a key counts its attempts since the opening one, and ends fifteen minutes after it. */
  lemma {:induction false} WindowIs(es: seq<Attempt>, key: string, n: nat)
    requires n <= |es|
    ensures var p := LastOpening(es, key, n);
            Get(After(es[..n]), key) == if p.None? then None
                                        else Some(Window(Attempts(es, key, p.value, n), es[p.value].now + 900_000))
  {
    if n > 0 {
      WindowIs(es, key, n - 1);
      StateAfter(es, n - 1);
      assert key in After(es[..n - 1]) <==> Get(After(es[..n - 1]), key).Some?;
    }
  }

  /** An attempt is admitted exactly when at most ten attempts, it included, were made since its window was
      opened: the first ten of every window, whatever the clock does. */
  lemma {:induction false} FirstTenAreAdmitted(es: seq<Attempt>, i: nat)
    requires i < |es|
    ensures var p := LastOpening(es, es[i].key, i + 1);
            p.Some? && (Admitted(es, i) <==> Attempts(es, es[i].key, p.value, i + 1) <= 10)
  {
    WindowIs(es, es[i].key, i + 1);
    StateAfter(es, i);
  }
}
