/** The flood blocker of one source: rate-limit violations are counted in a tumbling window, and enough of
    them in one window block the source for a while. */
module FloodBlocker {

  datatype Flood = Flood(started: real, violations: nat, blockedUntil: real)

  const CALM := Flood(0.0, 0, 0.0)

  datatype Policy = Policy(limit: nat, window: real, duration: real)

  ghost predicate ValidPolicy(p: Policy) {
    0 < p.limit && 0.0 < p.window && 0.0 < p.duration
  }

  /** The window restarts when it has run out or when the count starts again. */
  function Counted(f: Flood, p: Policy, now: real): Flood {
    if now - f.started > p.window || f.violations == 0
    then f.(started := now, violations := 1)
    else f.(violations := f.violations + 1)
  }

  predicate Triggers(f: Flood, p: Policy, now: real) {
    Counted(f, p, now).violations >= p.limit
  }

  /** The blocker after one violation at `now`. */
  function Violate(f: Flood, p: Policy, now: real): Flood {
    if Triggers(f, p, now) then Flood(now, 0, now + p.duration) else Counted(f, p, now)
  }

  method CountViolation(f: Flood, p: Policy, now: real) returns (g: Flood)
    ensures g == Violate(f, p, now)
  {
    g := f;
    if now - g.started > p.window {
      g := g.(started := now, violations := 0);
    }
    if g.violations == 0 {
      g := g.(started := now);
    }
    g := g.(violations := g.violations + 1);
    if g.violations >= p.limit {
      g := Flood(now, 0, now + p.duration);
    }
  }

  /** The blocker after the first `n` of the violations at `times`. */
  ghost function FloodAfter(f: Flood, p: Policy, times: seq<real>, n: nat): Flood
    requires n <= |times|
  {
    if n == 0 then f else Violate(FloodAfter(f, p, times, n - 1), p, times[n - 1])
  }

  /** Violation number `i` is one that blocks the source. */
  ghost predicate Blocks(f: Flood, p: Policy, times: seq<real>, i: nat)
    requires i < |times|
  {
    Triggers(FloodAfter(f, p, times, i), p, times[i])
  }

  ghost predicate InOrder(times: seq<real>) {
    forall i, j :: 0 <= i <= j < |times| ==> times[i] <= times[j]
  }

  /** What the blocker knows: its count is of the most recent violations, all inside one window that began with
      the first of them, and none of them has been used for a block yet. */
  ghost predicate Remembers(p: Policy, times: seq<real>, n: nat)
    requires n <= |times|
  {
    var f := FloodAfter(CALM, p, times, n);
    && f.violations < p.limit
    && f.violations <= n
    && (0 < f.violations ==> f.started == times[n - f.violations] && times[n - 1] - f.started <= p.window)
    && (forall i :: n - f.violations <= i < n ==> !Blocks(CALM, p, times, i))
  }

  lemma {:induction false} CountIsRecent(p: Policy, times: seq<real>, n: nat)
    requires ValidPolicy(p) && n <= |times|
    ensures Remembers(p, times, n)
  {
    if n > 0 {
      CountIsRecent(p, times, n - 1);
      var before := FloodAfter(CALM, p, times, n - 1);
      assert Blocks(CALM, p, times, n - 1) == Triggers(before, p, times[n - 1]);
    }
  }

  /** Soundness: a block is only ever imposed on `limit` violations inside one window, and no violation
      serves for two blocks. */
  lemma {:induction false} BlockNeedsFullWindow(p: Policy, times: seq<real>, i: nat)
    requires ValidPolicy(p) && i < |times| && Blocks(CALM, p, times, i)
    ensures p.limit <= i + 1
    ensures times[i] - times[i + 1 - p.limit] <= p.window
    ensures forall k :: i + 1 - p.limit <= k < i ==> !Blocks(CALM, p, times, k)
  {
    CountIsRecent(p, times, i);
  }

  /** How many violations inside one window always force a block, whatever was counted before. */
  function Threshold(limit: nat): nat {
    if limit <= 1 then 1 else 2 * limit - 2
  }

  /** While nothing blocks, the count either still includes everything counted before the window, or was
      restarted at most once inside it. */
  lemma {:induction false} UnblockedCount(f: Flood, p: Policy, times: seq<real>, n: nat)
    requires ValidPolicy(p) && f.violations < p.limit && InOrder(times) && 0 < n <= |times|
    requires times[n - 1] - times[0] <= p.window
    requires f.violations > 0 ==> f.started <= times[0]
    requires forall i :: 0 <= i < n ==> !Blocks(f, p, times, i)
    ensures var g := FloodAfter(f, p, times, n);
            0 < g.violations < p.limit &&
            if g.started < times[0] then g.violations == f.violations + n && 0 < f.violations
            else n <= g.violations + (p.limit - 1 - f.violations)
                 && (f.violations == 0 ==> n == g.violations)
  {
    assert !Blocks(f, p, times, n - 1);
    if n == 1 {
      assert FloodAfter(f, p, times, 0) == f;
    } else {
      UnblockedCount(f, p, times, n - 1);
    }
  }

  /** Completeness: `Threshold(limit)` violations inside one window force a block, whatever the blocker had
      counted before them. */
  lemma {:induction false} FullWindowForcesBlock(f: Flood, p: Policy, times: seq<real>)
    requires ValidPolicy(p) && f.violations < p.limit && InOrder(times)
    requires f.violations > 0 && times != [] ==> f.started <= times[0]
    requires Threshold(p.limit) <= |times| && times[|times| - 1] - times[0] <= p.window
    ensures exists i :: 0 <= i < |times| && Blocks(f, p, times, i)
  {
    if forall i :: 0 <= i < |times| ==> !Blocks(f, p, times, i) {
      UnblockedCount(f, p, times, |times|);
    }
  }

  lemma {:induction false} FloodAfterSplit(f: Flood, p: Policy, ts: seq<real>, a: nat, n: nat)
    requires a + n <= |ts|
    ensures FloodAfter(FloodAfter(f, p, ts, a), p, ts[a..], n) == FloodAfter(f, p, ts, a + n)
  {
    if n > 0 {
      FloodAfterSplit(f, p, ts, a, n - 1);
      assert ts[a..][n - 1] == ts[a + n - 1];
    }
  }

  /** The same inside a longer history: the violations from number `a` on, if they fit the window and reach the
      threshold, include one that blocks. */
  lemma WindowTriggers(p: Policy, times: seq<real>, a: nat) returns (k: nat)
    requires ValidPolicy(p) && InOrder(times) && a + Threshold(p.limit) <= |times|
    requires times[|times| - 1] - times[a] <= p.window
    ensures a <= k < |times| && Blocks(CALM, p, times, k)
  {
    CountIsRecent(p, times, a);
    var f, rest := FloodAfter(CALM, p, times, a), times[a..];
    FullWindowForcesBlock(f, p, rest);
    var i :| 0 <= i < |rest| && Blocks(f, p, rest, i);
    FloodAfterSplit(CALM, p, times, a, i);
    k := a + i;
  }

  /** The threshold is exact: one violation fewer inside one window, after another one before it, can pass without a
      block, because the window tumbles. */
  ghost function Evasion(p: Policy): seq<real>
    requires p.limit >= 2
  {
    seq(2 * p.limit - 2, i => if i == 0 then 0.0 else if i < p.limit - 1 then p.window else 2.0 * p.window)
  }

  lemma {:induction false} EvasionCount(p: Policy, n: nat)
    requires ValidPolicy(p) && p.limit >= 2 && n <= 2 * p.limit - 2
    ensures FloodAfter(CALM, p, Evasion(p), n) ==
            if n == 0 then CALM
            else if n < p.limit then Flood(0.0, n, 0.0)
            else Flood(2.0 * p.window, n - p.limit + 1, 0.0)
  {
    if n > 0 {
      EvasionCount(p, n - 1);
    }
  }

  lemma {:induction false} ThresholdIsExact(p: Policy)
    requires ValidPolicy(p) && p.limit >= 2
    ensures var times := Evasion(p);
            |times| == Threshold(p.limit) && InOrder(times) &&
            times[|times| - 1] - times[1] <= p.window &&
            forall i :: 0 <= i < |times| ==> !Blocks(CALM, p, times, i)
  {
    var times := Evasion(p);
    forall i | 0 <= i < |times| ensures !Blocks(CALM, p, times, i) {
      EvasionCount(p, i);
    }
  }
}
