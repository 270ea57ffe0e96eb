/** What the flood blocker of the bounded table guarantees over whole runs, under any options and however many sources
    there are. */
module FloodGuarantee {
  import opened Cidr
  import opened TokenBucket
  import opened FloodBlocker
  import opened SourceTable
  import opened Admission
  import opened AdmissionRuns
  import opened Forgetting
  import opened History

  /** Event `i` is a violation of `ip`: a packet dropped by a rate limit. */
  ghost predicate Violation(r: Run, ip: Ip, i: nat)
    requires i < |r.es| && 0 < r.o.maxSources
  {
    r.es[i].Packet? && r.es[i].ip == ip && VerdictOf(r, i) == RateDrop
  }

  /** Some violations of `ip`, in order, all within the flood window. */
  ghost predicate Burst(r: Run, ip: Ip, c: seq<nat>)
    requires 0 < r.o.maxSources
  {
    && c != []
    && (forall k :: 0 <= k < |c| ==> c[k] < |r.es| && Violation(r, ip, c[k]))
    && (forall k, l :: 0 <= k < l < |c| ==> c[k] < c[l])
    && r.es[c[|c| - 1]].now - r.es[c[0]].now <= r.o.floodWindow
  }

  /** Event `i` starts a block of its source. */
  ghost predicate Starts(r: Run, i: nat)
    requires i < |r.es| && 0 < r.o.maxSources
  {
    && r.es[i].Packet? && Violation(r, r.es[i].ip, i)
    && Triggers(Entry(r.o, StateAt(r, i), r.es[i].ip, r.es[i].now).flood, FloodPolicy(r.o), r.es[i].now)
  }

  /** Packet `j` falls into the time of the block that event `i` starts. */
  predicate Within(r: Run, i: nat, j: nat)
    requires i < |r.es|
  {
    i < j < |r.es| && r.es[j].Packet? && About(r.es[i], r.es[j].ip) && r.es[j].now < r.es[i].now + r.o.blockDuration
  }

  /** As long as the entry is retained, the block holds for its full length. */
  ghost predicate HoldsWhileRetained(r: Run, i: nat)
    requires i < |r.es| && 0 < r.o.maxSources
  {
    forall j: nat :: Within(r, i, j) && Retained(r, r.es[j].ip, i, j + 1) ==> VerdictOf(r, j) == BlockedDrop
  }

  /** The block holds for its full length. */
  ghost predicate RunsFull(r: Run, i: nat)
    requires i < |r.es| && 0 < r.o.maxSources
  {
    forall j: nat :: Within(r, i, j) ==> VerdictOf(r, j) == BlockedDrop
  }

  /** Packet `j` is dropped inside a block that was started by the last of `floodViolations` violations of its source
      within one flood window. */
  ghost predicate Justified(r: Run, j: nat)
    requires j < |r.es| && r.es[j].Packet? && 0 < r.o.maxSources
  {
    exists c :: Burst(r, r.es[j].ip, c) && |c| == r.o.floodViolations && Starts(r, c[|c| - 1])
                && Within(r, c[|c| - 1], j) && Retained(r, r.es[j].ip, c[0], j + 1)
  }

  /** Enough violations of `ip` within one flood window to block it, through all of which its entry is retained. */
  ghost predicate EnoughWhileRetained(r: Run, ip: Ip, c: seq<nat>)
    requires 0 < r.o.maxSources
  {
    Burst(r, ip, c) && |c| >= Threshold(r.o.floodViolations) && Retained(r, ip, c[0], c[|c| - 1] + 1)
  }

  /** One of the violations from the first to the last of `c` starts a block. */
  ghost predicate Caught(r: Run, ip: Ip, c: seq<nat>)
    requires c != [] && c[|c| - 1] < |r.es| && 0 < r.o.maxSources
  {
    exists i :: c[0] <= i <= c[|c| - 1] && About(r.es[i], ip) && Starts(r, i)
  }

  /** The event at which the present entry of `ip` began. */
  ghost function Birth(r: Run, ip: Ip, n: nat): (b: nat)
    requires n <= |r.es| && 0 < r.o.maxSources
    ensures b <= n && (0 < n ==> b < n)
  {
    if n == 0 then 0
    else if About(r.es[n - 1], ip) && !LiveAt(r, ip, n - 1) then n - 1
    else if n == 1 then 0
    else Birth(r, ip, n - 1)
  }

  /** The violations of `ip` among the events from `lo` to before `n`. */
  ghost function Violations(r: Run, ip: Ip, lo: nat, n: nat): (c: seq<nat>)
    requires n <= |r.es| && 0 < r.o.maxSources
    ensures forall k :: 0 <= k < |c| ==> lo <= c[k] < n && Violation(r, ip, c[k])
    ensures forall k, l :: 0 <= k < l < |c| ==> c[k] < c[l]
  {
    if n <= lo then []
    else Violations(r, ip, lo, n - 1) + if Violation(r, ip, n - 1) then [n - 1] else []
  }

  ghost function Times(es: seq<Event>, c: seq<nat>): (ts: seq<real>)
    requires forall k :: 0 <= k < |c| ==> c[k] < |es|
    ensures |ts| == |c|
  {
    seq(|c|, k requires 0 <= k < |c| => es[c[k]].now)
  }

  /** Only a rate drop touches the blocker of a source. */
  lemma DecisionCounts(o: Options, g: Bucket, x: Source, kind: Kind, now: real)
    ensures var d := Decide(o, g, x, kind, now);
            && d.source.flood == (if d.verdict == RateDrop then Violate(x.flood, FloodPolicy(o), now) else x.flood)
            && (d.verdict == BlockedDrop <==> Passes(o.allowed, o.denied, x.ip) && x.flood.blockedUntil > now)
            && (d.verdict == RateDrop ==> Passes(o.allowed, o.denied, x.ip) && x.flood.blockedUntil <= now)
  {
    hide Take, Violate;
  }

  lemma {:induction false} FloodAfterPrefix(f: Flood, p: Policy, ts: seq<real>, us: seq<real>, n: nat)
    requires n <= |ts| && n <= |us| && ts[..n] == us[..n]
    ensures FloodAfter(f, p, ts, n) == FloodAfter(f, p, us, n)
  {
    if n > 0 {
      assert ts[..n - 1] == ts[..n][..n - 1] == us[..n - 1];
      assert ts[n - 1] == ts[..n][n - 1] == us[n - 1];
      FloodAfterPrefix(f, p, ts, us, n - 1);
    }
  }

  lemma FloodAfterAppend(p: Policy, ts: seq<real>, t: real)
    ensures FloodAfter(CALM, p, ts + [t], |ts| + 1) == Violate(FloodAfter(CALM, p, ts, |ts|), p, t)
  {
    hide Violate;
    FloodAfterPrefix(CALM, p, ts, ts + [t], |ts|);
  }

  lemma TimesAppend(es: seq<Event>, c: seq<nat>, i: nat)
    requires i < |es| && forall k :: 0 <= k < |c| ==> c[k] < |es|
    ensures forall k :: 0 <= k < |c + [i]| ==> (c + [i])[k] < |es|
    ensures Times(es, c + [i]) == Times(es, c) + [es[i].now]
  {
  }

  lemma NoViolations(p: Policy, ts: seq<real>)
    ensures FloodAfter(CALM, p, ts, 0) == CALM
  {
  }

  /** A block in force was imposed by some violation. */
  lemma {:induction false} BlockHasOrigin(p: Policy, ts: seq<real>, n: nat) returns (k: nat)
    requires n <= |ts| && FloodAfter(CALM, p, ts, n).blockedUntil != 0.0
    ensures k < n && Blocks(CALM, p, ts, k) && FloodAfter(CALM, p, ts, n).blockedUntil == ts[k] + p.duration
  {
    if Blocks(CALM, p, ts, n - 1) {
      k := n - 1;
    } else {
      k := BlockHasOrigin(p, ts, n - 1);
    }
  }

  /** A chosen ordered part `c` of an ordered list `full` takes at least its own length of room in it. */
  lemma {:induction false} PartFits(c: seq<nat>, full: seq<nat>, k: nat) returns (a: nat, b: nat)
    requires k < |c|
    requires forall i, j :: 0 <= i < j < |c| ==> c[i] < c[j]
    requires forall i, j :: 0 <= i < j < |full| ==> full[i] < full[j]
    requires forall i :: 0 <= i < |c| ==> c[i] in full
    ensures a + k <= b < |full| && full[a] == c[0] && full[b] == c[k]
  {
    if k == 0 {
      assert c[0] in full;
      a :| a < |full| && full[a] == c[0];
      b := a;
    } else {
      var b';
      a, b' := PartFits(c, full, k - 1);
      assert c[k] in full;
      b :| b < |full| && full[b] == c[k];
      assert full[b'] < full[b];
    }
  }

  ghost function BlockerSince(r: Run, ip: Ip, lo: nat, n: nat): (f: Flood)
    requires n <= |r.es| && 0 < r.o.maxSources
  {
    var c := Violations(r, ip, lo, n);
    FloodAfter(CALM, FloodPolicy(r.o), Times(r.es, c), |c|)
  }

  lemma HistoryStep(r: Run, ip: Ip, lo: nat, n: nat)
    requires n < |r.es| && 0 < r.o.maxSources && lo <= n
    ensures BlockerSince(r, ip, lo, n + 1) ==
            if Violation(r, ip, n) then Violate(BlockerSince(r, ip, lo, n), FloodPolicy(r.o), r.es[n].now)
            else BlockerSince(r, ip, lo, n)
    ensures BlockerSince(r, ip, n, n) == CALM
  {
    hide Violation, Violate, FloodAfter, FloodPolicy;
    var c := Violations(r, ip, lo, n);
    TimesAppend(r.es, c, n);
    FloodAfterAppend(FloodPolicy(r.o), Times(r.es, c), r.es[n].now);
    NoViolations(FloodPolicy(r.o), Times(r.es, []));
    assert c + [] == c;
  }

  /** What a packet leaves in the blocker of its source. */
  lemma ResultCounts(r: Run, ip: Ip, n: nat)
    requires ValidOptions(r.o) && r.o.enabled && n < |r.es| && About(r.es[n], ip)
    ensures var x := Entry(r.o, StateAt(r, n), ip, r.es[n].now);
            Result(r.o, StateAt(r, n), r.es[n]).flood ==
            if Violation(r, ip, n) then Violate(x.flood, FloodPolicy(r.o), r.es[n].now) else x.flood
  {
    hide Decide, Violate, Entry;
    var s, e := StateAt(r, n), r.es[n];
    if e.Packet? {
      DecidedOnEntry(r, n);
      DecisionCounts(r.o, s.global, Entry(r.o, s, ip, e.now), e.kind, e.now);
    }
  }

  /** The blocker a packet of `ip` is judged by is a function of the violations since its entry began. */
  lemma {:induction false} EntryTracks(r: Run, ip: Ip, n: nat)
    requires ValidOptions(r.o) && r.o.enabled && n < |r.es| && About(r.es[n], ip)
    ensures Entry(r.o, StateAt(r, n), ip, r.es[n].now).flood == BlockerSince(r, ip, Birth(r, ip, n + 1), n)
    decreases n, 1
  {
    hide Entry, BlockerSince, Violation, LiveAt;
    EntryIsLeftOrFresh(r, ip, n);
    HistoryStep(r, ip, n, n);
    if LiveAt(r, ip, n) {
      LeftTracks(r, ip, n);
    }
  }

  lemma {:induction false} LeftTracks(r: Run, ip: Ip, n: nat)
    requires ValidOptions(r.o) && r.o.enabled && n <= |r.es| && Left(r, ip, n).Some?
    ensures Left(r, ip, n).value.flood == BlockerSince(r, ip, Birth(r, ip, n), n)
    decreases n, 0
  {
    hide Entry, Result, BlockerSince, Violation, Violate, LiveAt;
    HistoryStep(r, ip, Birth(r, ip, n), n - 1);
    if About(r.es[n - 1], ip) {
      EntryTracks(r, ip, n - 1);
      ResultCounts(r, ip, n - 1);
    } else {
      LeftTracks(r, ip, n - 1);
      NotAbout(r, ip, n - 1);
    }
  }

  lemma NotAbout(r: Run, ip: Ip, n: nat)
    requires n < |r.es| && 0 < r.o.maxSources && !About(r.es[n], ip)
    ensures !Violation(r, ip, n)
  {
  }

  lemma {:induction false} BirthStays(r: Run, ip: Ip, m: nat, n: nat)
    requires 0 < r.o.maxSources && m <= n <= |r.es| && Birth(r, ip, n) < m
    ensures Birth(r, ip, m) == Birth(r, ip, n)
  {
    hide LiveAt;
    if m < n {
      BirthStays(r, ip, m, n - 1);
    }
  }

  /** Since it began, the entry has been retained. */
  lemma {:induction false} BirthRetains(r: Run, ip: Ip, m: nat, n: nat)
    requires 0 < r.o.maxSources && m < n <= |r.es| && Birth(r, ip, n) < m && About(r.es[m], ip)
    ensures LiveAt(r, ip, m)
  {
    hide LiveAt;
    if m < n - 1 {
      BirthRetains(r, ip, m, n - 1);
    }
  }

  /** An entry retained since its packet `lo` began there at the latest. */
  lemma {:induction false} RetainedSinceBirth(r: Run, ip: Ip, lo: nat, n: nat)
    requires 0 < r.o.maxSources && lo < n <= |r.es| && About(r.es[lo], ip) && Retained(r, ip, lo, n)
    ensures Birth(r, ip, n) <= lo
  {
    hide LiveAt;
    if lo < n - 1 {
      RetainedSinceBirth(r, ip, lo, n - 1);
      assert About(r.es[n - 1], ip) ==> Seen(r.es, ip, lo, n - 1);
    }
  }

  lemma {:induction false} ViolationIsListed(r: Run, ip: Ip, lo: nat, n: nat, i: nat)
    requires lo <= i < n <= |r.es| && 0 < r.o.maxSources && Violation(r, ip, i)
    ensures i in Violations(r, ip, lo, n)
  {
    hide Violation;
    if i < n - 1 {
      ViolationIsListed(r, ip, lo, n - 1, i);
    }
  }

  /** The violations before the `k`-th are the first `k` of them. */
  lemma {:induction false} ViolationsNest(r: Run, ip: Ip, lo: nat, n: nat, k: nat)
    requires n <= |r.es| && 0 < r.o.maxSources && k < |Violations(r, ip, lo, n)|
    ensures var c := Violations(r, ip, lo, n);
            Violations(r, ip, lo, c[k]) == c[..k]
  {
    hide Violation;
    var c, d := Violations(r, ip, lo, n), Violations(r, ip, lo, n - 1);
    if k < |d| {
      ViolationsNest(r, ip, lo, n - 1, k);
      assert c[..k] == d[..k];
    } else {
      assert c[..k] == d;
    }
  }

  /** A violation that completes a window starts a block. */
  lemma TriggerStarts(r: Run, ip: Ip, n: nat, k: nat)
    requires ValidOptions(r.o) && r.o.enabled && 0 < n <= |r.es|
    requires var c := Violations(r, ip, Birth(r, ip, n), n);
             k < |c| && Blocks(CALM, FloodPolicy(r.o), Times(r.es, c), k)
    ensures Starts(r, Violations(r, ip, Birth(r, ip, n), n)[k])
  {
    hide Violation, Violations, Birth, Entry, FloodAfter, Triggers;
    var b, p := Birth(r, ip, n), FloodPolicy(r.o);
    var c := Violations(r, ip, b, n);
    var i := c[k];
    AboutViolation(r, ip, i);
    BirthStays(r, ip, i + 1, n);
    EntryTracks(r, ip, i);
    ViolationsNest(r, ip, b, n, k);
    assert Times(r.es, c)[..k] == Times(r.es, c[..k])[..k];
    FloodAfterPrefix(CALM, p, Times(r.es, c), Times(r.es, c[..k]), k);
  }

  lemma AboutViolation(r: Run, ip: Ip, i: nat)
    requires i < |r.es| && 0 < r.o.maxSources && Violation(r, ip, i)
    ensures r.es[i].Packet? && r.es[i].ip == ip
  {
  }

  lemma TimesInOrder(r: Run, c: seq<nat>)
    requires Proper(r)
    requires forall k :: 0 <= k < |c| ==> c[k] < |r.es|
    requires forall k, l :: 0 <= k < l < |c| ==> c[k] < c[l]
    ensures InOrder(Times(r.es, c))
  {
  }

  /** Soundness: a packet is only ever dropped as blocked inside a block that rests on a full window of violations,
      through all of which the entry was retained. */
  lemma BlocksAreJustified(r: Run, j: nat)
    requires Proper(r) && j < |r.es| && r.es[j].Packet? && VerdictOf(r, j) == BlockedDrop
    ensures Justified(r, j)
  {
    hide Violation, Violations, Birth, Entry, FloodAfter, Starts, LiveAt, Decide, Blocks, VerdictOf;
    var ip, p, now := r.es[j].ip, FloodPolicy(r.o), r.es[j].now;
    var x := Entry(r.o, StateAt(r, j), ip, now);
    DecidedOnEntry(r, j);
    DecisionCounts(r.o, StateAt(r, j).global, x, r.es[j].kind, now);
    EntryTracks(r, ip, j);
    var b := Birth(r, ip, j + 1);
    var c := Violations(r, ip, b, j);
    var k := BlockHasOrigin(p, Times(r.es, c), |c|);
    BlockNeedsFullWindow(p, Times(r.es, c), k);
    var evidence := c[k + 1 - r.o.floodViolations..k + 1];
    assert evidence[|evidence| - 1] == c[k] && evidence[0] == c[k + 1 - r.o.floodViolations];
    AboutViolation(r, ip, c[k]);
    BlockStarted(r, ip, j, k);
    forall m | evidence[0] <= m < j + 1 && About(r.es[m], ip) && Seen(r.es, ip, evidence[0], m)
      ensures LiveAt(r, ip, m)
    {
      BirthRetains(r, ip, m, j + 1);
    }
    assert Burst(r, ip, evidence);
    assert Within(r, c[k], j);
  }

  lemma BlockStarted(r: Run, ip: Ip, j: nat, k: nat)
    requires ValidOptions(r.o) && r.o.enabled && j < |r.es|
    requires var c := Violations(r, ip, Birth(r, ip, j + 1), j);
             k < |c| && Blocks(CALM, FloodPolicy(r.o), Times(r.es, c), k)
    ensures Starts(r, Violations(r, ip, Birth(r, ip, j + 1), j)[k])
  {
    hide Violation, Birth, FloodAfter, Starts;
    var b, p := Birth(r, ip, j + 1), FloodPolicy(r.o);
    var c, d := Violations(r, ip, b, j), Violations(r, ip, b, j + 1);
    assert c == d[..|c|];
    assert Times(r.es, c)[..k] == Times(r.es, d)[..k];
    FloodAfterPrefix(CALM, p, Times(r.es, c), Times(r.es, d), k);
    assert Times(r.es, c)[k] == Times(r.es, d)[k];
    assert Blocks(CALM, p, Times(r.es, d), k);
    TriggerStarts(r, ip, j + 1, k);
  }

  /** Completeness: `Threshold(floodViolations)` violations within one flood window, through which the entry is
      retained, get the source blocked by the last of them at the latest. */
  lemma BurstsAreBlocked(r: Run, ip: Ip, c: seq<nat>)
    requires Proper(r) && EnoughWhileRetained(r, ip, c)
    ensures Caught(r, ip, c)
  {
    hide Violation, Violations, Birth, FloodAfter, Starts, Retained, Blocks, Threshold;
    var n := c[|c| - 1] + 1;
    AboutViolation(r, ip, c[0]);
    RetainedSinceBirth(r, ip, c[0], n);
    var full := Violations(r, ip, Birth(r, ip, n), n);
    var a := BurstIsListed(r, ip, c, Birth(r, ip, n));
    TimesInOrder(r, full);
    assert full[|full| - 1] < n;
    LaterOrSame(r, full[|full| - 1], c[|c| - 1]);
    var k := WindowTriggers(FloodPolicy(r.o), Times(r.es, full), a);
    AboutViolation(r, ip, full[k]);
    assert full[a] <= full[k];
    TriggerStarts(r, ip, n, k);
  }

  lemma LaterOrSame(r: Run, i: nat, j: nat)
    requires Proper(r) && i <= j < |r.es|
    ensures r.es[i].now <= r.es[j].now
  {
  }

  /** A burst is part of the list of violations since the entry began. */
  lemma BurstIsListed(r: Run, ip: Ip, c: seq<nat>, b: nat) returns (a: nat)
    requires 0 < r.o.maxSources && Burst(r, ip, c) && b <= c[0]
    ensures var full := Violations(r, ip, b, c[|c| - 1] + 1);
            a + |c| <= |full| && full[a] == c[0]
  {
    hide Violation, Violations;
    var n := c[|c| - 1] + 1;
    var full := Violations(r, ip, b, n);
    forall k | 0 <= k < |c| ensures c[k] in full {
      assert b <= c[0] <= c[k] <= c[|c| - 1] < n;
      ViolationIsListed(r, ip, b, n, c[k]);
    }
    var z;
    a, z := PartFits(c, full, |c| - 1);
  }

  /** While the entry is retained, its block stays as it is. */
  lemma {:induction false} BlockPersists(r: Run, ip: Ip, i: nat, n: nat)
    requires Proper(r) && i < n <= |r.es| && About(r.es[i], ip) && Starts(r, i) && Retained(r, ip, i, n)
    requires forall m :: i <= m < n ==> r.es[m].now < r.es[i].now + r.o.blockDuration
    ensures Left(r, ip, n).Some? && Left(r, ip, n).value.flood.blockedUntil == r.es[i].now + r.o.blockDuration
  {
    hide Entry, Result, LiveAt, Decide, StateAt, VerdictOf, Ordered;
    if n == i + 1 {
      ResultCounts(r, ip, i);
    } else {
      BlockPersists(r, ip, i, n - 1);
      if About(r.es[n - 1], ip) {
        assert Seen(r.es, ip, i, n - 1);
        EntryIsLeftOrFresh(r, ip, n - 1);
        ResultCounts(r, ip, n - 1);
        if r.es[n - 1].Packet? {
          DecidedOnEntry(r, n - 1);
          DecisionCounts(r.o, StateAt(r, n - 1).global, Entry(r.o, StateAt(r, n - 1), ip, r.es[n - 1].now),
                         r.es[n - 1].kind, r.es[n - 1].now);
        }
      }
    }
  }

  lemma BlocksHold(r: Run, i: nat)
    requires Proper(r) && i < |r.es| && Starts(r, i)
    ensures HoldsWhileRetained(r, i)
  {
    hide Entry, LiveAt, Decide, StateAt, VerdictOf, Starts, Passes, Left;
    forall j: nat | Within(r, i, j) && Retained(r, r.es[j].ip, i, j + 1) ensures VerdictOf(r, j) == BlockedDrop {
      var ip := r.es[j].ip;
      BlockPersists(r, ip, i, j);
      assert Seen(r.es, ip, i, j);
      EntryIsLeftOrFresh(r, ip, j);
      StartPasses(r, i);
      LeftIsSound(r, ip, j);
      DecidedOnEntry(r, j);
      DecisionCounts(r.o, StateAt(r, j).global, Entry(r.o, StateAt(r, j), ip, r.es[j].now), r.es[j].kind, r.es[j].now);
    }
  }

  lemma StartPasses(r: Run, i: nat)
    requires Proper(r) && i < |r.es| && Starts(r, i)
    ensures Passes(r.o.allowed, r.o.denied, r.es[i].ip)
  {
    hide Entry, Decide, Passes;
    var s, e := StateAt(r, i), r.es[i];
    LeftIsSound(r, e.ip, i);
    DecidedOnEntry(r, i);
    DecisionCounts(r.o, s.global, Entry(r.o, s, e.ip, e.now), e.kind, e.now);
  }

  /** The flood blocker in every run of the bounded table, under any options and however many sources there are: it is
      sound, it is complete for entries that are retained, and a block is neither lengthened by what it drops nor
      shortened while its entry is retained. */
  lemma FloodBlockerGuarantee(r: Run)
    requires Proper(r)
    ensures forall j :: 0 <= j < |r.es| && r.es[j].Packet? && VerdictOf(r, j) == BlockedDrop ==> Justified(r, j)
    ensures forall ip, c :: EnoughWhileRetained(r, ip, c) ==> Caught(r, ip, c)
    ensures forall i :: 0 <= i < |r.es| && Starts(r, i) ==> HoldsWhileRetained(r, i)
  {
    hide Ordered, Justified, Retained, Caught, Starts, HoldsWhileRetained, VerdictOf, Violation;
    forall j | 0 <= j < |r.es| && r.es[j].Packet? && VerdictOf(r, j) == BlockedDrop ensures Justified(r, j) {
      BlocksAreJustified(r, j);
    }
    forall ip, c | EnoughWhileRetained(r, ip, c)
      ensures Caught(r, ip, c)
    {
      BurstsAreBlocked(r, ip, c);
    }
    forall i | 0 <= i < |r.es| && Starts(r, i) ensures HoldsWhileRetained(r, i) {
      BlocksHold(r, i);
    }
  }

  /** With few sources about, a time to live of a flood window makes the blocker complete without further ado. */
  lemma FewSourcesAreCaught(r: Run, ip: Ip, c: seq<nat>)
    requires Proper(r) && FewSources(r.o, r.es) && (r.o.floodViolations == 1 || r.o.floodWindow <= r.o.sourceTtl)
    requires Burst(r, ip, c) && |c| >= Threshold(r.o.floodViolations)
    ensures Caught(r, ip, c)
  {
    hide Ordered, FewSources, Retained, Starts, Violation;
    AboutViolation(r, ip, c[0]);
    if r.o.floodViolations == 1 {
      OneEventRetained(r, ip, c[0]);
      FirstInTime(r);
      assert Burst(r, ip, c[..1]);
      BurstsAreBlocked(r, ip, c[..1]);
      var i :| c[0] <= i <= c[0] && About(r.es[i], ip) && Starts(r, i);
      assert i <= c[|c| - 1];
    } else {
      WithinTtlRetained(r, ip, c[0], c[|c| - 1] + 1);
      BurstsAreBlocked(r, ip, c);
    }
  }

  lemma FirstInTime(r: Run)
    requires Proper(r)
    ensures 0.0 < r.o.floodWindow
  {
  }

  lemma OneEventRetained(r: Run, ip: Ip, i: nat)
    requires 0 < r.o.maxSources && i < |r.es|
    ensures Retained(r, ip, i, i + 1)
  {
  }

  /** With few sources about, a time to live of a block makes every block run its full length. */
  lemma FewSourcesRunFull(r: Run, i: nat)
    requires Proper(r) && FewSources(r.o, r.es) && r.o.blockDuration <= r.o.sourceTtl
    requires i < |r.es| && Starts(r, i)
    ensures RunsFull(r, i)
  {
    hide Ordered, FewSources, Retained, Starts, VerdictOf;
    BlocksHold(r, i);
    forall j: nat | Within(r, i, j) ensures VerdictOf(r, j) == BlockedDrop {
      WithinTtlRetained(r, r.es[j].ip, i, j + 1);
    }
  }
}
