/** Exactly when blocks run their full length: when the entry that records a block outlives it. */
module BlockLength {
  import opened Cidr
  import opened TokenBucket
  import opened FloodBlocker
  import opened SourceTable
  import opened Admission
  import opened AdmissionRuns
  import opened Forgetting
  import opened History
  import opened FloodGuarantee
  import opened Wrappers
  import RateBounds

  /** How many packets of one source at one moment are sure to get it blocked. */
  function Flurry(o: Options): nat {
    o.globalBurst + o.floodViolations
  }

  /** One source sends `Flurry` packets at once and one more at `back`. */
  function Comeback(o: Options, v: Ip, start: real, back: real, kind: Kind): (es: seq<Event>)
    ensures |es| == Flurry(o) + 1
  {
    seq(Flurry(o), _ => Packet(start, v, Other)) + [Packet(back, v, kind)]
  }

  ghost predicate ComebackRun(r: Run, v: Ip, back: real, kind: Kind) {
    && ValidOptions(r.o) && r.o.enabled && Passes(r.o.allowed, r.o.denied, v) && 0.0 <= r.start <= back
    && r.es == Comeback(r.o, v, r.start, back, kind)
  }

  lemma ComebackIsAlone(r: Run, v: Ip, back: real, kind: Kind)
    requires ComebackRun(r, v, back, kind)
    ensures Proper(r) && FewSources(r.o, r.es)
  {
    forall n | 0 <= n < |r.es| ensures |RecentIps(r.o, r.es, n)| <= r.o.maxSources {
      Subset(RecentIps(r.o, r.es, n), {v});
    }
  }

  /** No block has started yet, and each packet so far has cost a global token or counted as a violation. */
  ghost predicate Nearing(o: Options, start: real, g: Bucket, f: Flood, n: nat) {
    && g.updated == start && 0.0 <= g.tokens
    && f.blockedUntil <= start && f.violations < o.floodViolations
    && (0 < f.violations ==> f.started == start)
    && g.tokens + n as real <= (o.globalBurst + f.violations) as real
  }

  /** One more packet of the flurry either starts the block or brings it nearer. */
  lemma FlurryDecision(o: Options, g: Bucket, x: Source, start: real, n: nat)
    requires ValidOptions(o) && Passes(o.allowed, o.denied, x.ip) && g.tokens <= o.globalBurst as real
    requires Nearing(o, start, g, x.flood, n)
    ensures var d := Decide(o, g, x, Other, start);
            if d.verdict == RateDrop
            then Triggers(x.flood, FloodPolicy(o), start) || Nearing(o, start, d.global, Violate(x.flood, FloodPolicy(o), start), n + 1)
            else Nearing(o, start, d.global, x.flood, n + 1)
  {
    hide Level;
    LevelNow(g, o.globalRate, o.globalBurst as real, start);
  }

  ghost function FloodLeft(r: Run, v: Ip, n: nat): Flood
    requires n <= |r.es| && 0 < r.o.maxSources
  {
    match Left(r, v, n)
    case None => CALM
    case Some(x) => x.flood
  }

  /** During the flurry each packet is judged by what the one before left. */
  lemma FlurryEntry(r: Run, v: Ip, back: real, kind: Kind, n: nat)
    requires ComebackRun(r, v, back, kind) && n < Flurry(r.o)
    ensures Entry(r.o, StateAt(r, n), v, r.start).flood == FloodLeft(r, v, n)
  {
    hide Entry, FewSources, LiveAt, Left;
    ComebackIsAlone(r, v, back, kind);
    EntryIsLeftOrFresh(r, v, n);
    if Left(r, v, n).Some? {
      assert About(r.es[0], v);
      if n > 0 {
        LeftSince(r, v, 0, n);
      } else {
        NothingLeft(r, v);
      }
      if !LiveAt(r, v, n) {
        MissingIsIdle(r, v, n);
      }
    }
  }

  lemma NothingLeft(r: Run, v: Ip)
    requires 0 < r.o.maxSources
    ensures Left(r, v, 0) == None && FloodLeft(r, v, 0) == CALM
  {
  }

  lemma {:induction false} FlurryNears(r: Run, v: Ip, back: real, kind: Kind, n: nat)
    requires ComebackRun(r, v, back, kind) && n <= Flurry(r.o)
    ensures Nearing(r.o, r.start, StateAt(r, n).global, FloodLeft(r, v, n), n) || exists i: nat :: i < n && Starts(r, i)
  {
    hide Entry, Nearing, Result, Decide, Violate, Triggers, After, Left, Step;
    ComebackIsAlone(r, v, back, kind);
    if n > 0 {
      FlurryNears(r, v, back, kind, n - 1);
      if Nearing(r.o, r.start, StateAt(r, n - 1).global, FloodLeft(r, v, n - 1), n - 1) {
        FlurryNext(r, v, back, kind, n - 1);
      }
    } else {
      NearingStarts(r, v);
    }
  }

  lemma NearingStarts(r: Run, v: Ip)
    requires ValidOptions(r.o) && 0.0 <= r.start
    ensures Nearing(r.o, r.start, StateAt(r, 0).global, FloodLeft(r, v, 0), 0)
  {
  }

  lemma FlurryNext(r: Run, v: Ip, back: real, kind: Kind, n: nat)
    requires ComebackRun(r, v, back, kind) && n < Flurry(r.o)
    requires Nearing(r.o, r.start, StateAt(r, n).global, FloodLeft(r, v, n), n)
    ensures Nearing(r.o, r.start, StateAt(r, n + 1).global, FloodLeft(r, v, n + 1), n + 1) || Starts(r, n)
  {
    hide Entry, Nearing, Decide, Violate, Triggers, After, Step, Ordered, FewSources, Passes;
    ComebackIsAlone(r, v, back, kind);
    var s, x := StateAt(r, n), Entry(r.o, StateAt(r, n), v, r.start);
    FlurryEntry(r, v, back, kind, n);
    GlobalIsHealthy(r, n);
    LeftIsSound(r, v, n);
    FlurryDecision(r.o, s.global, x, r.start, n);
    StepAt(r, n);
    RateBounds.PacketIsDecision(r.o, s, r.es[n]);
    DecidedOnEntry(r, n);
    ResultCounts(r, v, n);
    LeftStep(r, v, n);
  }

  lemma LeftStep(r: Run, v: Ip, n: nat)
    requires n < |r.es| && 0 < r.o.maxSources && About(r.es[n], v)
    ensures Left(r, v, n + 1) == Some(Result(r.o, StateAt(r, n), r.es[n]))
  {
    hide Result;
  }

  lemma GlobalIsHealthy(r: Run, n: nat)
    requires Proper(r) && n <= |r.es|
    ensures Healthy(StateAt(r, n).global, r.o.globalBurst as real, Clock(r.start, r.es, n))
  {
    hide After;
    ConfiguredHealthy(r);
    RateBounds.GlobalHealthy(r.o, Configured(r.o, r.stats, r.cursor, r.start), r.start, r.es, n);
  }

  lemma ConfiguredHealthy(r: Run)
    requires Proper(r)
    ensures Healthy(Configured(r.o, r.stats, r.cursor, r.start).global, r.o.globalBurst as real, r.start)
  {
  }

  lemma FlurryStarts(r: Run, v: Ip, back: real, kind: Kind) returns (i: nat)
    requires ComebackRun(r, v, back, kind)
    ensures i < Flurry(r.o) && Starts(r, i)
  {
    hide Starts, StateAt;
    FlurryNears(r, v, back, kind, Flurry(r.o));
    i :| i < Flurry(r.o) && Starts(r, i);
  }

  /** Coming back after the time to live, the source is new to the table. */
  lemma ComebackIsNew(r: Run, v: Ip, back: real, kind: Kind)
    requires ComebackRun(r, v, back, kind) && back - r.start > r.o.sourceTtl
    ensures Entry(r.o, StateAt(r, Flurry(r.o)), v, back) == Fresh(v, Sizes(r.o), back)
  {
    hide Entry, Left, Result, After, FewSources;
    var n := Flurry(r.o);
    ComebackIsAlone(r, v, back, kind);
    EntryIsLeftOrFresh(r, v, n);
    LeftIsSound(r, v, n);
  }

  /** If entries expire before blocks do, the source that comes back in between is judged afresh: its block is over. */
  lemma ShortMemoryEndsBlocks(r: Run, v: Ip, back: real, kind: Kind) returns (i: nat)
    requires ComebackRun(r, v, back, kind)
    requires r.o.sourceTtl < back - r.start < r.o.blockDuration
    ensures i < Flurry(r.o) && Starts(r, i) && Within(r, i, Flurry(r.o))
    ensures VerdictOf(r, Flurry(r.o)) != BlockedDrop
    ensures kind == Other && 1.0 <= Inflow(r, back) ==> VerdictOf(r, Flurry(r.o)) == Accepted
  {
    hide Entry, Starts, StateAt, After;
    i := FlurryStarts(r, v, back, kind);
    var n := Flurry(r.o);
    ComebackIsNew(r, v, back, kind);
    DecidedOnEntry(r, n);
    if kind == Other && 1.0 <= Inflow(r, back) {
      ComebackIsAlone(r, v, back, kind);
      GlobalIsHealthy(r, n);
      TokenBack(StateAt(r, n).global, r.o.globalRate, r.o.globalBurst as real, r.start, back);
      FreshTokens(r.o, back);
    }
  }

  function Inflow(r: Run, back: real): real {
    r.o.globalRate * (back - r.start)
  }

  lemma TokenBack(b: Bucket, rate: real, burst: real, from: real, now: real)
    requires 0.0 < rate && 1.0 <= burst && Healthy(b, burst, from) && from <= now && 1.0 <= rate * (now - from)
    ensures Take(b, rate, burst, now).ok
  {
    var late := from - b.updated;
    assert 0.0 <= rate * late;
    assert (now - b.updated) * rate == rate * (now - from) + rate * late;
  }

  lemma FreshTokens(o: Options, now: real)
    requires ValidOptions(o)
    ensures Take(Bucket(o.perSourceBurst as real, now), o.perSourceRate, o.perSourceBurst as real, now).ok
  {
    FullBucket(o.perSourceRate, o.perSourceBurst as real, now);
  }

  /** Every block of the run holds for its full length. */
  ghost predicate AllRunFull(r: Run)
    requires 0 < r.o.maxSources
  {
    forall i: nat :: i < |r.es| && Starts(r, i) ==> RunsFull(r, i)
  }

  /** Main theorem: in every run with few sources about every block runs its full length, if and only if entries live
      at least as long as blocks last, or the network lists let nobody through. */
  lemma BlocksRunFullIff(o: Options, stats: Stats, cursor: nat, start: real)
    requires ValidOptions(o) && o.enabled && 0.0 <= start
    ensures o.blockDuration <= o.sourceTtl || (forall v: Ip :: !Passes(o.allowed, o.denied, v)) <==>
            forall es :: Ordered(start, es) && FewSources(o, es) ==> AllRunFull(Run(o, stats, cursor, start, es))
  {
    hide Starts, RunsFull, FewSources, Ordered, VerdictOf, Passes;
    if o.blockDuration <= o.sourceTtl {
      forall es | Ordered(start, es) && FewSources(o, es) ensures AllRunFull(Run(o, stats, cursor, start, es)) {
        FullIfLongMemory(Run(o, stats, cursor, start, es));
      }
    } else if v: Ip :| Passes(o.allowed, o.denied, v) {
      var back := start + (o.sourceTtl + o.blockDuration) / 2.0;
      var r := Run(o, stats, cursor, start, Comeback(o, v, start, back, Other));
      ComebackIsAlone(r, v, back, Other);
      var i := ShortMemoryEndsBlocks(r, v, back, Other);
      NotFull(r, i, Flurry(o));
      assert !AllRunFull(r);
    } else {
      forall es | Ordered(start, es) && FewSources(o, es) ensures AllRunFull(Run(o, stats, cursor, start, es)) {
        NobodyIsBlocked(Run(o, stats, cursor, start, es));
      }
    }
  }

  /** A source that the lists do not let through is never blocked. */
  lemma NobodyIsBlocked(r: Run)
    requires Proper(r) && forall v: Ip :: !Passes(r.o.allowed, r.o.denied, v)
    ensures AllRunFull(r)
  {
    hide RunsFull, Ordered, Passes, Entry, Triggers, VerdictOf;
    forall i: nat | i < |r.es| ensures !Starts(r, i) {
      if Starts(r, i) {
        StartPasses(r, i);
      }
    }
  }

  /** The good half needs nothing of the lists: it holds under any of them. */
  lemma FullIfLongMemory(r: Run)
    requires Proper(r) && FewSources(r.o, r.es) && r.o.blockDuration <= r.o.sourceTtl
    ensures AllRunFull(r)
  {
    hide Starts, RunsFull, FewSources, Ordered;
    forall i: nat | i < |r.es| && Starts(r, i) ensures RunsFull(r, i) {
      FewSourcesRunFull(r, i);
    }
  }

  lemma NotFull(r: Run, i: nat, j: nat)
    requires i < |r.es| && 0 < r.o.maxSources && Within(r, i, j) && VerdictOf(r, j) != BlockedDrop
    ensures !RunsFull(r, i)
  {
  }

  /** If, besides, the global bucket refills within a block, the source gets a packet accepted during its block. */
  lemma PacketPassesBlock(o: Options, stats: Stats, cursor: nat, start: real, v: Ip) returns (r: Run, i: nat, j: nat)
    requires ValidOptions(o) && o.enabled && Passes(o.allowed, o.denied, v) && 0.0 <= start
    requires o.sourceTtl < o.blockDuration && RefillsWithin(o.globalRate, o.blockDuration)
    ensures r.o == o && r.start == start && Proper(r) && FewSources(o, r.es)
    ensures i < |r.es| && Starts(r, i) && Within(r, i, j) && VerdictOf(r, j) == Accepted
  {
    hide Starts, FewSources, Ordered, VerdictOf, Passes;
    var refill := 1.0 / o.globalRate;
    var late := if o.sourceTtl < refill then refill else o.sourceTtl;
    RefillTime(o.globalRate, o.blockDuration);
    var back := start + (late + o.blockDuration) / 2.0;
    j := Flurry(o);
    r := Run(o, stats, cursor, start, Comeback(o, v, start, back, Other));
    Refilled(o.globalRate, refill, back - start);
    ComebackIsAlone(r, v, back, Other);
    i := ShortMemoryEndsBlocks(r, v, back, Other);
  }

  /** More than one token flows in within `time`. */
  predicate RefillsWithin(rate: real, time: real) {
    1.0 < rate * time
  }

  lemma RefillTime(rate: real, time: real)
    requires 0.0 < rate && RefillsWithin(rate, time)
    ensures 1.0 / rate < time && 1.0 / rate * rate == 1.0
  {
    var refill := 1.0 / rate;
    assert refill * rate == 1.0;
    var gap := time - refill;
    assert rate * gap == rate * time - 1.0;
    assert gap <= 0.0 ==> rate * gap <= 0.0;
  }

  lemma Refilled(rate: real, refill: real, time: real)
    requires 0.0 < rate && refill * rate == 1.0 && refill <= time
    ensures 1.0 <= rate * time
  {
    assert 0.0 <= rate * (time - refill);
  }
}
