/** What happens when entries are forgotten sooner than the flood window closes: violations are not added up. */
module ForgettingWindow {
  import opened Cidr
  import opened TokenBucket
  import opened FloodBlocker
  import opened SourceTable
  import opened Admission
  import opened AdmissionRuns
  import opened Forgetting
  import opened SourceTableRuns
  import opened History
  import opened Wrappers
  import RateBounds
  import BlockLength
  import ForgettingShort

  function Probe(v: Ip, now: real, kind: Kind): Event {
    Packet(now, v, kind)
  }

  /** The two tables, started from these states, judge some packet of the run differently. */
  ghost predicate Differ(o: Options, s: State, w: Ideal, es: seq<Event>)
    requires 0 < |s.sources|
  {
    exists j: nat :: j < |es| && es[j].Packet? && VerdictAt(o, s, es, j) != IdealVerdict(o, w, es, j)
  }

  lemma {:induction false} AfterFirst(o: Options, s: State, w: Ideal, e: Event, es: seq<Event>, n: nat)
    requires 0 < |s.sources| && n <= |es|
    ensures After(o, s, [e] + es, n + 1) == After(o, Step(o, s, e), es, n)
    ensures IdealAfter(o, w, [e] + es, n + 1) == IdealAfter(o, IdealStep(o, w, e), es, n)
  {
    hide Step, IdealStep;
    if n > 0 {
      AfterFirst(o, s, w, e, es, n - 1);
      assert ([e] + es)[n] == es[n - 1];
    } else {
      assert ([e] + es)[0] == e;
      assert After(o, s, [e] + es, 0) == s && IdealAfter(o, w, [e] + es, 0) == w;
    }
  }

  lemma DifferLater(o: Options, s: State, w: Ideal, e: Event, es: seq<Event>)
    requires 0 < |s.sources| && Differ(o, Step(o, s, e), IdealStep(o, w, e), es)
    ensures Differ(o, s, w, [e] + es)
  {
    hide Step, IdealStep, Accept, IdealDecision;
    var j: nat :| j < |es| && es[j].Packet?
                  && VerdictAt(o, Step(o, s, e), es, j) != IdealVerdict(o, IdealStep(o, w, e), es, j);
    AfterFirst(o, s, w, e, es, j);
    assert ([e] + es)[j + 1] == es[j];
    assert VerdictAt(o, s, [e] + es, j + 1) == VerdictAt(o, Step(o, s, e), es, j);
  }

  /** The table has seen nobody but address `v`, and that at `now`. */
  ghost predicate Alone(o: Options, v: Ip, s: State, now: real) {
    && |s.sources| == o.maxSources && UniqueIps(s.sources)
    && forall i :: 0 <= i < |s.sources| && s.sources[i].used ==> s.sources[i].ip == v && s.sources[i].lastSeen == now
  }

  /** One packet leaves its result as the entry that the next one at the same time is judged by. */
  lemma AloneStep(o: Options, v: Ip, s: State, e: Event, from: real)
    requires ValidOptions(o) && o.enabled && Alone(o, v, s, from) && from <= e.now && e.Packet? && e.ip == v
    ensures var r := Step(o, s, e);
            && Alone(o, v, r, e.now)
            && Entry(o, r, v, e.now) == Result(o, s, e)
            && r.global == Decide(o, s.global, Entry(o, s, v, e.now), e.kind, e.now).global
  {
    hide GetSource, Decide, Result, Step;
    var r, found := Step(o, s, e), GetSource(s.sources, v, Sizes(o), o.sourceTtl, e.now);
    ResultStored(o, s, e);
    ResultKeeps(o, s, e);
    LookupKeepsUnique(s.sources, v, Sizes(o), o.sourceTtl, e.now);
    OthersOf(s.sources, v, o, e.now);
    RateBounds.PacketIsDecision(o, s, e);
    RewriteKeepsUnique(found.table, found.index, Result(o, s, e));
    assert Holds(found.table[found.index], v);
    assert forall i :: 0 <= i < |r.sources| && i != found.index && r.sources[i].used ==> r.sources[i].ip == v;
    assert forall i :: 0 <= i < |r.sources| && r.sources[i].used ==> i == found.index;
    EntryShape(o, r, v, e.now);
    assert Holds(r.sources[found.index], v);
    assert Live(o, r.sources, v, e.now);
  }

  /** The entry of the ideal table that packets of address `v` are judged by. */
  function Mirror(o: Options, v: Ip, w: Ideal, now: real): Source {
    Recall(o, w.known, v, now)
  }

  lemma MirrorStep(o: Options, v: Ip, w: Ideal, e: Event)
    requires o.enabled && e.Packet? && e.ip == v && Mirror(o, v, w, e.now).lastSeen == e.now
    ensures v in IdealStep(o, w, e).known
    ensures var d := Decide(o, w.global, Mirror(o, v, w, e.now), e.kind, e.now);
            Mirror(o, v, IdealStep(o, w, e), e.now) == d.source.(lastSeen := e.now) && IdealStep(o, w, e).global == d.global
  {
    hide Decide;
  }

  /** The ideal table has counted more violations in the present window, and its bucket is ahead of the real one by less
      than its count is. */
  ghost predicate Ahead(o: Options, v: Ip, g: Bucket, x: Source, y: Source, now: real) {
    && 0.0 <= g.tokens && g.updated <= now
    && x.ip == v == y.ip
    && Level(y.packets, o.perSourceRate, o.perSourceBurst as real, now)
       <= Level(x.packets, o.perSourceRate, o.perSourceBurst as real, now)
          + (y.flood.violations - x.flood.violations - 1) as real
    && x.flood.blockedUntil <= now && y.flood.blockedUntil <= now
    && x.flood.violations < y.flood.violations < o.floodViolations
    && now - y.flood.started <= o.floodWindow
  }

  function Tokens(o: Options, g: Bucket, now: real): real {
    Level(g, o.globalRate, o.globalBurst as real, now)
  }

  /** One more packet: the ideal table blocks and the real one does not, or it stays ahead, one token or violation
      further on. */
  lemma AheadStep(o: Options, v: Ip, g: Bucket, x: Source, y: Source, now: real)
    requires ValidOptions(o) && Passes(o.allowed, o.denied, v) && Ahead(o, v, g, x, y, now)
    ensures var d, f := Decide(o, g, x, Other, now), Decide(o, g, y, Other, now);
            && d.global == f.global && d.source.ip == v == f.source.ip
            && (if f.verdict == RateDrop && Triggers(y.flood, FloodPolicy(o), now)
                then f.source.flood.blockedUntil > now && d.source.flood.blockedUntil <= now
                else Ahead(o, v, d.global, d.source, f.source, now) &&
                     if f.verdict == RateDrop
                     then f.source.flood.violations == y.flood.violations + 1 && Tokens(o, d.global, now) <= Tokens(o, g, now)
                     else f.source.flood.violations == y.flood.violations && Tokens(o, d.global, now) <= Tokens(o, g, now) - 1.0)
  {
    hide Level, Take;
    TakeNow(g, o.globalRate, o.globalBurst as real, now);
    TakeNow(x.packets, o.perSourceRate, o.perSourceBurst as real, now);
    TakeNow(y.packets, o.perSourceRate, o.perSourceBurst as real, now);
    NeverNegative(o, g, now);
  }

  lemma NeverNegative(o: Options, g: Bucket, now: real)
    requires ValidOptions(o) && 0.0 <= g.tokens && g.updated <= now
    ensures 0.0 <= Tokens(o, g, now)
  {
    hide Level;
    var more := (now - g.updated) * o.globalRate;
    Product(now - g.updated, o.globalRate);
    LevelIs(g, o.globalRate, o.globalBurst as real, now);
    assert 0.0 <= g.tokens + more;
  }

  /** The events of one source, none before `from`, in order. */
  ghost predicate Solo(v: Ip, es: seq<Event>, from: real) {
    && (forall i :: 0 <= i < |es| ==> es[i].Packet? && es[i].ip == v && from <= es[i].now)
    && (forall i, j :: 0 <= i <= j < |es| ==> es[i].now <= es[j].now)
  }

  lemma SoloFirst(v: Ip, e: Event, es: seq<Event>, from: real)
    requires Solo(v, es, from) && e.Packet? && e.ip == v && e.now == from
    ensures Solo(v, [e] + es, from)
  {
  }

  /** Once the ideal table has blocked the source and the real one has not, a malformed packet shows it. */
  lemma MalformedShows(o: Options, v: Ip, s: State, w: Ideal, now: real) returns (es: seq<Event>)
    requires ValidOptions(o) && o.enabled && Passes(o.allowed, o.denied, v) && 0 < |s.sources|
    requires Entry(o, s, v, now).flood.blockedUntil <= now < Mirror(o, v, w, now).flood.blockedUntil
    requires Entry(o, s, v, now).ip == v == Mirror(o, v, w, now).ip
    ensures Solo(v, es, now) && Differ(o, s, w, es)
  {
    hide GetSource;
    es := [Probe(v, now, Malformed)];
    assert After(o, s, es, 0) == s && IdealAfter(o, w, es, 0) == w;
    assert VerdictAt(o, s, es, 0) == MalformedDrop && IdealVerdict(o, w, es, 0) == BlockedDrop;
  }

  /** Coming back within the window, the source is blocked by the ideal table first. */
  lemma {:induction false} IdealBlocksFirst(o: Options, v: Ip, s: State, w: Ideal, from: real, now: real, tokens: nat, left: nat)
    returns (es: seq<Event>)
    requires ValidOptions(o) && o.enabled && Passes(o.allowed, o.denied, v) && from <= now
    requires Alone(o, v, s, from) && s.global == w.global && Tokens(o, s.global, now) <= tokens as real
    requires Mirror(o, v, w, now).lastSeen == now && Ahead(o, v, s.global, Entry(o, s, v, now), Mirror(o, v, w, now), now)
    requires left == o.floodViolations - Mirror(o, v, w, now).flood.violations
    ensures Solo(v, es, now) && Differ(o, s, w, es)
    decreases tokens + left
  {
    hide Level, Entry, Decide, Step, IdealStep, Alone, Differ, Solo;
    AloneSome(o, v, s, from);
    var x, y, e := Entry(o, s, v, now), Mirror(o, v, w, now), Probe(v, now, Other);
    AloneStep(o, v, s, e, from);
    MirrorStep(o, v, w, e);
    AheadStep(o, v, s.global, x, y, now);
    ResultIsDecided(o, v, s, e);
    var s', w' := Step(o, s, e), IdealStep(o, w, e);
    var f := Decide(o, w.global, y, Other, now);
    var rest;
    NeverNegative(o, s.global, now);
    if f.verdict == RateDrop && Triggers(y.flood, FloodPolicy(o), now) {
      rest := MalformedShows(o, v, s', w', now);
    } else if f.verdict == RateDrop {
      rest := IdealBlocksFirst(o, v, s', w', now, now, tokens, left - 1);
    } else {
      NeverNegative(o, s'.global, now);
      rest := IdealBlocksFirst(o, v, s', w', now, now, tokens - 1, left);
    }
    es := [e] + rest;
    SoloFirst(v, e, rest, now);
    DifferLater(o, s, w, e, rest);
  }

  lemma AloneSome(o: Options, v: Ip, s: State, now: real)
    requires ValidOptions(o) && Alone(o, v, s, now)
    ensures 0 < |s.sources| && UniqueIps(s.sources)
  {
  }

  lemma ResultIsDecided(o: Options, v: Ip, s: State, e: Event)
    requires 0 < |s.sources| && e.Packet? && e.ip == v
    ensures Result(o, s, e) == Decide(o, s.global, Entry(o, s, v, e.now), e.kind, e.now).source
  {
    hide Decide, Entry;
  }

  /** Both tables have seen the same packets of address `v` at `now`, and no violation. */
  ghost predicate Level0(o: Options, v: Ip, g: Bucket, x: Source, y: Source, now: real) {
    && 0.0 <= g.tokens && g.updated == now && x.ip == v == y.ip && x.packets == y.packets
    && x.flood == CALM == y.flood
  }

  lemma Level0Step(o: Options, v: Ip, g: Bucket, x: Source, y: Source, now: real)
    requires ValidOptions(o) && Passes(o.allowed, o.denied, v) && 0.0 <= now && Level0(o, v, g, x, y, now)
    requires 2 <= o.floodViolations && g.tokens <= o.globalBurst as real
    ensures var d, f := Decide(o, g, x, Other, now), Decide(o, g, y, Other, now);
            && d.global == f.global && 0.0 <= d.global.tokens <= o.globalBurst as real && d.global.updated == now
            && f.source.ip == v
            && (if f.verdict == RateDrop then f.source.flood == Flood(now, 1, 0.0)
                else Level0(o, v, d.global, d.source, f.source, now) && d.global.tokens == g.tokens - 1.0)
  {
    assert (now - g.updated) * o.globalRate == 0.0;
  }

  /** The source sends until its first violation, and comes back when its entry has expired but the window is open. */
  lemma {:induction false} FirstViolation(o: Options, v: Ip, s: State, w: Ideal, now: real, back: real, tokens: nat)
    returns (es: seq<Event>)
    requires ValidOptions(o) && o.enabled && Passes(o.allowed, o.denied, v) && 0.0 <= now
    requires 2 <= o.floodViolations && o.sourceTtl < back - now < o.floodWindow
    requires Alone(o, v, s, now) && s.global == w.global && s.global.tokens <= o.globalBurst as real
    requires s.global.tokens <= tokens as real
    requires Mirror(o, v, w, now).lastSeen == now && Level0(o, v, s.global, Entry(o, s, v, now), Mirror(o, v, w, now), now)
    ensures Solo(v, es, now) && Differ(o, s, w, es)
    decreases tokens
  {
    hide Level, Entry, Decide, Step, IdealStep, Alone, Differ, Recall;
    AloneSome(o, v, s, now);
    var x, y, e := Entry(o, s, v, now), Mirror(o, v, w, now), Probe(v, now, Other);
    AloneStep(o, v, s, e, now);
    MirrorStep(o, v, w, e);
    Level0Step(o, v, s.global, x, y, now);
    ResultIsDecided(o, v, s, e);
    var s', w' := Step(o, s, e), IdealStep(o, w, e);
    var rest;
    if Decide(o, w.global, y, Other, now).verdict == RateDrop {
      NewAfterTtl(o, v, s', w', now, back);
      var tokens := o.globalBurst;
      LevelCapped(s'.global, o.globalRate, o.globalBurst as real, back);
      rest := IdealBlocksFirst(o, v, s', w', now, back, tokens, o.floodViolations - 1);
      assert Solo(v, rest, now);
    } else {
      rest := FirstViolation(o, v, s', w', now, back, tokens - 1);
    }
    es := [e] + rest;
    SoloFirst(v, e, rest, now);
    DifferLater(o, s, w, e, rest);
  }

  lemma NewAfterTtl(o: Options, v: Ip, s: State, w: Ideal, now: real, back: real)
    requires ValidOptions(o) && Alone(o, v, s, now) && 0.0 <= now && 2 <= o.floodViolations
    requires o.sourceTtl < back - now < o.floodWindow
    requires 0.0 <= s.global.tokens && s.global.updated == now
    requires Mirror(o, v, w, now).ip == v && Mirror(o, v, w, now).flood == Flood(now, 1, 0.0) && v in w.known
    ensures Mirror(o, v, w, back).lastSeen == back && Mirror(o, v, w, back).flood.violations == 1
    ensures Ahead(o, v, s.global, Entry(o, s, v, back), Mirror(o, v, w, back), back)
  {
    hide Entry, Level;
    EntryShape(o, s, v, back);
    var y := Mirror(o, v, w, back);
    LevelCapped(y.packets, o.perSourceRate, o.perSourceBurst as real, back);
    FullBucket(o.perSourceRate, o.perSourceBurst as real, back);
  }

  /** If entries expire before the flood window closes, and it takes two violations or more to be blocked, some run of a
      single source is judged differently by the table that never forgets. */
  lemma ShortMemoryForgetsViolations(o: Options, stats: Stats, cursor: nat, start: real, v: Ip) returns (es: seq<Event>)
    requires ValidOptions(o) && o.enabled && Passes(o.allowed, o.denied, v) && 0.0 <= start
    requires 2 <= o.floodViolations && o.sourceTtl < o.floodWindow
    ensures Ordered(start, es) && FewSources(o, es)
    ensures Verdicts(o, Configured(o, stats, cursor, start), es) != IdealVerdicts(o, start, es)
  {
    hide RecentIps, Accept, IdealDecision, Entry;
    var s, w := Configured(o, stats, cursor, start), IdealStart(o, start);
    StartsLevel(o, stats, cursor, start, v);
    es := FirstViolation(o, v, s, w, start, start + (o.sourceTtl + o.floodWindow) / 2.0, o.globalBurst);
    var j: nat :| j < |es| && es[j].Packet? && VerdictAt(o, s, es, j) != IdealVerdict(o, w, es, j);
    assert Verdicts(o, s, es)[j] == Some(VerdictAt(o, s, es, j));
    assert IdealVerdicts(o, start, es)[j] == Some(IdealVerdict(o, w, es, j));
    SoloIsFew(o, v, es, start);
  }

  lemma StartsLevel(o: Options, stats: Stats, cursor: nat, start: real, v: Ip)
    requires ValidOptions(o) && 0.0 <= start
    ensures var s, w := Configured(o, stats, cursor, start), IdealStart(o, start);
            Alone(o, v, s, start) && Mirror(o, v, w, start).lastSeen == start
            && Level0(o, v, s.global, Entry(o, s, v, start), Mirror(o, v, w, start), start)
  {
    hide Entry;
    EntryShape(o, Configured(o, stats, cursor, start), v, start);
  }

  lemma SoloIsFew(o: Options, v: Ip, es: seq<Event>, start: real)
    requires ValidOptions(o) && Solo(v, es, start)
    ensures FewSources(o, es)
  {
    forall n | 0 <= n < |es| ensures |RecentIps(o, es, n)| <= o.maxSources {
      Subset(RecentIps(o, es, n), {v});
    }
  }

  lemma ForgottenBlockShows(o: Options, stats: Stats, cursor: nat, start: real, v: Ip)
    requires ValidOptions(o) && o.enabled && Passes(o.allowed, o.denied, v) && 0.0 <= start
    requires o.sourceTtl < o.blockDuration
    ensures var es := ForgettingShort.Malformer(o, v, start);
            Ordered(start, es) && FewSources(o, es)
            && Verdicts(o, Configured(o, stats, cursor, start), es) != IdealVerdicts(o, start, es)
  {
    hide Accept, IdealDecision, Configured, IdealStart;
    var es, n := ForgettingShort.Malformer(o, v, start), BlockLength.Flurry(o);
    ForgettingShort.ShortMemoryForgetsBlocks(o, stats, cursor, start, v);
    assert Verdicts(o, Configured(o, stats, cursor, start), es)[n] != IdealVerdicts(o, start, es)[n];
  }

  /** The conditions on blocks and windows are necessary: if the forgetful table agrees with the ideal one in every run
      with few sources about, then entries outlive blocks and, if a window can matter, windows. */
  lemma AgreementNeedsMemory(o: Options, stats: Stats, cursor: nat, start: real, v: Ip)
    requires ValidOptions(o) && o.enabled && Passes(o.allowed, o.denied, v) && 0.0 <= start
    requires forall es :: Ordered(start, es) && FewSources(o, es) ==>
               Verdicts(o, Configured(o, stats, cursor, start), es) == IdealVerdicts(o, start, es)
    ensures o.blockDuration <= o.sourceTtl
    ensures o.floodViolations == 1 || o.floodWindow <= o.sourceTtl
  {
    hide Accept, IdealDecision, Configured, Ordered, FewSources, IdealStart;
    if o.sourceTtl < o.blockDuration {
      ForgottenBlockShows(o, stats, cursor, start, v);
    } else if o.floodViolations != 1 && o.sourceTtl < o.floodWindow {
      var es := ShortMemoryForgetsViolations(o, stats, cursor, start, v);
    }
  }
}
