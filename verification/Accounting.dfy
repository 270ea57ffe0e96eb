/** The statistics and the rate-limited log over whole runs: nothing is counted twice or lost. */
module Accounting {
  import opened Cidr
  import opened SourceTable
  import opened Admission
  import opened AdmissionRuns
  import opened SourceTableRuns
  import TokenBucket

  function Plus(a: Counters, b: Counters): Counters {
    Counters(a.accepted + b.accepted, a.rateDrops + b.rateDrops, a.aclDrops + b.aclDrops,
             a.blockedDrops + b.blockedDrops, a.malformed + b.malformed)
  }

  /** The counters of the first `n` slots added up. */
  function Sum(t: seq<Source>, n: nat): Counters
    requires n <= |t|
  {
    if n == 0 then NO_COUNTS else Plus(Sum(t, n - 1), t[n - 1].counters)
  }

  function PerSource(s: Stats): Counters {
    Counters(s.accepted, s.rateDrops, s.aclDrops, s.blockedDrops, s.malformed)
  }

  /** What one packet with this verdict adds. */
  function One(v: Verdict): Counters {
    match v
    case Accepted => NO_COUNTS.(accepted := 1)
    case AclDrop => NO_COUNTS.(aclDrops := 1)
    case BlockedDrop => NO_COUNTS.(blockedDrops := 1)
    case MalformedDrop => NO_COUNTS.(malformed := 1)
    case RateDrop => NO_COUNTS.(rateDrops := 1)
  }

  /** Does event `e` end the entry in slot `i`: is it wiped for idleness, or is its slot reused for another entry? */
  predicate Ends(o: Options, t: seq<Source>, e: Event, i: nat)
    requires i < |t|
  {
    t[i].used &&
    if e.Reading? then Expired(t[i], o.sourceTtl, e.now)
    else Touches(o, e) &&
         var r := GetSource(t, e.ip, Sizes(o), o.sourceTtl, e.now);
         if i == r.index then t[i].ip != e.ip || Expired(t[i], o.sourceTtl, e.now) else !r.table[i].used
  }

  /** The counters of the entries among the first `n` slots that event `e` ends. */
  function Ended(o: Options, t: seq<Source>, e: Event, n: nat): Counters
    requires n <= |t|
  {
    if n == 0 then NO_COUNTS
    else Plus(Ended(o, t, e, n - 1), if Ends(o, t, e, n - 1) then t[n - 1].counters else NO_COUNTS)
  }

  /** The counters of all entries ended by the first `n` events, since the last reset. */
  function Retired(o: Options, s: State, es: seq<Event>, n: nat): Counters
    requires n <= |es| && 0 < |s.sources|
  {
    if n == 0 || es[n - 1].Reset? then NO_COUNTS
    else
      var before := After(o, s, es, n - 1);
      Plus(Retired(o, s, es, n - 1), Ended(o, before.sources, es[n - 1], |before.sources|))
  }

  /** What the statistics started from: `first`, or nothing after a reset. */
  function Base(first: Counters, es: seq<Event>, n: nat): Counters
    requires n <= |es|
  {
    if n == 0 then first else if es[n - 1].Reset? then NO_COUNTS else Base(first, es, n - 1)
  }

  /** What event `e` adds to the statistics. */
  function Added(o: Options, s: State, e: Event): Counters
    requires 0 < |s.sources|
  {
    match e
    case Packet(now, ip, kind) => One(Accept(o, s, ip, kind, now).verdict)
    case BadPdu(_, _) => One(MalformedDrop)
    case _ => NO_COUNTS
  }

  ghost predicate FreeSlotsBlank(t: seq<Source>) {
    forall i :: 0 <= i < |t| && !t[i].used ==> t[i].counters == NO_COUNTS
  }

  /** Adding up slot by slot. */
  lemma {:induction false} SumBalances(o: Options, t: seq<Source>, u: seq<Source>, e: Event, k: int, delta: Counters,
                                       n: nat)
    requires n <= |t| == |u|
    requires forall i :: 0 <= i < |t| ==>
               Plus(u[i].counters, if Ends(o, t, e, i) then t[i].counters else NO_COUNTS)
               == Plus(t[i].counters, if i == k then delta else NO_COUNTS)
    ensures Plus(Sum(u, n), Ended(o, t, e, n)) == Plus(Sum(t, n), if 0 <= k < n then delta else NO_COUNTS)
  {
    hide Ends, Plus;
    if n > 0 {
      SumBalances(o, t, u, e, k, delta, n - 1);
      var before := if 0 <= k < n - 1 then delta else NO_COUNTS;
      var here := if n - 1 == k then delta else NO_COUNTS;
      var gone := if Ends(o, t, e, n - 1) then t[n - 1].counters else NO_COUNTS;
      assert Plus(u[n - 1].counters, gone) == Plus(t[n - 1].counters, here);
      Combine(Sum(u, n - 1), u[n - 1].counters, Ended(o, t, e, n - 1), gone,
              Sum(t, n - 1), t[n - 1].counters, before, here);
      PlusNothing(before);
      PlusNothing(here);
    }
  }

  lemma Combine(a: Counters, b: Counters, c: Counters, d: Counters, a': Counters, b': Counters, c': Counters, d': Counters)
    requires Plus(a, c) == Plus(a', c') && Plus(b, d) == Plus(b', d')
    ensures Plus(Plus(a, b), Plus(c, d)) == Plus(Plus(a', b'), Plus(c', d'))
  {
    hide Plus;
    Shuffle(a, b, c, d);
    Shuffle(a', b', c', d');
  }

  lemma Shuffle(a: Counters, b: Counters, c: Counters, d: Counters)
    ensures Plus(Plus(a, b), Plus(c, d)) == Plus(Plus(a, c), Plus(b, d))
  {
  }

  lemma PlusNothing(a: Counters)
    ensures Plus(a, NO_COUNTS) == a == Plus(NO_COUNTS, a)
  {
  }

  lemma DecisionBooks(o: Options, g: TokenBucket.Bucket, x: Source, kind: Kind, now: real)
    ensures var d := Decide(o, g, x, kind, now);
            d.source.counters == Plus(x.counters, One(d.verdict)) && d.source.used == x.used
  {
    hide Passes;
  }

  /** One event moves counters around without losing any: what it adds and what was there is either still in the
      table or has been retired. */
  lemma StepBalances(o: Options, s: State, e: Event)
    requires ValidOptions(o) && o.enabled && 0 < |s.sources| && UniqueIps(s.sources) && FreeSlotsBlank(s.sources)
    requires !e.Reset?
    ensures var t, u := s.sources, Step(o, s, e).sources;
            && FreeSlotsBlank(u)
            && Plus(Sum(u, |u|), Ended(o, t, e, |t|)) == Plus(Sum(t, |t|), Added(o, s, e))
            && PerSource(Step(o, s, e).stats) == Plus(PerSource(s.stats), Added(o, s, e))
  {
    hide GetSource, Decide, Step, Plus, Sum, Ended, Added, Ends, FreeSlotsBlank;
    var t, u := s.sources, Step(o, s, e).sources;
    if !Sent(e) {
      SweepBalances(o, s, e);
      SumBalances(o, t, u, e, -1, NO_COUNTS, |t|);
      AddsNothing(o, s, e);
    } else {
      var r := GetSource(t, e.ip, Sizes(o), o.sourceTtl, e.now);
      LookupBalances(o, s, e);
      SumBalances(o, t, u, e, r.index, Added(o, s, e), |t|);
      StatsAdd(o, s, e);
    }
  }

  lemma AddsNothing(o: Options, s: State, e: Event)
    requires 0 < |s.sources| && !Sent(e) && !e.Reset?
    ensures Added(o, s, e) == NO_COUNTS
    ensures PerSource(Step(o, s, e).stats) == Plus(PerSource(s.stats), NO_COUNTS)
  {
  }

  lemma StatsAdd(o: Options, s: State, e: Event)
    requires o.enabled && 0 < |s.sources| && Sent(e)
    ensures PerSource(Step(o, s, e).stats) == Plus(PerSource(s.stats), Added(o, s, e))
  {
    hide GetSource, Decide;
  }

  lemma SweepBalances(o: Options, s: State, e: Event)
    requires 0 < |s.sources| && !Sent(e) && !e.Reset? && FreeSlotsBlank(s.sources)
    ensures var t, u := s.sources, Step(o, s, e).sources;
            FreeSlotsBlank(u) &&
            forall i :: 0 <= i < |t| ==>
              Plus(u[i].counters, if Ends(o, t, e, i) then t[i].counters else NO_COUNTS)
              == Plus(t[i].counters, if i == -1 then NO_COUNTS else NO_COUNTS)
  {
  }

  /** Slot by slot, a lookup and what is then booked in the entry lose no count. */
  lemma LookupBalances(o: Options, s: State, e: Event)
    requires ValidOptions(o) && o.enabled && 0 < |s.sources| && Sent(e)
    requires UniqueIps(s.sources) && FreeSlotsBlank(s.sources)
    ensures var t, u := s.sources, Step(o, s, e).sources;
            var r := GetSource(t, e.ip, Sizes(o), o.sourceTtl, e.now);
            FreeSlotsBlank(u) &&
            forall i :: 0 <= i < |t| ==>
              Plus(u[i].counters, if Ends(o, t, e, i) then t[i].counters else NO_COUNTS)
              == Plus(t[i].counters, if i == r.index then Added(o, s, e) else NO_COUNTS)
  {
    hide GetSource, Step, Added;
    var t, u := s.sources, Step(o, s, e).sources;
    var r := GetSource(t, e.ip, Sizes(o), o.sourceTtl, e.now);
    LookupKeepsUnique(t, e.ip, Sizes(o), o.sourceTtl, e.now);
    StepIsLookup(o, s, e);
    OthersOf(t, e.ip, o, e.now);
    EntryIsKnownOrFresh(o, t, e.ip, e.now);
    EntryBooks(o, s, e);
    assert u[r.index].used;
  }

  lemma EntryBooks(o: Options, s: State, e: Event)
    requires o.enabled && 0 < |s.sources| && Sent(e)
    ensures var r := GetSource(s.sources, e.ip, Sizes(o), o.sourceTtl, e.now);
            Step(o, s, e).sources[r.index].counters == Plus(r.table[r.index].counters, Added(o, s, e))
  {
    hide GetSource, Decide;
    var r := GetSource(s.sources, e.ip, Sizes(o), o.sourceTtl, e.now);
    if e.Packet? {
      DecisionBooks(o, s.global, r.table[r.index], e.kind, e.now);
    }
  }

  lemma EntryIsKnownOrFresh(o: Options, t: seq<Source>, ip: Ip, now: real)
    requires 0 < |t| && UniqueIps(t)
    ensures var r := GetSource(t, ip, Sizes(o), o.sourceTtl, now);
            r.table[r.index].counters
            == if Holds(t[r.index], ip) && !Expired(t[r.index], o.sourceTtl, now) then t[r.index].counters else NO_COUNTS
  {
    var k := Find(t, |t|, ip, o.sourceTtl, now);
    if k < |t| {
      KnownSource(t, ip, Sizes(o), o.sourceTtl, now, k);
    } else {
      NewSource(t, ip, Sizes(o), o.sourceTtl, now);
    }
  }

  lemma {:induction false} RunBlank(o: Options, stats: Stats, cursor: nat, start: real, es: seq<Event>, n: nat)
    requires ValidOptions(o) && o.enabled && n <= |es|
    ensures FreeSlotsBlank(After(o, Configured(o, stats, cursor, start), es, n).sources)
  {
    hide Step, FreeSlotsBlank, Ended;
    if n > 0 {
      var s := After(o, Configured(o, stats, cursor, start), es, n - 1);
      RunBlank(o, stats, cursor, start, es, n - 1);
      RunStaysInStep(o, stats, cursor, start, es, n - 1);
      if es[n - 1].Reset? {
        ResetBlanks(o, s, es[n - 1]);
      } else {
        StepBalances(o, s, es[n - 1]);
      }
    } else {
      StartBlank(o, stats, cursor, start);
    }
  }

  lemma StartBlank(o: Options, stats: Stats, cursor: nat, start: real)
    requires ValidOptions(o)
    ensures FreeSlotsBlank(Configured(o, stats, cursor, start).sources)
  {
  }

  lemma ResetBlanks(o: Options, s: State, e: Event)
    requires 0 < |s.sources| && e.Reset?
    ensures var r := Step(o, s, e);
            FreeSlotsBlank(r.sources) && Sum(r.sources, |r.sources|) == NO_COUNTS && PerSource(r.stats) == NO_COUNTS
  {
    SumOfBlank(Step(o, s, e).sources, |s.sources|);
  }

  lemma {:induction false} SumOfBlank(t: seq<Source>, n: nat)
    requires n <= |t| && forall i :: 0 <= i < n ==> t[i].counters == NO_COUNTS
    ensures Sum(t, n) == NO_COUNTS
  {
    if n > 0 {
      SumOfBlank(t, n - 1);
    }
  }

  /** The global statistics always equal what the live entries show plus what the ended entries showed, on top of
      the statistics the run began with, or since the last reset. */
  lemma {:induction false} CountersConserved(o: Options, stats: Stats, cursor: nat, start: real, es: seq<Event>, n: nat)
    requires ValidOptions(o) && o.enabled && n <= |es|
    ensures var s0 := Configured(o, stats, cursor, start);
            var s := After(o, s0, es, n);
            PerSource(s.stats) == Plus(Base(PerSource(stats), es, n), Plus(Sum(s.sources, |s.sources|), Retired(o, s0, es, n)))
  {
    hide Step, FreeSlotsBlank, Ended, Sum, Added, Configured, Plus, PerSource, InStep;
    var s0 := Configured(o, stats, cursor, start);
    if n > 0 {
      var s := After(o, s0, es, n - 1);
      CountersConserved(o, stats, cursor, start, es, n - 1);
      RunBlank(o, stats, cursor, start, es, n - 1);
      RunStaysInStep(o, stats, cursor, start, es, n - 1);
      InStepIsUnique(o, s.sources, es, n - 1);
      if es[n - 1].Reset? {
        ResetBlanks(o, s, es[n - 1]);
        PlusNothing(NO_COUNTS);
      } else {
        StepBalances(o, s, es[n - 1]);
        var u := Step(o, s, es[n - 1]).sources;
        CarryOver(PerSource(s.stats), Base(PerSource(stats), es, n - 1), Sum(s.sources, |s.sources|),
                  Retired(o, s0, es, n - 1), Sum(u, |u|), Ended(o, s.sources, es[n - 1], |s.sources|),
                  Added(o, s, es[n - 1]));
      }
    } else {
      StartCounts(o, stats, cursor, start);
      PlusNothing(NO_COUNTS);
      PlusNothing(PerSource(stats));
    }
  }

  lemma InStepIsUnique(o: Options, t: seq<Source>, es: seq<Event>, n: nat)
    requires n <= |es| && InStep(o, t, es, n)
    ensures UniqueIps(t)
  {
  }

  lemma CarryOver(p: Counters, p0: Counters, live: Counters, retired: Counters, live': Counters, ended: Counters,
                  added: Counters)
    requires p == Plus(p0, Plus(live, retired)) && Plus(live', ended) == Plus(live, added)
    ensures Plus(p, added) == Plus(p0, Plus(live', Plus(retired, ended)))
  {
  }

  lemma StartCounts(o: Options, stats: Stats, cursor: nat, start: real)
    requires ValidOptions(o)
    ensures var s := Configured(o, stats, cursor, start);
            s.stats == stats && Sum(s.sources, |s.sources|) == NO_COUNTS
  {
    SumOfBlank(Configured(o, stats, cursor, start).sources, o.maxSources);
  }

  /** How many of the first `n` events call the log: dropped packets, packets that could not be decoded, and
      overflows of the queue. */
  function Warnings(o: Options, s: State, es: seq<Event>, n: nat): nat
    requires n <= |es| && 0 < |s.sources|
  {
    if n == 0 then 0
    else
      var e := es[n - 1];
      Warnings(o, s, es, n - 1)
      + if e.BadPdu? || e.Overflow? || (e.Packet? && VerdictAt(o, s, es, n - 1) != Accepted) then 1 else 0
  }

  function Reported(reports: seq<Report>): nat {
    if reports == [] then 0 else Reported(reports[..|reports| - 1]) + reports[|reports| - 1].count
  }

  /** The reports are at least `interval` apart, the first of them from `start`, and none is empty. */
  ghost predicate Spaced(reports: seq<Report>, interval: real, start: real) {
    && (forall k :: 0 <= k < |reports| ==> 0 < reports[k].count && start + interval <= reports[k].time)
    && (forall k, l :: 0 <= k < l < |reports| ==> reports[k].time + interval <= reports[l].time)
  }

  ghost predicate LogInOrder(log: Log, interval: real, start: real) {
    && Spaced(log.reports, interval, start)
    && log.last == if log.reports == [] then start else log.reports[|log.reports| - 1].time
  }

  lemma WarnKeeps(log: Log, interval: real, start: real, now: real)
    requires LogInOrder(log, interval, start) && 0.0 < interval
    ensures var w := Warn(log, interval, now);
            LogInOrder(w, interval, start) && Reported(w.reports) + w.pending == Reported(log.reports) + log.pending + 1
  {
    var w := Warn(log, interval, now);
    if |w.reports| > |log.reports| {
      assert w.reports[..|w.reports| - 1] == log.reports;
    }
  }

  lemma StepLogs(o: Options, s: State, e: Event)
    requires 0 < |s.sources|
    ensures Step(o, s, e).log ==
            if e.BadPdu? || e.Overflow? || (e.Packet? && Accept(o, s, e.ip, e.kind, e.now).verdict != Accepted)
            then Warn(s.log, o.logInterval, e.now) else s.log
  {
    hide GetSource, Decide, Warn;
  }

  /** Every warning since the configuration is in exactly one report or still pending, and reports never come
      closer than the log interval. */
  lemma {:induction false} LogConserved(o: Options, stats: Stats, cursor: nat, start: real, es: seq<Event>, n: nat)
    requires ValidOptions(o) && n <= |es|
    ensures var s0 := Configured(o, stats, cursor, start);
            var log := After(o, s0, es, n).log;
            Reported(log.reports) + log.pending == Warnings(o, s0, es, n)
            && LogInOrder(log, o.logInterval, start)
  {
    hide Step, Accept, Warn, LogInOrder, Reported;
    var s0 := Configured(o, stats, cursor, start);
    if n > 0 {
      var s := After(o, s0, es, n - 1);
      LogConserved(o, stats, cursor, start, es, n - 1);
      StepLogs(o, s, es[n - 1]);
      WarnKeeps(s.log, o.logInterval, start, es[n - 1].now);
    } else {
      EmptyLog(o.logInterval, start);
    }
  }

  lemma EmptyLog(interval: real, start: real)
    ensures LogInOrder(Log(start, 0, []), interval, start) && Reported([]) == 0
  {
  }

  /** Does event `j` call the log? */
  predicate Warns(o: Options, s: State, es: seq<Event>, j: nat)
    requires j < |es| && 0 < |s.sources|
  {
    es[j].BadPdu? || es[j].Overflow? || (es[j].Packet? && VerdictAt(o, s, es, j) != Accepted)
  }

  /** A report was issued at `now` or less than an interval before. */
  ghost predicate Announced(reports: seq<Report>, interval: real, now: real) {
    exists k :: 0 <= k < |reports| && reports[k].time <= now < reports[k].time + interval
  }

  /** No warning waits for an announcement longer than it must: at every warning a report is issued, unless one was issued
      less than an interval before, or the configuration is less than an interval old. */
  lemma {:induction false} WarningsAreAnnounced(o: Options, stats: Stats, cursor: nat, start: real, es: seq<Event>, n: nat, j: nat)
    requires ValidOptions(o) && Ordered(start, es) && j < n <= |es|
    requires Warns(o, Configured(o, stats, cursor, start), es, j)
    ensures es[j].now < start + o.logInterval
            || Announced(After(o, Configured(o, stats, cursor, start), es, n).log.reports, o.logInterval, es[j].now)
  {
    hide Step, Accept, Announced, LogInOrder, Reported, Ordered;
    var s0 := Configured(o, stats, cursor, start);
    var s := After(o, s0, es, n - 1);
    StepLogs(o, s, es[n - 1]);
    if j < n - 1 {
      WarningsAreAnnounced(o, stats, cursor, start, es, n - 1, j);
      if Announced(s.log.reports, o.logInterval, es[j].now) {
        ReportsStay(s.log, o.logInterval, es[n - 1].now, es[j].now);
      }
    } else {
      LogConserved(o, stats, cursor, start, es, n - 1);
      LogNotAhead(o, stats, cursor, start, es, n - 1);
      WarnAnnounces(s.log, o.logInterval, start, es[j].now);
    }
  }

  lemma ReportsStay(log: Log, interval: real, now: real, at: real)
    requires Announced(log.reports, interval, at)
    ensures Announced(Warn(log, interval, now).reports, interval, at)
  {
    var k :| 0 <= k < |log.reports| && log.reports[k].time <= at < log.reports[k].time + interval;
    assert Warn(log, interval, now).reports[k] == log.reports[k];
  }

  lemma WarnAnnounces(log: Log, interval: real, start: real, now: real)
    requires LogInOrder(log, interval, start) && 0.0 < interval && log.last <= now
    ensures now < start + interval || Announced(Warn(log, interval, now).reports, interval, now)
  {
    var w := Warn(log, interval, now);
    if now - log.last >= interval {
      assert w.reports[|log.reports|].time == now;
    } else if log.reports != [] {
      assert w.reports[|log.reports| - 1].time == log.last;
    }
  }

  lemma {:induction false} LogNotAhead(o: Options, stats: Stats, cursor: nat, start: real, es: seq<Event>, n: nat)
    requires ValidOptions(o) && Ordered(start, es) && n <= |es|
    ensures var last := After(o, Configured(o, stats, cursor, start), es, n).log.last;
            last <= Clock(start, es, n) && (n < |es| ==> last <= es[n].now)
  {
    hide Step, Accept;
    if n > 0 {
      LogNotAhead(o, stats, cursor, start, es, n - 1);
      StepLogs(o, After(o, Configured(o, stats, cursor, start), es, n - 1), es[n - 1]);
    }
  }
}
