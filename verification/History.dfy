/** Whole runs of the bounded table, seen from one source: what its last packet left behind, and how long that is
    retained. */
module History {
  import opened Cidr
  import opened SourceTable
  import opened Admission
  import opened AdmissionRuns
  import opened Forgetting
  import opened SourceTableRuns
  import opened Wrappers

  /** A run under fixed options, from a configuration at `start` on. */
  datatype Run = Run(o: Options, stats: Stats, cursor: nat, start: real, es: seq<Event>)

  ghost predicate Proper(r: Run) {
    ValidOptions(r.o) && r.o.enabled && Ordered(r.start, r.es)
  }

  /** The state before event `n`. */
  function StateAt(r: Run, n: nat): (s: State)
    requires n <= |r.es| && 0 < r.o.maxSources
    ensures |s.sources| == r.o.maxSources
  {
    After(r.o, Configured(r.o, r.stats, r.cursor, r.start), r.es, n)
  }

  function Table(r: Run, n: nat): seq<Source>
    requires n <= |r.es| && 0 < r.o.maxSources
  {
    StateAt(r, n).sources
  }

  predicate About(e: Event, ip: Ip) {
    Sent(e) && e.ip == ip
  }

  /** The entry a packet of `ip` is judged by. */
  function Entry(o: Options, s: State, ip: Ip, now: real): Source
    requires 0 < |s.sources|
  {
    var found := GetSource(s.sources, ip, Sizes(o), o.sourceTtl, now);
    found.table[found.index]
  }

  /** What a packet leaves in the entry of its source. */
  function Result(o: Options, s: State, e: Event): Source
    requires 0 < |s.sources| && Sent(e)
  {
    var x := Entry(o, s, e.ip, e.now);
    if e.Packet? then Decide(o, s.global, x, e.kind, e.now).source else Blamed(x)
  }

  /** What the last of the packets of `ip` among the first `n` events left behind, whether or not the table still
      holds it. */
  function Left(r: Run, ip: Ip, n: nat): Option<Source>
    requires n <= |r.es| && 0 < r.o.maxSources
  {
    if n == 0 then None
    else if About(r.es[n - 1], ip) then Some(Result(r.o, StateAt(r, n - 1), r.es[n - 1]))
    else Left(r, ip, n - 1)
  }

  /** The table holds an entry of `ip` that has not expired. */
  ghost predicate Live(o: Options, t: seq<Source>, ip: Ip, now: real) {
    exists i :: 0 <= i < |t| && Holds(t[i], ip) && !Expired(t[i], o.sourceTtl, now)
  }

  ghost predicate LiveAt(r: Run, ip: Ip, n: nat)
    requires n < |r.es| && 0 < r.o.maxSources
  {
    Live(r.o, Table(r, n), ip, r.es[n].now)
  }

  /** Among the events from `lo` to before `hi` there is a packet of `ip`. */
  ghost predicate Seen(es: seq<Event>, ip: Ip, lo: nat, hi: nat)
    requires hi <= |es|
  {
    exists j :: lo <= j < hi && About(es[j], ip)
  }

  /** From its first packet in the stretch on, the source finds its entry retained at each of its packets. */
  ghost predicate Retained(r: Run, ip: Ip, lo: nat, hi: nat)
    requires hi <= |r.es| && 0 < r.o.maxSources
  {
    forall j :: lo <= j < hi && About(r.es[j], ip) && Seen(r.es, ip, lo, j) ==> LiveAt(r, ip, j)
  }

  ghost predicate SlotIs(t: seq<Source>, ip: Ip, left: Option<Source>) {
    forall i :: 0 <= i < |t| && Holds(t[i], ip) ==> left.Some? && t[i] == left.value.(counters := t[i].counters)
  }

  lemma StepAt(r: Run, n: nat)
    requires ValidOptions(r.o) && n < |r.es|
    ensures StateAt(r, n + 1) == Step(r.o, StateAt(r, n), r.es[n])
    ensures UniqueIps(Table(r, n)) && InStep(r.o, Table(r, n), r.es, n)
  {
    hide Step, InStep;
    RunStaysInStep(r.o, r.stats, r.cursor, r.start, r.es, n);
    InStepUnique(r.o, Table(r, n), r.es, n);
  }

  lemma InStepUnique(o: Options, t: seq<Source>, es: seq<Event>, n: nat)
    requires n <= |es| && InStep(o, t, es, n)
    ensures UniqueIps(t)
  {
  }

  /** A packet leaves its result in the slot of its source. */
  lemma ResultStored(o: Options, s: State, e: Event)
    requires o.enabled && 0 < |s.sources| && Sent(e)
    ensures var found := GetSource(s.sources, e.ip, Sizes(o), o.sourceTtl, e.now);
            Step(o, s, e).sources == found.table[found.index := Result(o, s, e)]
  {
    hide GetSource, Decide;
  }

  /** One event keeps slots in line with what packets left. */
  lemma SlotStep(o: Options, s: State, e: Event, ip: Ip, left: Option<Source>)
    requires o.enabled && 0 < |s.sources| && UniqueIps(s.sources) && SlotIs(s.sources, ip, left)
    ensures SlotIs(Step(o, s, e).sources, ip, if About(e, ip) then Some(Result(o, s, e)) else left)
  {
    hide GetSource, Step, Result;
    var t, u := s.sources, Step(o, s, e).sources;
    if Sent(e) {
      var found := GetSource(t, e.ip, Sizes(o), o.sourceTtl, e.now);
      ResultStored(o, s, e);
      ResultKeeps(o, s, e);
      LookupKeepsUnique(t, e.ip, Sizes(o), o.sourceTtl, e.now);
      OthersOf(t, e.ip, o, e.now);
      forall i | 0 <= i < |u| && i != found.index && Holds(u[i], ip) ensures u[i] == t[i] && e.ip != ip {
        assert u[i] == found.table[i];
        assert Holds(found.table[found.index], e.ip);
      }
    } else {
      QuietStep(o, s, e);
    }
  }

  lemma ResultKeeps(o: Options, s: State, e: Event)
    requires 0 < |s.sources| && Sent(e)
    ensures var x, y := Entry(o, s, e.ip, e.now), Result(o, s, e);
            y.used == x.used && y.ip == x.ip && y.lastSeen == x.lastSeen
  {
    hide GetSource, Passes;
    var found := GetSource(s.sources, e.ip, Sizes(o), o.sourceTtl, e.now);
    if e.Packet? {
      LimitKeepsIdentity(o, s.global, found, e.kind, e.now);
    }
  }

  /** A slot of `ip` always holds what the last packet of `ip` left. */
  lemma {:induction false} SlotsHoldWhatIsLeft(r: Run, ip: Ip, n: nat)
    requires ValidOptions(r.o) && r.o.enabled && n <= |r.es|
    ensures SlotIs(Table(r, n), ip, Left(r, ip, n))
  {
    hide Step, SlotIs, Result, InStep;
    if n > 0 {
      SlotsHoldWhatIsLeft(r, ip, n - 1);
      StepAt(r, n - 1);
      SlotStep(r.o, StateAt(r, n - 1), r.es[n - 1], ip, Left(r, ip, n - 1));
    } else {
      EmptyHoldsNothing(r, ip);
    }
  }

  lemma EmptyHoldsNothing(r: Run, ip: Ip)
    requires 0 < r.o.maxSources
    ensures SlotIs(Table(r, 0), ip, None)
  {
  }

  /** A packet of `ip` is judged by what the last one left if the entry is still live, and else by a fresh one. */
  lemma EntryIsLeftOrFresh(r: Run, ip: Ip, n: nat)
    requires ValidOptions(r.o) && r.o.enabled && n < |r.es|
    ensures var x, left := Entry(r.o, StateAt(r, n), ip, r.es[n].now), Left(r, ip, n);
            if LiveAt(r, ip, n) then left.Some? && x == left.value.(lastSeen := r.es[n].now, counters := x.counters)
                                     && r.es[n].now - left.value.lastSeen <= r.o.sourceTtl
            else x == Fresh(ip, Sizes(r.o), r.es[n].now)
  {
    hide GetSource, InStep;
    SlotsHoldWhatIsLeft(r, ip, n);
    StepAt(r, n);
    EntryShape(r.o, StateAt(r, n), ip, r.es[n].now);
  }

  lemma EntryShape(o: Options, s: State, ip: Ip, now: real)
    requires 0 < |s.sources| && UniqueIps(s.sources)
    ensures var x, t := Entry(o, s, ip, now), s.sources;
            if Live(o, t, ip, now)
            then exists i :: 0 <= i < |t| && Holds(t[i], ip) && !Expired(t[i], o.sourceTtl, now) && x == t[i].(lastSeen := now)
            else x == Fresh(ip, Sizes(o), now)
  {
    var t := s.sources;
    var k := Find(t, |t|, ip, o.sourceTtl, now);
    if k < |t| {
      KnownSource(t, ip, Sizes(o), o.sourceTtl, now, k);
    } else {
      NewSource(t, ip, Sizes(o), o.sourceTtl, now);
    }
  }

  lemma FreshIsHealthy(o: Options, ip: Ip, now: real)
    requires ValidOptions(o) && 0.0 <= now
    ensures HealthySource(o, Fresh(ip, Sizes(o), now))
  {
  }

  /** What an entry must be for a packet at `now` to leave a sound one. */
  ghost predicate Sound(o: Options, x: Source, ip: Ip, now: real) {
    x.used && x.ip == ip && HealthySource(o, x) && x.lastSeen == now
  }

  lemma LaterIsHealthy(o: Options, x: Source, y: Source, now: real)
    requires HealthySource(o, x) && x.lastSeen <= now && y == x.(lastSeen := now, counters := y.counters)
    ensures HealthySource(o, y)
  {
  }

  lemma ResultIsSound(o: Options, s: State, e: Event)
    requires ValidOptions(o) && 0 < |s.sources| && Sent(e) && Sound(o, Entry(o, s, e.ip, e.now), e.ip, e.now)
    ensures Sound(o, Result(o, s, e), e.ip, e.now)
  {
    hide GetSource, Decide, HealthySource;
    var x := Entry(o, s, e.ip, e.now);
    if e.Packet? {
      DecideHealthy(o, s.global, x, e.kind, e.now);
    } else {
      BlamedIsHealthy(o, x);
    }
  }

  lemma BlamedIsHealthy(o: Options, x: Source)
    requires HealthySource(o, x)
    ensures HealthySource(o, Blamed(x))
  {
  }

  /** Every packet is judged by a sound entry and leaves one. */
  lemma {:induction false} LeftIsSound(r: Run, ip: Ip, n: nat)
    requires Proper(r) && n <= |r.es|
    ensures match Left(r, ip, n)
            case None => true
            case Some(x) => 0.0 <= x.lastSeen <= Clock(r.start, r.es, n) && Sound(r.o, x, ip, x.lastSeen)
    ensures n < |r.es| ==> Sound(r.o, Entry(r.o, StateAt(r, n), ip, r.es[n].now), ip, r.es[n].now)
  {
    hide Entry, HealthySource, Result, LiveAt;
    if n > 0 {
      LeftIsSound(r, ip, n - 1);
      if About(r.es[n - 1], ip) {
        ResultIsSound(r.o, StateAt(r, n - 1), r.es[n - 1]);
      }
    }
    if n < |r.es| {
      var x := Entry(r.o, StateAt(r, n), ip, r.es[n].now);
      EntryIsLeftOrFresh(r, ip, n);
      if LiveAt(r, ip, n) {
        LaterIsHealthy(r.o, Left(r, ip, n).value, x, r.es[n].now);
      } else {
        FreshIsHealthy(r.o, ip, r.es[n].now);
      }
    }
  }

  /** A table full of live entries of other addresses has seen too many sources. */
  lemma CrowdIsRecent(o: Options, t: seq<Source>, es: seq<Event>, n: nat)
    requires ValidOptions(o) && n < |es| && Sent(es[n]) && InStep(o, t, es, n)
    requires forall i :: 0 <= i < |t| ==> t[i].used && t[i].ip != es[n].ip && !Expired(t[i], o.sourceTtl, es[n].now)
    ensures |RecentIps(o, es, n)| > o.maxSources
  {
    var held := set i | 0 <= i < |t| :: t[i].ip;
    AddressesCount(t, |t|);
    var recent := RecentIps(o, es, n);
    forall i | 0 <= i < |t| ensures t[i].ip in recent {
      assert Witnessed(es, n, t[i].ip, t[i].lastSeen);
      var j :| 0 <= j < n && Sent(es[j]) && es[j].ip == t[i].ip && es[j].now == t[i].lastSeen;
      assert es[n].now - es[j].now <= o.sourceTtl;
    }
    assert es[n].ip in recent;
    Subset(held, recent - {es[n].ip});
  }

  /** With few sources about, an event displaces no live entry. */
  lemma FewKeepLive(r: Run, ip: Ip, n: nat)
    requires Proper(r) && n < |r.es| && |RecentIps(r.o, r.es, n)| <= r.o.maxSources && LiveAt(r, ip, n)
    ensures Tracked(Table(r, n + 1), ip)
  {
    hide Step, GetSource, InStep, RecentIps;
    StepAt(r, n);
    var s, e := StateAt(r, n), r.es[n];
    var i :| 0 <= i < |s.sources| && Holds(s.sources[i], ip) && !Expired(s.sources[i], r.o.sourceTtl, e.now);
    SurvivesUnlessReplaced(r.o, s, e, i);
    if !Tracked(Table(r, n + 1), ip) {
      Full(r.o, s.sources, e.ip, e.now, i);
      CrowdIsRecent(r.o, s.sources, r.es, n);
    }
  }

  /** With few sources about, what a packet left stays in the table for the whole time to live. */
  lemma {:induction false} StaysTracked(r: Run, ip: Ip, n: nat, now: real)
    requires Proper(r) && FewSources(r.o, r.es) && n <= |r.es| && Left(r, ip, n).Some?
    requires forall k :: 0 <= k < n ==> r.es[k].now <= now
    requires now - Left(r, ip, n).value.lastSeen <= r.o.sourceTtl
    ensures Live(r.o, Table(r, n), ip, now)
  {
    hide Step, RecentIps, Result, GetSource, StateAt;
    SlotsHoldWhatIsLeft(r, ip, n);
    if About(r.es[n - 1], ip) {
      StepAt(r, n - 1);
      ResultStored(r.o, StateAt(r, n - 1), r.es[n - 1]);
      LeftIsSound(r, ip, n);
      var found := GetSource(Table(r, n - 1), ip, Sizes(r.o), r.o.sourceTtl, r.es[n - 1].now);
      assert Holds(Table(r, n)[found.index], ip);
    } else {
      StaysTracked(r, ip, n - 1, r.es[n - 1].now);
      FewKeepLive(r, ip, n - 1);
    }
  }

  /** With few sources about, an entry that is missing has been idle for longer than the time to live. */
  lemma MissingIsIdle(r: Run, ip: Ip, n: nat)
    requires Proper(r) && FewSources(r.o, r.es) && n < |r.es| && Left(r, ip, n).Some? && !LiveAt(r, ip, n)
    ensures r.es[n].now - Left(r, ip, n).value.lastSeen > r.o.sourceTtl
  {
    hide FewSources;
    if r.es[n].now - Left(r, ip, n).value.lastSeen <= r.o.sourceTtl {
      StaysTracked(r, ip, n, r.es[n].now);
    }
  }

  /** The verdict on event `j`, a packet. */
  function VerdictOf(r: Run, j: nat): Verdict
    requires j < |r.es| && r.es[j].Packet? && 0 < r.o.maxSources
  {
    Accept(r.o, StateAt(r, j), r.es[j].ip, r.es[j].kind, r.es[j].now).verdict
  }

  lemma DecidedOnEntry(r: Run, j: nat)
    requires j < |r.es| && r.es[j].Packet? && 0 < r.o.maxSources && r.o.enabled
    ensures var s, e := StateAt(r, j), r.es[j];
            VerdictOf(r, j) == Decide(r.o, s.global, Entry(r.o, s, e.ip, e.now), e.kind, e.now).verdict
  {
    hide Decide, GetSource;
  }

  lemma {:induction false} LeftSince(r: Run, ip: Ip, lo: nat, n: nat)
    requires Proper(r) && lo < n <= |r.es| && About(r.es[lo], ip)
    ensures Left(r, ip, n).Some? && r.es[lo].now <= Left(r, ip, n).value.lastSeen
  {
    hide Result, Entry;
    if About(r.es[n - 1], ip) {
      LeftIsSound(r, ip, n - 1);
      ResultKeeps(r.o, StateAt(r, n - 1), r.es[n - 1]);
    } else {
      LeftSince(r, ip, lo, n - 1);
    }
  }

  /** With few sources about, an entry is retained for as long as the time to live from any of its packets on. */
  lemma WithinTtlRetained(r: Run, ip: Ip, lo: nat, hi: nat)
    requires Proper(r) && FewSources(r.o, r.es) && lo < hi <= |r.es| && About(r.es[lo], ip)
    requires r.es[hi - 1].now - r.es[lo].now <= r.o.sourceTtl
    ensures Retained(r, ip, lo, hi)
  {
    hide LiveAt, FewSources, Left;
    forall j | lo <= j < hi && About(r.es[j], ip) && Seen(r.es, ip, lo, j) ensures LiveAt(r, ip, j) {
      LeftSince(r, ip, lo, j);
      assert r.es[j].now <= r.es[hi - 1].now;
      if !LiveAt(r, ip, j) {
        MissingIsIdle(r, ip, j);
      }
    }
  }
}
