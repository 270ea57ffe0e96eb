/** How many packets a run can get past the token buckets within a stretch of time. */
module RateBounds {
  import opened Cidr
  import opened TokenBucket
  import opened SourceTable
  import opened Admission
  import opened AdmissionRuns
  import opened Forgetting
  import opened History
  import opened Wrappers

  /** What a bucket limits: all packets of a source, its Who-Is requests or its writes. */
  datatype Service = AnyPacket | WhoIsOnly | WriteOnly

  function BucketOf(x: Source, sv: Service): Bucket {
    match sv case AnyPacket => x.packets case WhoIsOnly => x.whoIs case WriteOnly => x.writes
  }

  function Rate(o: Options, sv: Service): real {
    match sv case AnyPacket => o.perSourceRate case WhoIsOnly => o.whoIsRate case WriteOnly => o.writeRate
  }

  function Burst(o: Options, sv: Service): real {
    match sv
    case AnyPacket => o.perSourceBurst as real
    case WhoIsOnly => o.whoIsBurst as real
    case WriteOnly => o.writeBurst as real
  }

  predicate Charges(kind: Kind, sv: Service) {
    sv == AnyPacket || (sv == WhoIsOnly && kind == WhoIs) || (sv == WriteOnly && kind == Write)
  }

  /** How many of the events from `lo` to before `hi` are accepted packets of `who` (of anyone if `None`) that the
      service limit applies to. */
  ghost function CountAccepted(es: seq<Event>, vs: seq<Option<Verdict>>, who: Option<Ip>, sv: Service, lo: nat, hi: nat): nat
    requires lo <= hi <= |es| == |vs|
  {
    if lo == hi then 0
    else
      var e := es[hi - 1];
      CountAccepted(es, vs, who, sv, lo, hi - 1)
      + if e.Packet? && vs[hi - 1] == Some(Accepted) && (who == None || who == Some(e.ip)) && Charges(e.kind, sv)
        then 1 else 0
  }

  function LevelAt(o: Options, x: Source, sv: Service, now: real): real {
    Level(BucketOf(x, sv), Rate(o, sv), Burst(o, sv), now)
  }

  /** What flows into a bucket in `time`. */
  function Flow(rate: real, time: real): real {
    rate * time
  }

  lemma FlowAdds(rate: real, a: real, b: real, c: real)
    ensures Flow(rate, c - a) == Flow(rate, b - a) + Flow(rate, c - b)
  {
  }

  /** A decision either leaves the global bucket alone and admits nothing, or asks it for one token. */
  lemma DecisionAsksGlobal(o: Options, g: Bucket, x: Source, kind: Kind, now: real)
    ensures var d, taken := Decide(o, g, x, kind, now), Take(g, o.globalRate, o.globalBurst as real, now);
            (d.global == g && d.verdict != Accepted) || (d.global == taken.bucket && (d.verdict == Accepted ==> taken.ok))
  {
    hide Take, Passes;
  }

  lemma LevelRises(b: Bucket, rate: real, burst: real, from: real, now: real)
    requires 0.0 <= rate && 0.0 <= burst && from <= now && Healthy(b, burst, from)
    ensures Healthy(b, burst, now)
    ensures Level(b, rate, burst, now) <= burst && Level(b, rate, burst, now) <= Level(b, rate, burst, from) + Flow(rate, now - from)
  {
    TakeSpends(b, rate, burst, from, now);
  }

  /** One decision spends what it admits from the global bucket. */
  lemma SpendsGlobal(o: Options, g: Bucket, x: Source, kind: Kind, from: real, now: real)
    requires ValidOptions(o) && from <= now && Healthy(g, o.globalBurst as real, from)
    ensures var d := Decide(o, g, x, kind, now);
            var spent := (if d.verdict == Accepted then 1.0 else 0.0) + GlobalLevel(o, d.global, now);
            && Healthy(d.global, o.globalBurst as real, now)
            && spent <= o.globalBurst as real
            && spent <= GlobalLevel(o, g, from) + Flow(o.globalRate, now - from)
  {
    hide Decide, Take, Flow, Level;
    DecisionAsksGlobal(o, g, x, kind, now);
    LevelRises(g, o.globalRate, o.globalBurst as real, from, now);
    TakeSpends(g, o.globalRate, o.globalBurst as real, from, now);
  }

  /** ... and from the buckets of the source. */
  lemma SpendsSource(o: Options, g: Bucket, x: Source, kind: Kind, now: real, sv: Service)
    requires ValidOptions(o) && HealthySource(o, x) && x.lastSeen == now
    ensures var d := Decide(o, g, x, kind, now);
            (if d.verdict == Accepted && Charges(kind, sv) then 1.0 else 0.0) + LevelAt(o, d.source, sv, now)
            <= LevelAt(o, x, sv, now)
  {
    TakeSpends(x.packets, o.perSourceRate, o.perSourceBurst as real, now, now);
    TakeSpends(x.whoIs, o.whoIsRate, o.whoIsBurst as real, now, now);
    TakeSpends(x.writes, o.writeRate, o.writeBurst as real, now, now);
  }

  function GlobalLevel(o: Options, g: Bucket, now: real): real {
    Level(g, o.globalRate, o.globalBurst as real, now)
  }

  lemma PacketIsDecision(o: Options, s: State, e: Event)
    requires o.enabled && 0 < |s.sources| && e.Packet?
    ensures var d := Decide(o, s.global, Entry(o, s, e.ip, e.now), e.kind, e.now);
            Step(o, s, e).global == d.global && Accept(o, s, e.ip, e.kind, e.now).verdict == d.verdict
  {
    hide Decide, GetSource;
  }

  lemma OthersKeepGlobal(o: Options, s: State, e: Event)
    requires 0 < |s.sources| && !e.Packet?
    ensures Step(o, s, e).global == s.global
  {
    hide GetSource;
  }

  /** One event of a run, seen from the global bucket. */
  lemma StepSpendsGlobal(o: Options, s: State, e: Event, from: real)
    requires ValidOptions(o) && o.enabled && 0 < |s.sources| && from <= e.now
    requires Healthy(s.global, o.globalBurst as real, from)
    ensures var g := Step(o, s, e).global;
            var spent := (if e.Packet? && Accept(o, s, e.ip, e.kind, e.now).verdict == Accepted then 1.0 else 0.0)
                         + GlobalLevel(o, g, e.now);
            && Healthy(g, o.globalBurst as real, e.now)
            && spent <= o.globalBurst as real
            && spent <= GlobalLevel(o, s.global, from) + Flow(o.globalRate, e.now - from)
  {
    hide Step, Accept, Decide, GetSource;
    if e.Packet? {
      PacketIsDecision(o, s, e);
      SpendsGlobal(o, s.global, Entry(o, s, e.ip, e.now), e.kind, from, e.now);
    } else {
      OthersKeepGlobal(o, s, e);
      LevelRises(s.global, o.globalRate, o.globalBurst as real, from, e.now);
    }
  }

  lemma {:induction false} GlobalHealthy(o: Options, s: State, start: real, es: seq<Event>, n: nat)
    requires ValidOptions(o) && o.enabled && 0 < |s.sources| && Ordered(start, es) && n <= |es|
    requires Healthy(s.global, o.globalBurst as real, start)
    ensures Healthy(After(o, s, es, n).global, o.globalBurst as real, Clock(start, es, n))
  {
    hide Step;
    if n > 0 {
      GlobalHealthy(o, s, start, es, n - 1);
      StepSpendsGlobal(o, After(o, s, es, n - 1), es[n - 1], Clock(start, es, n - 1));
    }
  }

  lemma {:induction false} GlobalPotential(o: Options, s: State, start: real, es: seq<Event>, lo: nat, hi: nat)
    requires ValidOptions(o) && o.enabled && 0 < |s.sources| && Ordered(start, es) && lo < hi <= |es|
    requires Healthy(s.global, o.globalBurst as real, start)
    ensures CountAccepted(es, Verdicts(o, s, es), None, AnyPacket, lo, hi) as real
            + GlobalLevel(o, After(o, s, es, hi).global, es[hi - 1].now)
            <= o.globalBurst as real + Flow(o.globalRate, es[hi - 1].now - es[lo].now)
  {
    hide Step, Accept, Ordered, Level, Healthy, GlobalLevel, Flow;
    var before, vs := After(o, s, es, hi - 1), Verdicts(o, s, es);
    var t0, e := es[lo].now, es[hi - 1];
    GlobalHealthy(o, s, start, es, hi - 1);
    assert CountAccepted(es, vs, None, AnyPacket, lo, hi) == CountAccepted(es, vs, None, AnyPacket, lo, hi - 1)
      + if e.Packet? && Accept(o, before, e.ip, e.kind, e.now).verdict == Accepted then 1 else 0;
    OrderedClock(start, es, hi - 1);
    StepSpendsGlobal(o, before, e, Clock(start, es, hi - 1));
    if hi == lo + 1 {
      assert CountAccepted(es, vs, None, AnyPacket, lo, lo) == 0;
      NoFlow(o.globalRate);
    } else {
      GlobalPotential(o, s, start, es, lo, hi - 1);
      FlowAdds(o.globalRate, t0, es[hi - 2].now, e.now);
    }
  }

  lemma OrderedClock(start: real, es: seq<Event>, n: nat)
    requires Ordered(start, es) && n < |es|
    ensures 0.0 <= Clock(start, es, n) <= es[n].now
  {
  }

  lemma NoFlow(rate: real)
    ensures Flow(rate, 0.0) == 0.0
  {
  }

  /** In every run, whatever the table forgets, the packets accepted within any stretch of time are at most
      `globalBurst` plus what `globalRate` adds in that time. */
  lemma GlobalLimitHolds(o: Options, stats: Stats, cursor: nat, start: real, es: seq<Event>, lo: nat, hi: nat)
    requires ValidOptions(o) && o.enabled && Ordered(start, es) && lo < hi <= |es|
    ensures CountAccepted(es, Verdicts(o, Configured(o, stats, cursor, start), es), None, AnyPacket, lo, hi) as real
            <= o.globalBurst as real + o.globalRate * (es[hi - 1].now - es[lo].now)
  {
    hide Ordered, Step, Level, Verdicts;
    var s := Configured(o, stats, cursor, start);
    GlobalPotential(o, s, start, es, lo, hi);
    GlobalHealthy(o, s, start, es, hi);
    LastClock(start, es, hi);
    LevelInRange(After(o, s, es, hi).global, o.globalRate, o.globalBurst as real, es[hi - 1].now);
    assert 0.0 <= GlobalLevel(o, After(o, s, es, hi).global, es[hi - 1].now);
  }

  lemma LastClock(start: real, es: seq<Event>, n: nat)
    requires 0 < n <= |es|
    ensures Clock(start, es, n) == es[n - 1].now
  {
  }

  /** No packet of `ip` after its first in the stretch finds more in its bucket than its last one left there, plus what
      has flowed in since. */
  ghost predicate Carried(r: Run, ip: Ip, sv: Service, lo: nat, hi: nat)
    requires hi <= |r.es| && 0 < r.o.maxSources
  {
    forall j :: lo <= j < hi && About(r.es[j], ip) && Seen(r.es, ip, lo, j) ==>
      Left(r, ip, j).Some? &&
      LevelAt(r.o, Entry(r.o, StateAt(r, j), ip, r.es[j].now), sv, r.es[j].now)
      <= LevelAt(r.o, Left(r, ip, j).value, sv, r.es[j].now)
  }

  lemma SoundRises(o: Options, x: Source, ip: Ip, sv: Service, from: real, now: real)
    requires ValidOptions(o) && Sound(o, x, ip, x.lastSeen) && x.lastSeen <= from <= now
    ensures 0.0 <= LevelAt(o, x, sv, now) <= Burst(o, sv)
    ensures LevelAt(o, x, sv, now) <= LevelAt(o, x, sv, from) + Flow(Rate(o, sv), now - from)
  {
    LevelRises(BucketOf(x, sv), Rate(o, sv), Burst(o, sv), from, now);
    LevelInRange(BucketOf(x, sv), Rate(o, sv), Burst(o, sv), now);
  }

  /** What a packet of `ip` takes out of the bucket of its entry. */
  lemma ResultSpends(r: Run, ip: Ip, sv: Service, n: nat)
    requires Proper(r) && n < |r.es| && About(r.es[n], ip)
    ensures var e, s := r.es[n], StateAt(r, n);
            var counted := e.Packet? && Accept(r.o, s, ip, e.kind, e.now).verdict == Accepted && Charges(e.kind, sv);
            (if counted then 1.0 else 0.0) + LevelAt(r.o, Result(r.o, s, e), sv, e.now)
            <= LevelAt(r.o, Entry(r.o, s, ip, e.now), sv, e.now)
  {
    hide Entry, Accept, Level, Decide, HealthySource, StateAt;
    LeftIsSound(r, ip, n);
    var e, s := r.es[n], StateAt(r, n);
    if e.Packet? {
      PacketIsDecision(r.o, s, e);
      SpendsSource(r.o, s.global, Entry(r.o, s, ip, e.now), e.kind, e.now, sv);
    }
  }

  ghost function CountOf(r: Run, ip: Ip, sv: Service, lo: nat, hi: nat): nat
    requires lo <= hi <= |r.es| && ValidOptions(r.o)
  {
    CountAccepted(r.es, Verdicts(r.o, Configured(r.o, r.stats, r.cursor, r.start), r.es), Some(ip), sv, lo, hi)
  }

  lemma CountStep(r: Run, ip: Ip, sv: Service, lo: nat, n: nat)
    requires ValidOptions(r.o) && lo <= n < |r.es|
    ensures var e, s := r.es[n], StateAt(r, n);
            var counted := e.Packet? && e.ip == ip && Accept(r.o, s, ip, e.kind, e.now).verdict == Accepted && Charges(e.kind, sv);
            CountOf(r, ip, sv, lo, n + 1) == CountOf(r, ip, sv, lo, n) + if counted then 1 else 0
    ensures CountOf(r, ip, sv, lo, lo) == 0
  {
    hide Accept, Charges;
  }

  /** What is left in the bucket at `now`; nothing counts before the first packet of the stretch. */
  ghost function Rest(r: Run, ip: Ip, sv: Service, lo: nat, hi: nat, now: real): real
    requires hi <= |r.es| && 0 < r.o.maxSources
  {
    if Seen(r.es, ip, lo, hi) && Left(r, ip, hi).Some? then LevelAt(r.o, Left(r, ip, hi).value, sv, now) else 0.0
  }

  lemma {:induction false} UnseenCountsNothing(r: Run, ip: Ip, sv: Service, lo: nat, n: nat)
    requires ValidOptions(r.o) && lo <= n <= |r.es| && !Seen(r.es, ip, lo, n)
    ensures CountOf(r, ip, sv, lo, n) == 0
  {
    hide CountOf;
    if lo < n {
      UnseenCountsNothing(r, ip, sv, lo, n - 1);
      CountStep(r, ip, sv, lo, n - 1);
    } else if n < |r.es| {
      CountStep(r, ip, sv, lo, n);
    } else {
      NothingCounted(r, ip, sv, n);
    }
  }

  lemma NothingCounted(r: Run, ip: Ip, sv: Service, n: nat)
    requires ValidOptions(r.o) && n <= |r.es|
    ensures CountOf(r, ip, sv, n, n) == 0
  {
  }

  /** One event, seen from one bucket of one source. */
  lemma RestSpends(r: Run, ip: Ip, sv: Service, lo: nat, n: nat)
    requires Proper(r) && lo <= n < |r.es| && Carried(r, ip, sv, lo, n + 1)
    ensures var now := r.es[n].now;
            var spent := CountOf(r, ip, sv, lo, n + 1) as real + Rest(r, ip, sv, lo, n + 1, now);
            if Seen(r.es, ip, lo, n) && n > 0
            then spent <= CountOf(r, ip, sv, lo, n) as real + Rest(r, ip, sv, lo, n, r.es[n - 1].now)
                          + Flow(Rate(r.o, sv), now - r.es[n - 1].now)
            else spent <= Burst(r.o, sv)
  {
    hide CountOf, Entry, Result, Level, Flow, Rate, Burst, Charges, Ordered, LevelAt, StateAt;
    var e, now := r.es[n], r.es[n].now;
    CountStep(r, ip, sv, lo, n);
    LeftIsSound(r, ip, n);
    if n > 0 {
      InTurn(r, n);
      if Left(r, ip, n).Some? {
        SoundRises(r.o, Left(r, ip, n).value, ip, sv, r.es[n - 1].now, now);
      }
    }
    if !Seen(r.es, ip, lo, n) {
      UnseenCountsNothing(r, ip, sv, lo, n);
    }
    SeenStep(r.es, ip, lo, n);
    if Seen(r.es, ip, lo, n) {
      LeftSeen(r, ip, lo, n);
    }
    if About(e, ip) {
      ResultSpends(r, ip, sv, n);
      SoundRises(r.o, Entry(r.o, StateAt(r, n), ip, now), ip, sv, now, now);
    } else {
      SomeBurst(r.o, sv);
    }
  }

  lemma SomeBurst(o: Options, sv: Service)
    requires ValidOptions(o)
    ensures 0.0 <= Burst(o, sv) && 0.0 < Rate(o, sv)
  {
  }

  lemma InTurn(r: Run, n: nat)
    requires Proper(r) && 0 < n < |r.es|
    ensures Clock(r.start, r.es, n) == r.es[n - 1].now <= r.es[n].now
  {
  }

  lemma SeenStep(es: seq<Event>, ip: Ip, lo: nat, n: nat)
    requires lo <= n < |es|
    ensures Seen(es, ip, lo, n + 1) <==> Seen(es, ip, lo, n) || About(es[n], ip)
  {
    if Seen(es, ip, lo, n + 1) {
      var j :| lo <= j < n + 1 && About(es[j], ip);
      assert j < n ==> Seen(es, ip, lo, n);
    }
    assert About(es[n], ip) ==> Seen(es, ip, lo, n + 1);
  }

  lemma {:induction false} LeftSeen(r: Run, ip: Ip, lo: nat, n: nat)
    requires 0 < r.o.maxSources && n <= |r.es| && Seen(r.es, ip, lo, n)
    ensures Left(r, ip, n).Some?
  {
    hide Result;
    if !About(r.es[n - 1], ip) {
      LeftSeen(r, ip, lo, n - 1);
    }
  }

  lemma {:induction false} SourcePotential(r: Run, ip: Ip, sv: Service, lo: nat, hi: nat)
    requires Proper(r) && lo < hi <= |r.es| && Carried(r, ip, sv, lo, hi)
    ensures CountOf(r, ip, sv, lo, hi) as real + Rest(r, ip, sv, lo, hi, r.es[hi - 1].now)
            <= Burst(r.o, sv) + Flow(Rate(r.o, sv), r.es[hi - 1].now - r.es[lo].now)
  {
    hide CountOf, Rest, Flow, Rate, Burst, Entry, LevelAt, Left, Ordered, StateAt;
    RestSpends(r, ip, sv, lo, hi - 1);
    SomeBurst(r.o, sv);
    FlowGrows(r, sv, lo, hi - 1);
    if hi - 1 > lo {
      SourcePotential(r, ip, sv, lo, hi - 1);
      FlowAdds(Rate(r.o, sv), r.es[lo].now, r.es[hi - 2].now, r.es[hi - 1].now);
    }
  }

  lemma FlowGrows(r: Run, sv: Service, lo: nat, n: nat)
    requires Proper(r) && lo <= n < |r.es|
    ensures 0.0 <= Flow(Rate(r.o, sv), r.es[n].now - r.es[lo].now)
  {
    var elapsed := r.es[n].now - r.es[lo].now;
    assert 0.0 <= elapsed;
    assert 0.0 <= Rate(r.o, sv) * elapsed;
  }

  /** What a stretch admits is bounded as long as no packet finds its bucket fuller than it was left. */
  lemma CarriedIsBounded(r: Run, ip: Ip, sv: Service, lo: nat, hi: nat)
    requires Proper(r) && lo < hi <= |r.es| && Carried(r, ip, sv, lo, hi)
    ensures CountOf(r, ip, sv, lo, hi) as real <= Burst(r.o, sv) + Rate(r.o, sv) * (r.es[hi - 1].now - r.es[lo].now)
  {
    hide CountOf, Entry, LevelAt, Ordered, StateAt;
    SourcePotential(r, ip, sv, lo, hi);
    LeftIsSound(r, ip, hi);
    LastClock(r.start, r.es, hi);
    if Left(r, ip, hi).Some? {
      SoundRises(r.o, Left(r, ip, hi).value, ip, sv, r.es[hi - 1].now, r.es[hi - 1].now);
    }
  }

  /** Under any options and in any run, however many sources there are: in a stretch in which its entry is retained, a
      source is held to its own limits, for its packets as a whole, for its Who-Is requests and for its writes. */
  lemma RetainedSourceIsLimited(r: Run, ip: Ip, sv: Service, lo: nat, hi: nat)
    requires Proper(r) && lo < hi <= |r.es| && Retained(r, ip, lo, hi)
    ensures CountOf(r, ip, sv, lo, hi) as real <= Burst(r.o, sv) + Rate(r.o, sv) * (r.es[hi - 1].now - r.es[lo].now)
  {
    hide Entry, Level, StateAt, CountOf, LiveAt;
    forall j | lo <= j < hi && About(r.es[j], ip) && Seen(r.es, ip, lo, j)
      ensures Left(r, ip, j).Some? &&
              LevelAt(r.o, Entry(r.o, StateAt(r, j), ip, r.es[j].now), sv, r.es[j].now)
              <= LevelAt(r.o, Left(r, ip, j).value, sv, r.es[j].now)
    {
      EntryIsLeftOrFresh(r, ip, j);
    }
    CarriedIsBounded(r, ip, sv, lo, hi);
  }

  /** If a bucket refills before its entry may be dropped, and the sources seen within one idle time always fit the
      table, the same holds over every stretch, however often the entry expires. */
  lemma SourceLimitsHold(r: Run, ip: Ip, sv: Service, lo: nat, hi: nat)
    requires Proper(r) && FewSources(r.o, r.es) && lo < hi <= |r.es|
    requires Burst(r.o, sv) <= Rate(r.o, sv) * r.o.sourceTtl
    ensures CountOf(r, ip, sv, lo, hi) as real <= Burst(r.o, sv) + Rate(r.o, sv) * (r.es[hi - 1].now - r.es[lo].now)
  {
    hide Entry, Level, StateAt, CountOf, LiveAt, FewSources, Ordered;
    forall j | lo <= j < hi && About(r.es[j], ip) && Seen(r.es, ip, lo, j)
      ensures Left(r, ip, j).Some? &&
              LevelAt(r.o, Entry(r.o, StateAt(r, j), ip, r.es[j].now), sv, r.es[j].now)
              <= LevelAt(r.o, Left(r, ip, j).value, sv, r.es[j].now)
    {
      EntryIsLeftOrFresh(r, ip, j);
      LeftSeen(r, ip, lo, j);
      if !LiveAt(r, ip, j) {
        MissingIsIdle(r, ip, j);
        LeftIsSound(r, ip, j);
        IdleIsFull(r.o, Left(r, ip, j).value, ip, sv, r.es[j].now);
      }
    }
    CarriedIsBounded(r, ip, sv, lo, hi);
  }

  lemma IdleIsFull(o: Options, x: Source, ip: Ip, sv: Service, now: real)
    requires ValidOptions(o) && Sound(o, x, ip, x.lastSeen) && now - x.lastSeen > o.sourceTtl
    requires Burst(o, sv) <= Rate(o, sv) * o.sourceTtl
    ensures LevelAt(o, x, sv, now) == Burst(o, sv) == LevelAt(o, Fresh(ip, Sizes(o), now), sv, now)
  {
    hide Level;
    IdleBucketIsFull(BucketOf(x, sv), Rate(o, sv), Burst(o, sv), o.sourceTtl, now);
    FullBucket(Rate(o, sv), Burst(o, sv), now);
  }
}
