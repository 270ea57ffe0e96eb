/** What happens when entries are forgotten sooner than their buckets refill: a source that pauses gets a full bucket. With
    this, the conditions of `Forgetting` are exact wherever the global bucket does not hide what the others do. */
module ForgettingRefill {
  import opened Cidr
  import opened TokenBucket
  import opened SourceTable
  import opened Admission
  import opened AdmissionRuns
  import opened Forgetting
  import opened History
  import opened ForgettingWindow
  import opened Wrappers
  import opened RateBounds

  function KindOf(sv: Service): Kind {
    match sv case AnyPacket => Other case WhoIsOnly => WhoIs case WriteOnly => Write
  }

  function Size(o: Options, sv: Service): nat {
    match sv case AnyPacket => o.perSourceBurst case WhoIsOnly => o.whoIsBurst case WriteOnly => o.writeBurst
  }

  /** The global bucket lets the whole burst of the service through twice, and the packet bucket lets it through once. */
  predicate Unhidden(o: Options, sv: Service) {
    2 * Size(o, sv) <= o.globalBurst && Size(o, sv) <= o.perSourceBurst
  }

  /** The buckets of entry `x` hold `k` tokens for the service. */
  ghost predicate Stocked(o: Options, x: Source, sv: Service, k: nat, now: real) {
    && x.flood.blockedUntil <= now
    && k as real <= LevelAt(o, x, AnyPacket, now) && k as real <= LevelAt(o, x, sv, now)
  }

  /** A packet of a source that is not blocked, when the global bucket has a token: it is accepted exactly if the buckets
      of its entry have one each. */
  lemma ServiceDecided(o: Options, g: Bucket, x: Source, sv: Service, now: real)
    requires Passes(o.allowed, o.denied, x.ip) && x.flood.blockedUntil <= now && 1.0 <= Tokens(o, g, now)
    ensures var d := Decide(o, g, x, KindOf(sv), now);
            && d.global == Take(g, o.globalRate, o.globalBurst as real, now).bucket && d.source.ip == x.ip
            && Tokens(o, d.global, now) == Tokens(o, g, now) - 1.0
            && (d.verdict == Accepted <==> LevelAt(o, x, AnyPacket, now) >= 1.0 && LevelAt(o, x, sv, now) >= 1.0)
            && (d.verdict == Accepted ==>
                  d.source.flood == x.flood
                  && LevelAt(o, d.source, AnyPacket, now) == LevelAt(o, x, AnyPacket, now) - 1.0
                  && LevelAt(o, d.source, sv, now) == LevelAt(o, x, sv, now) - 1.0)
  {
    hide Level, Take, Passes;
    TakeNow(g, o.globalRate, o.globalBurst as real, now);
    TakeNow(x.packets, o.perSourceRate, o.perSourceBurst as real, now);
    TakeNow(x.whoIs, o.whoIsRate, o.whoIsBurst as real, now);
    TakeNow(x.writes, o.writeRate, o.writeBurst as real, now);
  }

  lemma PacketDecided(o: Options, v: Ip, s: State, w: Ideal, e: Event)
    requires o.enabled && 0 < |s.sources| && e.Packet? && e.ip == v
    ensures Accept(o, s, v, e.kind, e.now).verdict == Decide(o, s.global, Entry(o, s, v, e.now), e.kind, e.now).verdict
    ensures IdealDecision(o, w, v, e.kind, e.now).verdict == Decide(o, w.global, Mirror(o, v, w, e.now), e.kind, e.now).verdict
  {
    hide Decide, GetSource;
  }

  lemma DifferNow(o: Options, s: State, w: Ideal, e: Event)
    requires o.enabled && 0 < |s.sources| && e.Packet?
    requires Accept(o, s, e.ip, e.kind, e.now).verdict != IdealDecision(o, w, e.ip, e.kind, e.now).verdict
    ensures Differ(o, s, w, [e])
  {
    hide Accept, IdealDecision;
    assert After(o, s, [e], 0) == s && IdealAfter(o, w, [e], 0) == w;
    assert VerdictAt(o, s, [e], 0) != IdealVerdict(o, w, [e], 0);
  }

  /** The real entry holds `k` tokens and the ideal one fewer: one of the next `k` packets shows it. */
  lemma {:induction false} Shortfall(o: Options, v: Ip, sv: Service, s: State, w: Ideal, from: real, now: real, k: nat)
    returns (es: seq<Event>)
    requires ValidOptions(o) && o.enabled && Passes(o.allowed, o.denied, v) && from <= now
    requires Alone(o, v, s, from) && s.global == w.global && k as real <= Tokens(o, s.global, now)
    requires Entry(o, s, v, now).ip == v && Stocked(o, Entry(o, s, v, now), sv, k, now)
    requires var y := Mirror(o, v, w, now);
             y.ip == v && y.lastSeen == now && y.flood.blockedUntil <= now && 0.0 <= LevelAt(o, y, sv, now) < k as real
    ensures Solo(v, es, now) && Differ(o, s, w, es)
    decreases k
  {
    hide Level, Entry, Decide, Step, IdealStep, Alone, Differ, Passes, LevelAt, Tokens, Accept, IdealDecision, Recall;
    AloneSome(o, v, s, from);
    var x, y, e := Entry(o, s, v, now), Mirror(o, v, w, now), Probe(v, now, KindOf(sv));
    ServiceDecided(o, s.global, x, sv, now);
    ServiceDecided(o, w.global, y, sv, now);
    PacketDecided(o, v, s, w, e);
    if Decide(o, w.global, y, KindOf(sv), now).verdict != Accepted {
      es := [e];
      DifferNow(o, s, w, e);
    } else {
      AloneStep(o, v, s, e, from);
      MirrorStep(o, v, w, e);
      ResultIsDecided(o, v, s, e);
      var s', w' := Step(o, s, e), IdealStep(o, w, e);
      SameLevels(o, Decide(o, w.global, y, KindOf(sv), now).source, sv, now);
      var rest := Shortfall(o, v, sv, s', w', now, now, k - 1);
      es := [e] + rest;
      SoloFirst(v, e, rest, now);
      DifferLater(o, s, w, e, rest);
    }
  }

  lemma SameLevels(o: Options, y: Source, sv: Service, now: real)
    ensures LevelAt(o, y.(lastSeen := now), sv, now) == LevelAt(o, y, sv, now)
    ensures LevelAt(o, y.(lastSeen := now), AnyPacket, now) == LevelAt(o, y, AnyPacket, now)
  {
    hide Level;
  }

  /** The source empties its bucket and pauses for longer than the time to live, but not until the bucket is full. */
  lemma {:induction false} Drain(o: Options, v: Ip, sv: Service, s: State, w: Ideal, now: real, back: real, k: nat)
    returns (es: seq<Event>)
    requires ValidOptions(o) && o.enabled && Passes(o.allowed, o.denied, v) && 0.0 <= now
    requires o.sourceTtl < back - now && Rate(o, sv) * (back - now) < Burst(o, sv) && Size(o, sv) <= o.perSourceBurst
    requires Alone(o, v, s, now) && s.global == w.global && (k + Size(o, sv)) as real <= Tokens(o, s.global, now)
    requires Healthy(s.global, o.globalBurst as real, now)
    requires Entry(o, s, v, now).ip == v && Stocked(o, Entry(o, s, v, now), sv, k, now)
    requires v in w.known || 0 < k
    requires var y := Mirror(o, v, w, now);
             && y.ip == v && y.used && y.lastSeen == now && HealthySource(o, y)
             && Stocked(o, y, sv, k, now) && LevelAt(o, y, sv, now) == k as real
    ensures Solo(v, es, now) && Differ(o, s, w, es)
    decreases k
  {
    hide Level, Entry, Decide, Step, IdealStep, Alone, Differ, Passes, LevelAt, Tokens, Accept, IdealDecision, Recall,
      HealthySource, Rate, Burst;
    AloneSome(o, v, s, now);
    var x, y, e := Entry(o, s, v, now), Mirror(o, v, w, now), Probe(v, now, KindOf(sv));
    if k == 0 {
      Paused(o, v, sv, s, w, now, back);
      es := Shortfall(o, v, sv, s, w, now, back, Size(o, sv));
    } else {
      ServiceDecided(o, s.global, x, sv, now);
      ServiceDecided(o, w.global, y, sv, now);
      AloneStep(o, v, s, e, now);
      MirrorStep(o, v, w, e);
      ResultIsDecided(o, v, s, e);
      TakeSpends(s.global, o.globalRate, o.globalBurst as real, now, now);
      var d := Decide(o, w.global, y, KindOf(sv), now).source;
      DrainedHealthy(o, w.global, y, sv, now);
      SameLevels(o, d, sv, now);
      var rest := Drain(o, v, sv, Step(o, s, e), IdealStep(o, w, e), now, back, k - 1);
      es := [e] + rest;
      SoloFirst(v, e, rest, now);
      DifferLater(o, s, w, e, rest);
    }
  }

  lemma DrainedHealthy(o: Options, g: Bucket, y: Source, sv: Service, now: real)
    requires ValidOptions(o) && y.lastSeen == now && y.used && HealthySource(o, y)
    ensures var d := Decide(o, g, y, KindOf(sv), now).source;
            HealthySource(o, d.(lastSeen := now)) && d.lastSeen == now && d.used
  {
    hide Decide, HealthySource;
    DecideHealthy(o, g, y, KindOf(sv), now);
    var d := Decide(o, g, y, KindOf(sv), now).source;
    assert d.(lastSeen := now) == d;
  }

  /** After the pause the real table gives the source a fresh entry; the ideal one has refilled only in part. */
  lemma Paused(o: Options, v: Ip, sv: Service, s: State, w: Ideal, now: real, back: real)
    requires ValidOptions(o) && 0.0 <= now && o.sourceTtl < back - now && Rate(o, sv) * (back - now) < Burst(o, sv)
    requires Alone(o, v, s, now) && Healthy(s.global, o.globalBurst as real, now) && Size(o, sv) <= o.perSourceBurst
    requires Size(o, sv) as real <= Tokens(o, s.global, now) && v in w.known
    requires var y := Mirror(o, v, w, now);
             y.ip == v && y.flood.blockedUntil <= now && HealthySource(o, y) && y.lastSeen == now && LevelAt(o, y, sv, now) == 0.0
    ensures Size(o, sv) as real <= Tokens(o, s.global, back)
    ensures Entry(o, s, v, back).ip == v && Stocked(o, Entry(o, s, v, back), sv, Size(o, sv), back)
    ensures var y := Mirror(o, v, w, back);
            y.ip == v && y.lastSeen == back && y.flood.blockedUntil <= back && 0.0 <= LevelAt(o, y, sv, back) < Size(o, sv) as real
  {
    hide Level, Entry, Alone, Live;
    AloneSome(o, v, s, now);
    NotLive(o, v, s, now, back);
    EntryShape(o, s, v, back);
    FreshIsStocked(o, v, sv, back);
    Waits(s.global, o.globalRate, o.globalBurst as real, now, back);
    var y := Mirror(o, v, w, now);
    assert BucketOf(Mirror(o, v, w, back), sv) == BucketOf(y, sv);
    RefillsInPart(BucketOf(y, sv), Rate(o, sv), Burst(o, sv), now, back);
  }

  lemma FreshIsStocked(o: Options, v: Ip, sv: Service, now: real)
    requires ValidOptions(o) && 0.0 <= now && Size(o, sv) <= o.perSourceBurst
    ensures Stocked(o, Fresh(v, Sizes(o), now), sv, Size(o, sv), now)
  {
    hide Level;
    FullBucket(o.perSourceRate, o.perSourceBurst as real, now);
    FullBucket(Rate(o, sv), Burst(o, sv), now);
  }

  /** An empty bucket that has not had the time to fill up. */
  lemma RefillsInPart(b: Bucket, rate: real, burst: real, now: real, back: real)
    requires 0.0 < rate && Healthy(b, burst, now) && Level(b, rate, burst, now) == 0.0
    requires now <= back && rate * (back - now) < burst
    ensures 0.0 <= Level(b, rate, burst, back) < burst
  {
    hide Level;
    var time := back - now;
    LevelFlows(b, rate, burst, now, back);
    LevelInRange(b, rate, burst, back);
    assert time * rate == rate * time;
  }

  lemma NotLive(o: Options, v: Ip, s: State, now: real, back: real)
    requires Alone(o, v, s, now) && o.sourceTtl < back - now
    ensures !Live(o, s.sources, v, back)
  {
  }

  /** If entries expire before a bucket refills, and the global bucket does not hide it, some run of a single source is
      judged differently by the table that never forgets. */
  lemma ShortMemoryRefillsBuckets(o: Options, stats: Stats, cursor: nat, start: real, v: Ip, sv: Service)
    returns (es: seq<Event>)
    requires ValidOptions(o) && o.enabled && Passes(o.allowed, o.denied, v) && 0.0 <= start
    requires Unhidden(o, sv) && Rate(o, sv) * o.sourceTtl < Burst(o, sv)
    ensures Ordered(start, es) && FewSources(o, es)
    ensures Verdicts(o, Configured(o, stats, cursor, start), es) != IdealVerdicts(o, start, es)
  {
    hide RecentIps, Accept, IdealDecision, Entry, Passes, LevelAt, Level;
    var s, w := Configured(o, stats, cursor, start), IdealStart(o, start);
    StartsFull(o, stats, cursor, start, v, sv);
    var pause := (o.sourceTtl + Burst(o, sv) / Rate(o, sv)) / 2.0;
    PauseIsShort(o.sourceTtl, Rate(o, sv), Burst(o, sv));
    es := Drain(o, v, sv, s, w, start, start + pause, Size(o, sv));
    Shows(o, s, w, start, es);
    SoloIsFew(o, v, es, start);
  }

  lemma Shows(o: Options, s: State, w: Ideal, start: real, es: seq<Event>)
    requires 0 < |s.sources| && w == IdealStart(o, start) && Differ(o, s, w, es)
    ensures Verdicts(o, s, es) != IdealVerdicts(o, start, es)
  {
    hide Accept, IdealDecision;
    var j: nat :| j < |es| && es[j].Packet? && VerdictAt(o, s, es, j) != IdealVerdict(o, w, es, j);
    assert Verdicts(o, s, es)[j] == Some(VerdictAt(o, s, es, j));
    assert IdealVerdicts(o, start, es)[j] == Some(IdealVerdict(o, w, es, j));
  }

  lemma PauseIsShort(ttl: real, rate: real, burst: real)
    requires 0.0 < rate && rate * ttl < burst
    ensures var pause := (ttl + burst / rate) / 2.0; ttl < pause && rate * pause < burst
  {
    var full := burst / rate;
    assert full * rate == burst;
    var gap := full - ttl;
    assert rate * gap == burst - rate * ttl;
    assert gap <= 0.0 ==> rate * gap <= 0.0;
    var pause := (ttl + full) / 2.0;
    assert rate * pause == (rate * ttl + burst) / 2.0;
  }

  lemma StartsFull(o: Options, stats: Stats, cursor: nat, start: real, v: Ip, sv: Service)
    requires ValidOptions(o) && 0.0 <= start && Unhidden(o, sv)
    ensures var s, w := Configured(o, stats, cursor, start), IdealStart(o, start);
            var x, y := Entry(o, s, v, start), Mirror(o, v, w, start);
            && Alone(o, v, s, start) && Healthy(s.global, o.globalBurst as real, start) && 0 < Size(o, sv)
            && (2 * Size(o, sv)) as real <= Tokens(o, s.global, start)
            && x.ip == v && Stocked(o, x, sv, Size(o, sv), start)
            && y.ip == v && y.used && y.lastSeen == start && HealthySource(o, y) && Stocked(o, y, sv, Size(o, sv), start)
            && LevelAt(o, y, sv, start) == Size(o, sv) as real
  {
    hide Entry, Level;
    EntryShape(o, Configured(o, stats, cursor, start), v, start);
    FullBucket(o.perSourceRate, o.perSourceBurst as real, start);
    FullBucket(Rate(o, sv), Burst(o, sv), start);
    FullBucket(o.globalRate, o.globalBurst as real, start);
    FreshIsHealthy(o, v, start);
  }

  /** Main theorem: where the network lists let somebody through and the global bucket hides nothing, the forgetful table
      agrees with the one that never forgets in every run with few sources about, if and only if nothing a source has
      earned outlives its entry. */
  lemma AgreementIffMemory(o: Options, stats: Stats, cursor: nat, start: real, v: Ip)
    requires ValidOptions(o) && o.enabled && Passes(o.allowed, o.denied, v) && 0.0 <= start
    requires Unhidden(o, AnyPacket) && Unhidden(o, WhoIsOnly) && Unhidden(o, WriteOnly)
    ensures OutlivesPenalties(o) <==>
            forall es :: Ordered(start, es) && FewSources(o, es) ==>
                           Verdicts(o, Configured(o, stats, cursor, start), es) == IdealVerdicts(o, start, es)
  {
    hide Verdicts, IdealVerdicts, Configured, Ordered, FewSources, Passes, Unhidden;
    if OutlivesPenalties(o) {
      forall es | Ordered(start, es) && FewSources(o, es)
        ensures Verdicts(o, Configured(o, stats, cursor, start), es) == IdealVerdicts(o, start, es)
      {
        ForgettingIsInvisible(o, stats, cursor, start, es);
      }
    } else if sv :| Rate(o, sv) * o.sourceTtl < Burst(o, sv) {
      var es := ShortMemoryRefillsBuckets(o, stats, cursor, start, v, sv);
    } else if forall es :: Ordered(start, es) && FewSources(o, es) ==>
                Verdicts(o, Configured(o, stats, cursor, start), es) == IdealVerdicts(o, start, es) {
      AgreementNeedsMemory(o, stats, cursor, start, v);
      ServicesAll(o);
    }
  }

  lemma ServicesAll(o: Options)
    requires o.blockDuration <= o.sourceTtl && (o.floodViolations == 1 || o.floodWindow <= o.sourceTtl)
    ensures (forall sv :: !(Rate(o, sv) * o.sourceTtl < Burst(o, sv))) ==> OutlivesPenalties(o)
  {
    assert Rate(o, AnyPacket) == o.perSourceRate && Rate(o, WhoIsOnly) == o.whoIsRate && Rate(o, WriteOnly) == o.writeRate;
    assert forall sv :: !(Rate(o, sv) * o.sourceTtl < Burst(o, sv)) ==> Burst(o, sv) <= Rate(o, sv) * o.sourceTtl;
  }
}
