/** The bounded, forgetful source table decides exactly like a table that is unbounded and never forgets. */
module Forgetting {
  import opened Cidr
  import opened TokenBucket
  import opened FloodBlocker
  import opened SourceTable
  import opened Admission
  import opened AdmissionRuns
  import opened Wrappers

  /** The ideal table: every source ever seen, kept for ever. */
  datatype Ideal = Ideal(known: map<Ip, Source>, global: Bucket)

  function Recall(o: Options, known: map<Ip, Source>, ip: Ip, now: real): Source {
    if ip in known then known[ip].(lastSeen := now) else Fresh(ip, Sizes(o), now)
  }

  function IdealDecision(o: Options, w: Ideal, ip: Ip, kind: Kind, now: real): Decision {
    Decide(o, w.global, Recall(o, w.known, ip, now), kind, now)
  }

  function IdealStep(o: Options, w: Ideal, e: Event): Ideal {
    match e
    case Packet(now, ip, kind) =>
      if !o.enabled then w
      else
        var d := IdealDecision(o, w, ip, kind, now);
        Ideal(w.known[ip := d.source], d.global)
    case BadPdu(now, ip) =>
      var x := Recall(o, w.known, ip, now);
      w.(known := w.known[ip := x.(counters := x.counters.(malformed := x.counters.malformed + 1))])
    case _ => w
  }

  function IdealAfter(o: Options, w: Ideal, es: seq<Event>, n: nat): Ideal
    requires n <= |es|
  {
    if n == 0 then w else IdealStep(o, IdealAfter(o, w, es, n - 1), es[n - 1])
  }

  function IdealVerdict(o: Options, w: Ideal, es: seq<Event>, j: nat): Verdict
    requires j < |es| && es[j].Packet?
  {
    if !o.enabled then Accepted
    else IdealDecision(o, IdealAfter(o, w, es, j), es[j].ip, es[j].kind, es[j].now).verdict
  }

  /** Options under which nothing a source has earned outlives its idle time: its buckets refill, its block ends
      and its violation window closes before its entry may be dropped. */
  predicate OutlivesPenalties(o: Options) {
    && o.perSourceBurst as real <= o.perSourceRate * o.sourceTtl
    && o.whoIsBurst as real <= o.whoIsRate * o.sourceTtl
    && o.writeBurst as real <= o.writeRate * o.sourceTtl
    && o.blockDuration <= o.sourceTtl
    && (o.floodViolations == 1 || o.floodWindow <= o.sourceTtl)
  }

  /** The sources seen in the idle time before event `n`, that event included. */
  ghost function RecentIps(o: Options, es: seq<Event>, n: nat): set<Ip>
    requires n < |es|
  {
    set j | 0 <= j <= n && Sent(es[j]) && es[n].now - es[j].now <= o.sourceTtl :: es[j].ip
  }

  ghost predicate FewSources(o: Options, es: seq<Event>) {
    forall n :: 0 <= n < |es| ==> |RecentIps(o, es, n)| <= o.maxSources
  }

  /** A violation count that still matters at `now`. */
  predicate Counting(f: Flood, p: Policy, now: real) {
    0 < f.violations && now - f.started <= p.window
  }

  /** The two blockers cannot be told apart from `now` on. */
  ghost predicate SameFlood(f: Flood, g: Flood, p: Policy, now: real) {
    && (f.blockedUntil > now || g.blockedUntil > now ==> f.blockedUntil == g.blockedUntil)
    && (Counting(f, p, now) || Counting(g, p, now) ==> f.violations == g.violations && f.started == g.started)
  }

  ghost predicate SameLevel(b: Bucket, c: Bucket, rate: real, burst: real, now: real) {
    Level(b, rate, burst, now) == Level(c, rate, burst, now)
  }

  /** The two entries cannot be told apart from `now` on, their counters aside. */
  ghost predicate Same(o: Options, x: Source, y: Source, now: real) {
    && x.used && y.used && x.ip == y.ip && x.lastSeen == y.lastSeen
    && SameLevel(x.packets, y.packets, o.perSourceRate, o.perSourceBurst as real, now)
    && SameLevel(x.whoIs, y.whoIs, o.whoIsRate, o.whoIsBurst as real, now)
    && SameLevel(x.writes, y.writes, o.writeRate, o.writeBurst as real, now)
    && SameFlood(x.flood, y.flood, FloodPolicy(o), now)
  }

  /** Nothing in an entry is younger than its last packet. */
  ghost predicate HealthySource(o: Options, x: Source) {
    && Healthy(x.packets, o.perSourceBurst as real, x.lastSeen)
    && Healthy(x.whoIs, o.whoIsBurst as real, x.lastSeen)
    && Healthy(x.writes, o.writeBurst as real, x.lastSeen)
    && x.flood.violations < o.floodViolations
    && (0 < x.flood.violations ==> x.flood.started <= x.lastSeen)
    && (x.flood.blockedUntil <= x.lastSeen + o.blockDuration)
  }

  lemma SameLater(o: Options, x: Source, y: Source, t: real, now: real)
    requires ValidOptions(o) && Same(o, x, y, t) && t <= now
    ensures Same(o, x, y, now)
  {
    hide SameLevel;
    SameLevelLater(x.packets, y.packets, o.perSourceRate, o.perSourceBurst as real, t, now);
    SameLevelLater(x.whoIs, y.whoIs, o.whoIsRate, o.whoIsBurst as real, t, now);
    SameLevelLater(x.writes, y.writes, o.writeRate, o.writeBurst as real, t, now);
  }

  lemma SameLevelLater(b: Bucket, c: Bucket, rate: real, burst: real, t: real, now: real)
    requires 0.0 <= rate && t <= now && SameLevel(b, c, rate, burst, t)
    ensures SameLevel(b, c, rate, burst, now)
  {
    hide Level;
    var more := (now - t) * rate;
    LevelFlows(b, rate, burst, t, now);
    LevelFlows(c, rate, burst, t, now);
    assert Level(b, rate, burst, now) == Min(burst, Level(b, rate, burst, t) + more);
    assert Level(c, rate, burst, now) == Min(burst, Level(c, rate, burst, t) + more);
  }

  lemma ViolateSame(f: Flood, g: Flood, p: Policy, now: real)
    requires ValidPolicy(p) && SameFlood(f, g, p, now)
    requires f.blockedUntil <= now && g.blockedUntil <= now
    ensures SameFlood(Violate(f, p, now), Violate(g, p, now), p, now)
  {
  }

  lemma TakeSame(b: Bucket, c: Bucket, rate: real, burst: real, now: real)
    requires SameLevel(b, c, rate, burst, now)
    ensures Take(b, rate, burst, now) == Take(c, rate, burst, now)
  {
  }

  lemma LimitedSame(o: Options, g: Bucket, x: Source, y: Source, now: real)
    requires ValidOptions(o) && Same(o, x, y, now)
    requires x.flood.blockedUntil <= now && y.flood.blockedUntil <= now
    ensures Same(o, Limited(o, g, x, now).source, Limited(o, g, y, now).source, now)
  {
    ViolateSame(x.flood, y.flood, FloodPolicy(o), now);
  }

  lemma LimitSame(o: Options, g: Bucket, x: Source, y: Source, kind: Kind, now: real)
    requires ValidOptions(o) && Same(o, x, y, now)
    requires x.flood.blockedUntil <= now && y.flood.blockedUntil <= now
    ensures var d, e := Limit(o, g, x, kind, now), Limit(o, g, y, kind, now);
            d.verdict == e.verdict && d.global == e.global && Same(o, d.source, e.source, now)
  {
    var global := Take(g, o.globalRate, o.globalBurst as real, now);
    TakeSame(x.packets, y.packets, o.perSourceRate, o.perSourceBurst as real, now);
    TakeSame(x.whoIs, y.whoIs, o.whoIsRate, o.whoIsBurst as real, now);
    TakeSame(x.writes, y.writes, o.writeRate, o.writeBurst as real, now);
    var packets := Take(x.packets, o.perSourceRate, o.perSourceBurst as real, now);
    var x1, y1 := x.(packets := packets.bucket), y.(packets := packets.bucket);
    assert Same(o, x1, y1, now);
    if !global.ok {
      LimitedSame(o, global.bucket, x, y, now);
    } else if !packets.ok {
      LimitedSame(o, global.bucket, x1, y1, now);
    } else if kind == WhoIs {
      var whoIs := Take(x.whoIs, o.whoIsRate, o.whoIsBurst as real, now);
      LimitedSame(o, global.bucket, x1.(whoIs := whoIs.bucket), y1.(whoIs := whoIs.bucket), now);
    } else if kind == Write {
      var writes := Take(x.writes, o.writeRate, o.writeBurst as real, now);
      LimitedSame(o, global.bucket, x1.(writes := writes.bucket), y1.(writes := writes.bucket), now);
    }
  }

  /** Entries that cannot be told apart get the same verdict and stay indistinguishable. */
  lemma DecideSame(o: Options, g: Bucket, x: Source, y: Source, kind: Kind, now: real)
    requires ValidOptions(o) && Same(o, x, y, now)
    ensures var d, e := Decide(o, g, x, kind, now), Decide(o, g, y, kind, now);
            d.verdict == e.verdict && d.global == e.global && Same(o, d.source, e.source, now)
  {
    if x.flood.blockedUntil <= now && y.flood.blockedUntil <= now {
      LimitSame(o, g, x, y, kind, now);
    }
  }

  /** A decision keeps an entry healthy, and keeps its address and time. */
  lemma DecideHealthy(o: Options, g: Bucket, x: Source, kind: Kind, now: real)
    requires ValidOptions(o) && x.used && HealthySource(o, x) && x.lastSeen == now
    ensures var y := Decide(o, g, x, kind, now).source;
            y.used && y.ip == x.ip && y.lastSeen == now && HealthySource(o, y)
  {
    TakeSpends(x.packets, o.perSourceRate, o.perSourceBurst as real, now, now);
    TakeSpends(x.whoIs, o.whoIsRate, o.whoIsBurst as real, now, now);
    TakeSpends(x.writes, o.writeRate, o.writeBurst as real, now, now);
  }

  /** A source idle for longer than the time to live is as good as new. */
  lemma ForgottenIsFresh(o: Options, y: Source, now: real)
    requires ValidOptions(o) && OutlivesPenalties(o) && y.used && HealthySource(o, y)
    requires now - y.lastSeen > o.sourceTtl && 0.0 <= now
    ensures Same(o, Fresh(y.ip, Sizes(o), now), y.(lastSeen := now), now)
  {
    IdleBucketIsFull(y.packets, o.perSourceRate, o.perSourceBurst as real, o.sourceTtl, now);
    IdleBucketIsFull(y.whoIs, o.whoIsRate, o.whoIsBurst as real, o.sourceTtl, now);
    IdleBucketIsFull(y.writes, o.writeRate, o.writeBurst as real, o.sourceTtl, now);
    var x := Fresh(y.ip, Sizes(o), now);
    FullBucket(o.perSourceRate, o.perSourceBurst as real, now);
    FullBucket(o.whoIsRate, o.whoIsBurst as real, now);
    FullBucket(o.writeRate, o.writeBurst as real, now);
  }

  predicate Tracked(t: seq<Source>, ip: Ip) {
    exists i :: 0 <= i < |t| && Holds(t[i], ip)
  }

  /** One of the first `n` events came from `ip` at `time`. */
  ghost predicate Witnessed(es: seq<Event>, n: nat, ip: Ip, time: real)
    requires n <= |es|
  {
    exists j :: 0 <= j < n && Sent(es[j]) && es[j].ip == ip && es[j].now == time
  }

  /** A remembered source, and whether the bounded table may have forgotten it. */
  ghost predicate Remembered(o: Options, t: seq<Source>, ip: Ip, y: Source, now: real) {
    && y.used && y.ip == ip && HealthySource(o, y) && 0.0 <= y.lastSeen <= now
    && (Tracked(t, ip) || now - y.lastSeen > o.sourceTtl)
  }

  ghost predicate AllRemembered(o: Options, t: seq<Source>, known: map<Ip, Source>, now: real) {
    forall ip :: ip in known ==> Remembered(o, t, ip, known[ip], now)
  }

  ghost predicate AllSame(o: Options, t: seq<Source>, known: map<Ip, Source>, now: real) {
    forall i :: 0 <= i < |t| && t[i].used ==> t[i].ip in known && Same(o, t[i], known[t[i].ip], now)
  }

  ghost predicate AllWitnessed(known: map<Ip, Source>, es: seq<Event>, n: nat)
    requires n <= |es|
  {
    forall ip :: ip in known ==> Witnessed(es, n, ip, known[ip].lastSeen)
  }

  /** The simulation relation between the two tables at time `now`. */
  ghost predicate Agree(o: Options, t: seq<Source>, known: map<Ip, Source>, now: real) {
    UniqueIps(t) && AllSame(o, t, known, now) && AllRemembered(o, t, known, now)
  }

  lemma AgreeLater(o: Options, t: seq<Source>, known: map<Ip, Source>, from: real, now: real)
    requires ValidOptions(o) && Agree(o, t, known, from) && from <= now
    ensures Agree(o, t, known, now)
  {
    forall i | 0 <= i < |t| && t[i].used ensures Same(o, t[i], known[t[i].ip], now) {
      SameLater(o, t[i], known[t[i].ip], from, now);
    }
    forall ip | ip in known ensures Remembered(o, t, ip, known[ip], now) {
      assert Remembered(o, t, ip, known[ip], from);
    }
  }

  lemma {:induction false} AddressesCount(t: seq<Source>, n: nat)
    requires n <= |t| && UniqueIps(t) && forall i :: 0 <= i < n ==> t[i].used
    ensures |(set i | 0 <= i < n :: t[i].ip)| == n
  {
    if n > 0 {
      AddressesCount(t, n - 1);
      var before := set i | 0 <= i < n - 1 :: t[i].ip;
      assert (set i | 0 <= i < n :: t[i].ip) == before + {t[n - 1].ip};
      assert t[n - 1].ip !in before;
    }
  }

  /** With few sources about, a source that is not in the table always finds room without displacing a live
      entry. */
  lemma NeverFull(o: Options, t: seq<Source>, known: map<Ip, Source>, es: seq<Event>, n: nat)
    requires ValidOptions(o) && UniqueIps(t) && |t| == o.maxSources && n < |es| && Sent(es[n])
    requires AllSame(o, t, known, es[n].now) && AllWitnessed(known, es, n)
    requires |RecentIps(o, es, n)| <= o.maxSources
    ensures exists i :: 0 <= i < |t| &&
              (Holds(t[i], es[n].ip) || !t[i].used || Expired(t[i], o.sourceTtl, es[n].now))
  {
    if forall i :: 0 <= i < |t| ==> t[i].used && t[i].ip != es[n].ip && !Expired(t[i], o.sourceTtl, es[n].now) {
      var held := set i | 0 <= i < |t| :: t[i].ip;
      AddressesCount(t, |t|);
      var recent := RecentIps(o, es, n);
      forall i | 0 <= i < |t| ensures t[i].ip in recent {
        var y := known[t[i].ip];
        assert Same(o, t[i], y, es[n].now);
        var j :| 0 <= j < n && Sent(es[j]) && es[j].ip == t[i].ip && es[j].now == y.lastSeen;
        assert es[n].now - es[j].now <= o.sourceTtl;
      }
      assert es[n].ip in recent;
      Subset(held, recent - {es[n].ip});
    }
  }

  lemma {:induction false} Subset<T>(a: set<T>, b: set<T>)
    requires a <= b
    ensures |a| <= |b|
  {
    if a != {} {
      var x :| x in a;
      Subset(a - {x}, b - {x});
    }
  }

  /** Every entry of another address is either untouched in `u` or was idle for too long in `t`. */
  ghost predicate ForgetsOnlyIdle(o: Options, t: seq<Source>, u: seq<Source>, slot: nat, ip: Ip, now: real)
    requires |u| == |t|
  {
    forall i :: 0 <= i < |t| && t[i].used && t[i].ip != ip ==>
      (i != slot && u[i] == t[i]) || Expired(t[i], o.sourceTtl, now)
  }

  /** Under the hypotheses a lookup finds an entry that cannot be told apart from the ideal one, and forgets
      nothing but idle sources. */
  lemma LookupAgrees(o: Options, t: seq<Source>, known: map<Ip, Source>, es: seq<Event>, n: nat)
    requires ValidOptions(o) && OutlivesPenalties(o) && |t| == o.maxSources && n < |es| && Sent(es[n])
    requires 0.0 <= es[n].now && Agree(o, t, known, es[n].now) && AllWitnessed(known, es, n)
    requires |RecentIps(o, es, n)| <= o.maxSources
    ensures var ip, now := es[n].ip, es[n].now;
            var r := GetSource(t, ip, Sizes(o), o.sourceTtl, now);
            var y := Recall(o, known, ip, now);
            Same(o, r.table[r.index], y, now) && HealthySource(o, y) && y.ip == ip && y.lastSeen == now &&
            ForgetsOnlyIdle(o, t, r.table, r.index, ip, now) && OthersKept(t, r, o.sourceTtl, now)
  {
    var ip, now := es[n].ip, es[n].now;
    var ttl := o.sourceTtl;
    var r := GetSource(t, ip, Sizes(o), ttl, now);
    var k := Find(t, |t|, ip, ttl, now);
    if ip in known {
      assert Remembered(o, t, ip, known[ip], now);
    }
    if k < |t| {
      KnownSource(t, ip, Sizes(o), ttl, now, k);
      assert Same(o, t[k], known[ip], now);
    } else {
      NewSource(t, ip, Sizes(o), ttl, now);
      if ip in known {
        if Tracked(t, ip) {
          var i :| 0 <= i < |t| && Holds(t[i], ip);
          assert Same(o, t[i], known[ip], now);
        }
        ForgottenIsFresh(o, known[ip], now);
      }
      if t[r.index].used && !Expired(t[r.index], ttl, now) {
        NeverFull(o, t, known, es, n);
      }
    }
  }

  /** Storing indistinguishable entries on both sides keeps the tables in agreement. */
  lemma StoreAgrees(o: Options, t: seq<Source>, u: seq<Source>, slot: nat, known: map<Ip, Source>, now: real,
                    x: Source, y: Source)
    requires |u| == |t| && slot < |t| && Agree(o, t, known, now) && UniqueIps(u[slot := x])
    requires ForgetsOnlyIdle(o, t, u, slot, x.ip, now) && OthersKept(t, Lookup(u, slot), o.sourceTtl, now)
    requires Same(o, x, y, now) && HealthySource(o, y) && y.lastSeen == now && 0.0 <= now
    ensures Agree(o, u[slot := x], known[x.ip := y], now)
  {
    var v, known' := u[slot := x], known[x.ip := y];
    forall i | 0 <= i < |v| && v[i].used
      ensures v[i].ip in known' && Same(o, v[i], known'[v[i].ip], now)
    {
      if i != slot {
        assert v[i] == t[i];
        assert v[i].ip != v[slot].ip;
      }
    }
    forall ip | ip in known'
      ensures Remembered(o, v, ip, known'[ip], now)
    {
      if ip == x.ip {
        assert Holds(v[slot], ip);
      } else {
        assert Remembered(o, t, ip, known[ip], now);
        if Tracked(t, ip) {
          var i :| 0 <= i < |t| && Holds(t[i], ip);
          assert Same(o, t[i], known[ip], now);
          assert !Expired(t[i], o.sourceTtl, now) ==> Holds(v[i], ip);
        }
      }
    }
  }

  /** The decision leaves the address alone, so the slot can be rewritten with what it leaves behind. */
  lemma RewriteKeepsUnique(t: seq<Source>, k: nat, x: Source)
    requires UniqueIps(t) && k < |t| && t[k].used && x.ip == t[k].ip
    ensures UniqueIps(t[k := x])
  {
  }

  /** The simulation relation after `n` events. */
  ghost predicate Simulates(o: Options, s: State, w: Ideal, start: real, es: seq<Event>, n: nat)
    requires n <= |es|
  {
    && s.global == w.global && |s.sources| == o.maxSources
    && Agree(o, s.sources, w.known, Clock(start, es, n))
    && AllWitnessed(w.known, es, n)
  }

  lemma WitnessedLater(known: map<Ip, Source>, es: seq<Event>, n: nat)
    requires n < |es| && AllWitnessed(known, es, n)
    ensures AllWitnessed(known, es, n + 1)
  {
    assert forall ip, time :: Witnessed(es, n, ip, time) ==> Witnessed(es, n + 1, ip, time);
  }

  lemma WitnessedNow(known: map<Ip, Source>, es: seq<Event>, n: nat, ip: Ip, y: Source)
    requires n < |es| && AllWitnessed(known, es, n) && Sent(es[n]) && es[n].ip == ip && es[n].now == y.lastSeen
    ensures AllWitnessed(known[ip := y], es, n + 1)
  {
    WitnessedLater(known, es, n);
    assert Witnessed(es, n + 1, ip, y.lastSeen);
  }

  lemma SweepAgrees(o: Options, t: seq<Source>, known: map<Ip, Source>, now: real)
    requires ValidOptions(o) && Agree(o, t, known, now)
    ensures Agree(o, Swept(t, |t|, o.sourceTtl, now), known, now)
  {
    var u := Swept(t, |t|, o.sourceTtl, now);
    assert forall i :: 0 <= i < |t| ==> u[i] == Expire(t[i], o.sourceTtl, now);
    forall ip | ip in known ensures Remembered(o, u, ip, known[ip], now) {
      assert Remembered(o, t, ip, known[ip], now);
      if Tracked(t, ip) {
        var i :| 0 <= i < |t| && Holds(t[i], ip);
        assert Same(o, t[i], known[ip], now);
        assert Holds(u[i], ip) || now - known[ip].lastSeen > o.sourceTtl;
      }
    }
  }

  lemma ResetAgrees(o: Options, s: State, known: map<Ip, Source>, now: real)
    requires Agree(o, s.sources, known, now)
    ensures Agree(o, ResetCounters(s).sources, known, now)
  {
    var t, u := s.sources, ResetCounters(s).sources;
    forall ip | ip in known ensures Remembered(o, u, ip, known[ip], now) {
      assert Remembered(o, t, ip, known[ip], now);
      if Tracked(t, ip) {
        var i :| 0 <= i < |t| && Holds(t[i], ip);
        assert Holds(u[i], ip);
      }
    }
  }

  /** A packet, decided on both sides. */
  lemma PacketSimulates(o: Options, s: State, w: Ideal, es: seq<Event>, n: nat)
    requires ValidOptions(o) && OutlivesPenalties(o) && n < |es| && es[n].Packet? && o.enabled && 0.0 <= es[n].now
    requires s.global == w.global && |s.sources| == o.maxSources
    requires Agree(o, s.sources, w.known, es[n].now) && AllWitnessed(w.known, es, n)
    requires |RecentIps(o, es, n)| <= o.maxSources
    ensures var r, w' := Accept(o, s, es[n].ip, es[n].kind, es[n].now), IdealStep(o, w, es[n]);
            Agree(o, r.state.sources, w'.known, es[n].now) && AllWitnessed(w'.known, es, n + 1)
            && r.state.global == w'.global
            && r.verdict == IdealDecision(o, w, es[n].ip, es[n].kind, es[n].now).verdict
  {
    hide Agree, AllWitnessed, Decide, GetSource, Recall, HealthySource, Same, OthersKept, ForgetsOnlyIdle, UniqueIps,
      AllSame, AllRemembered, RecentIps;
    var e, t := es[n], s.sources;
    var r := GetSource(t, e.ip, Sizes(o), o.sourceTtl, e.now);
    var x, y := r.table[r.index], Recall(o, w.known, e.ip, e.now);
    LookupAgrees(o, t, w.known, es, n);
    AgreeIsUnique(o, t, w.known, e.now);
    LookupKeepsUnique(t, e.ip, Sizes(o), o.sourceTtl, e.now);
    SameParts(o, x, y, e.now);
    DecideSame(o, s.global, x, y, e.kind, e.now);
    DecideHealthy(o, s.global, y, e.kind, e.now);
    var d, f := Decide(o, s.global, x, e.kind, e.now), Decide(o, s.global, y, e.kind, e.now);
    SameParts(o, d.source, f.source, e.now);
    RewriteKeepsUnique(r.table, r.index, d.source);
    StoreAgrees(o, t, r.table, r.index, w.known, e.now, d.source, f.source);
    WitnessedNow(w.known, es, n, e.ip, f.source);
  }

  lemma AgreeIsUnique(o: Options, t: seq<Source>, known: map<Ip, Source>, now: real)
    requires Agree(o, t, known, now)
    ensures UniqueIps(t)
  {
  }

  lemma SameParts(o: Options, x: Source, y: Source, now: real)
    requires Same(o, x, y, now)
    ensures x.used && y.used && x.ip == y.ip && x.lastSeen == y.lastSeen
  {
  }

  function Blamed(x: Source): Source {
    x.(counters := x.counters.(malformed := x.counters.malformed + 1))
  }

  /** A packet reported as malformed, booked on both sides. */
  lemma BadPduSimulates(o: Options, s: State, w: Ideal, es: seq<Event>, n: nat)
    requires ValidOptions(o) && OutlivesPenalties(o) && n < |es| && es[n].BadPdu? && 0.0 <= es[n].now
    requires |s.sources| == o.maxSources
    requires Agree(o, s.sources, w.known, es[n].now) && AllWitnessed(w.known, es, n)
    requires |RecentIps(o, es, n)| <= o.maxSources
    ensures var r, w' := ReportMalformed(o, s, es[n].ip, es[n].now), IdealStep(o, w, es[n]);
            Agree(o, r.sources, w'.known, es[n].now) && AllWitnessed(w'.known, es, n + 1)
  {
    hide Agree, AllWitnessed, GetSource, Recall, OthersKept, ForgetsOnlyIdle, UniqueIps,
      AllSame, AllRemembered, RecentIps;
    var e, t := es[n], s.sources;
    var r := GetSource(t, e.ip, Sizes(o), o.sourceTtl, e.now);
    var x, y := r.table[r.index], Recall(o, w.known, e.ip, e.now);
    LookupAgrees(o, t, w.known, es, n);
    AgreeIsUnique(o, t, w.known, e.now);
    LookupKeepsUnique(t, e.ip, Sizes(o), o.sourceTtl, e.now);
    RewriteKeepsUnique(r.table, r.index, Blamed(x));
    StoreAgrees(o, t, r.table, r.index, w.known, e.now, Blamed(x), Blamed(y));
    WitnessedNow(w.known, es, n, e.ip, Blamed(y));
  }

  lemma StepSimulates(o: Options, s: State, w: Ideal, start: real, es: seq<Event>, n: nat)
    requires ValidOptions(o) && OutlivesPenalties(o) && n < |es| && Ordered(start, es)
    requires Simulates(o, s, w, start, es, n) && |RecentIps(o, es, n)| <= o.maxSources
    ensures Simulates(o, Step(o, s, es[n]), IdealStep(o, w, es[n]), start, es, n + 1)
    ensures es[n].Packet? && o.enabled ==>
              Accept(o, s, es[n].ip, es[n].kind, es[n].now).verdict
              == IdealDecision(o, w, es[n].ip, es[n].kind, es[n].now).verdict
  {
    hide Agree, AllWitnessed, GetSource, Recall, RecentIps, IdealDecision, Decide, Swept;
    AgreeLater(o, s.sources, w.known, Clock(start, es, n), es[n].now);
    WitnessedLater(w.known, es, n);
    if es[n].Reset? {
      ResetAgrees(o, s, w.known, es[n].now);
    } else if es[n].Reading? {
      SweepAgrees(o, s.sources, w.known, es[n].now);
    } else if es[n].BadPdu? {
      BadPduSimulates(o, s, w, es, n);
    } else if es[n].Packet? && o.enabled {
      PacketSimulates(o, s, w, es, n);
    }
  }

  lemma {:induction false} RunSimulates(o: Options, s: State, w: Ideal, start: real, es: seq<Event>, n: nat)
    requires ValidOptions(o) && OutlivesPenalties(o) && n <= |es| && Ordered(start, es) && FewSources(o, es)
    requires 0 < |s.sources| && Simulates(o, s, w, start, es, 0)
    ensures Simulates(o, After(o, s, es, n), IdealAfter(o, w, es, n), start, es, n)
  {
    hide Simulates, Step, IdealStep, RecentIps;
    if n > 0 {
      RunSimulates(o, s, w, start, es, n - 1);
      StepSimulates(o, After(o, s, es, n - 1), IdealAfter(o, w, es, n - 1), start, es, n - 1);
    }
  }

  /** The ideal table right after configuration knows nobody. */
  function IdealStart(o: Options, start: real): Ideal {
    Ideal(map[], Bucket(o.globalBurst as real, start))
  }

  /** The verdicts of the ideal table on a run that starts right after configuration. */
  ghost function IdealVerdicts(o: Options, start: real, es: seq<Event>): (vs: seq<Option<Verdict>>)
    ensures |vs| == |es|
  {
    seq(|es|, j requires 0 <= j < |es| =>
      if es[j].Packet? then Some(IdealVerdict(o, IdealStart(o, start), es, j)) else None)
  }

  /** Main theorem: if nothing a source has earned outlives its idle time, and the sources seen within one idle
      time always fit the table, then the fixed-size, forgetful table accepts and drops exactly the packets that
      the unbounded table with perfect memory accepts and drops, in every run and for the same reasons. */
  lemma ForgettingIsInvisible(o: Options, stats: Stats, cursor: nat, start: real, es: seq<Event>)
    requires ValidOptions(o) && OutlivesPenalties(o) && Ordered(start, es) && FewSources(o, es)
    ensures Verdicts(o, Configured(o, stats, cursor, start), es) == IdealVerdicts(o, start, es)
  {
    hide RecentIps, Decide, GetSource, Ordered;
    var s, w := Configured(o, stats, cursor, start), IdealStart(o, start);
    assert Simulates(o, s, w, start, es, 0);
    forall j | 0 <= j < |es| && es[j].Packet? ensures VerdictAt(o, s, es, j) == IdealVerdict(o, w, es, j) {
      RunSimulates(o, s, w, start, es, j);
      StepSimulates(o, After(o, s, es, j), IdealAfter(o, w, es, j), start, es, j);
    }
  }
}
