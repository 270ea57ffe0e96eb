/** What the source table keeps over whole runs, and what it takes to lose an entry early. */
module SourceTableRuns {
  import opened Cidr
  import opened SourceTable
  import opened Admission
  import opened AdmissionRuns
  import opened Forgetting

  /** After `n` events every address has one slot at most, which carries the time of its last packet. */
  ghost predicate InStep(o: Options, t: seq<Source>, es: seq<Event>, n: nat)
    requires n <= |es|
  {
    && |t| == o.maxSources && UniqueIps(t)
    && (forall i :: 0 <= i < |t| && t[i].used ==> Witnessed(es, n, t[i].ip, t[i].lastSeen))
  }

  /** Does event `e` look up its source in the table? */
  predicate Touches(o: Options, e: Event) {
    e.BadPdu? || (e.Packet? && o.enabled)
  }

  ghost predicate StrictlyOrdered(es: seq<Event>) {
    forall i, j :: 0 <= i < j < |es| ==> es[i].now < es[j].now
  }

  /** The table after an event that looks up its source is the lookup with the entry's contents rewritten. */
  lemma StepIsLookup(o: Options, s: State, e: Event)
    requires 0 < |s.sources| && Touches(o, e)
    ensures var r, u := GetSource(s.sources, e.ip, Sizes(o), o.sourceTtl, e.now), Step(o, s, e).sources;
            && |u| == |r.table|
            && (forall i :: 0 <= i < |u| && i != r.index ==> u[i] == r.table[i])
            && u[r.index].used == r.table[r.index].used && u[r.index].ip == r.table[r.index].ip
            && u[r.index].lastSeen == r.table[r.index].lastSeen
  {
    hide GetSource, Limit, Passes;
    if e.Packet? {
      LimitKeepsIdentity(o, s.global, GetSource(s.sources, e.ip, Sizes(o), o.sourceTtl, e.now), e.kind, e.now);
    }
  }

  lemma LimitKeepsIdentity(o: Options, g: TokenBucket.Bucket, r: Lookup, kind: Kind, now: real)
    requires r.index < |r.table|
    ensures var x, y := r.table[r.index], Limit(o, g, r.table[r.index], kind, now).source;
            y.used == x.used && y.ip == x.ip && y.lastSeen == x.lastSeen
  {
  }

  lemma StepStaysInStep(o: Options, s: State, es: seq<Event>, n: nat)
    requires ValidOptions(o) && n < |es| && InStep(o, s.sources, es, n)
    ensures InStep(o, Step(o, s, es[n]).sources, es, n + 1)
  {
    hide GetSource, Step;
    var e, t, u := es[n], s.sources, Step(o, s, es[n]).sources;
    assert forall ip, time :: Witnessed(es, n, ip, time) ==> Witnessed(es, n + 1, ip, time);
    if Touches(o, e) {
      var r := GetSource(t, e.ip, Sizes(o), o.sourceTtl, e.now);
      StepIsLookup(o, s, e);
      LookupKeepsUnique(t, e.ip, Sizes(o), o.sourceTtl, e.now);
      OthersOf(t, e.ip, o, e.now);
      forall i | 0 <= i < |u| && u[i].used ensures Witnessed(es, n + 1, u[i].ip, u[i].lastSeen) {
        if i == r.index {
          assert es[n].ip == u[i].ip && es[n].now == u[i].lastSeen;
        }
      }
    } else {
      QuietStep(o, s, e);
    }
  }

  lemma OthersOf(t: seq<Source>, ip: Ip, o: Options, now: real)
    requires 0 < |t| && UniqueIps(t)
    ensures var r := GetSource(t, ip, Sizes(o), o.sourceTtl, now);
            OthersKept(t, r, o.sourceTtl, now)
  {
    var k := Find(t, |t|, ip, o.sourceTtl, now);
    if k < |t| {
      KnownSource(t, ip, Sizes(o), o.sourceTtl, now, k);
    } else {
      NewSource(t, ip, Sizes(o), o.sourceTtl, now);
    }
  }

  lemma QuietStep(o: Options, s: State, e: Event)
    requires 0 < |s.sources| && !Touches(o, e)
    ensures var u := Step(o, s, e).sources;
            |u| == |s.sources| &&
            forall i :: 0 <= i < |u| ==> u[i] == s.sources[i].(counters := u[i].counters) || !u[i].used
  {
  }

  lemma {:induction false} RunStaysInStep(o: Options, stats: Stats, cursor: nat, start: real, es: seq<Event>, n: nat)
    requires ValidOptions(o) && n <= |es|
    ensures InStep(o, After(o, Configured(o, stats, cursor, start), es, n).sources, es, n)
  {
    hide Step, InStep;
    if n > 0 {
      RunStaysInStep(o, stats, cursor, start, es, n - 1);
      StepStaysInStep(o, After(o, Configured(o, stats, cursor, start), es, n - 1), es, n - 1);
    } else {
      StartsInStep(o, stats, cursor, start, es);
    }
  }

  lemma StartsInStep(o: Options, stats: Stats, cursor: nat, start: real, es: seq<Event>)
    requires ValidOptions(o)
    ensures InStep(o, Configured(o, stats, cursor, start).sources, es, 0)
  {
  }

  /** The addresses other than `ip` seen after `since`, up to event `n`. */
  ghost function SeenSince(es: seq<Event>, n: nat, ip: Ip, since: real): set<Ip>
    requires n < |es|
  {
    set j | 0 <= j <= n && Sent(es[j]) && es[j].now > since && es[j].ip != ip :: es[j].ip
  }

  /** Least-recently-seen replacement: with distinct packet times, an entry that has not expired is displaced only
      after at least `maxSources` other addresses have been seen since its own last packet. */
  lemma DisplacedOnlyByMany(o: Options, stats: Stats, cursor: nat, start: real, es: seq<Event>, n: nat, i: nat)
    requires ValidOptions(o) && StrictlyOrdered(es) && n < |es| && i < o.maxSources
    requires var t := After(o, Configured(o, stats, cursor, start), es, n).sources;
             t[i].used && !Expired(t[i], o.sourceTtl, es[n].now)
             && !Tracked(After(o, Configured(o, stats, cursor, start), es, n + 1).sources, t[i].ip)
    ensures var x := After(o, Configured(o, stats, cursor, start), es, n).sources[i];
            |SeenSince(es, n, x.ip, x.lastSeen)| >= o.maxSources
  {
    hide Step, GetSource, After;
    var s := After(o, Configured(o, stats, cursor, start), es, n);
    RunStaysInStep(o, stats, cursor, start, es, n);
    AfterStep(o, Configured(o, stats, cursor, start), es, n);
    var e := es[n];
    SurvivesUnlessReplaced(o, s, e, i);
    Full(o, s.sources, e.ip, e.now, i);
    Count(o, s.sources, es, n, i);
  }

  /** A live entry survives an event unless its slot is given to another address. */
  lemma SurvivesUnlessReplaced(o: Options, s: State, e: Event, i: nat)
    requires 0 < |s.sources| && UniqueIps(s.sources) && i < |s.sources|
    requires s.sources[i].used && !Expired(s.sources[i], o.sourceTtl, e.now)
    ensures Tracked(Step(o, s, e).sources, s.sources[i].ip)
            || (Touches(o, e) && s.sources[i].ip != e.ip
                && GetSource(s.sources, e.ip, Sizes(o), o.sourceTtl, e.now).index == i)
  {
    hide Step, GetSource;
    var t, u := s.sources, Step(o, s, e).sources;
    if Touches(o, e) {
      var r := GetSource(t, e.ip, Sizes(o), o.sourceTtl, e.now);
      StepIsLookup(o, s, e);
      LookupKeepsUnique(t, e.ip, Sizes(o), o.sourceTtl, e.now);
      OthersOf(t, e.ip, o, e.now);
      assert i != r.index ==> Holds(u[i], t[i].ip);
      assert t[i].ip == e.ip ==> Holds(u[r.index], t[i].ip);
    } else {
      LiveStays(o, s, e, i);
      assert Holds(u[i], t[i].ip);
    }
  }

  lemma AfterStep(o: Options, s: State, es: seq<Event>, n: nat)
    requires n < |es| && 0 < |s.sources|
    ensures After(o, s, es, n + 1) == Step(o, After(o, s, es, n), es[n])
  {
  }

  lemma LiveStays(o: Options, s: State, e: Event, i: nat)
    requires 0 < |s.sources| && !Touches(o, e) && i < |s.sources|
    requires s.sources[i].used && !Expired(s.sources[i], o.sourceTtl, e.now)
    ensures var x := Step(o, s, e).sources[i];
            x == s.sources[i].(counters := x.counters)
  {
  }

  /** A live entry of another address is reused only when the table is full of live entries, none idle longer. */
  lemma Full(o: Options, t: seq<Source>, ip: Ip, now: real, i: nat)
    requires 0 < |t| && UniqueIps(t) && i < |t| && t[i].used && !Expired(t[i], o.sourceTtl, now) && t[i].ip != ip
    requires GetSource(t, ip, Sizes(o), o.sourceTtl, now).index == i
    ensures forall k :: 0 <= k < |t| ==>
              t[k].used && t[k].ip != ip && !Expired(t[k], o.sourceTtl, now) && t[i].lastSeen <= t[k].lastSeen
  {
    var k := Find(t, |t|, ip, o.sourceTtl, now);
    if k < |t| {
      KnownSource(t, ip, Sizes(o), o.sourceTtl, now, k);
    } else {
      NewSource(t, ip, Sizes(o), o.sourceTtl, now);
    }
  }

  lemma Count(o: Options, t: seq<Source>, es: seq<Event>, n: nat, i: nat)
    requires n < |es| && Sent(es[n]) && InStep(o, t, es, n) && StrictlyOrdered(es) && i < |t|
    requires forall k :: 0 <= k < |t| ==> t[k].used && t[k].ip != es[n].ip && t[i].lastSeen <= t[k].lastSeen
    ensures |SeenSince(es, n, t[i].ip, t[i].lastSeen)| >= o.maxSources
  {
    var held := set k | 0 <= k < |t| :: t[k].ip;
    AddressesCount(t, |t|);
    var seen := SeenSince(es, n, t[i].ip, t[i].lastSeen);
    assert Witnessed(es, n, t[i].ip, t[i].lastSeen);
    var own :| 0 <= own < n && Sent(es[own]) && es[own].ip == t[i].ip && es[own].now == t[i].lastSeen;
    forall k | 0 <= k < |t| && k != i ensures t[k].ip in seen {
      assert Witnessed(es, n, t[k].ip, t[k].lastSeen);
      var j :| 0 <= j < n && Sent(es[j]) && es[j].ip == t[k].ip && es[j].now == t[k].lastSeen;
      assert t[k].ip != t[i].ip;
    }
    assert es[own].now < es[n].now;
    assert es[n].ip in seen;
    assert held - {t[i].ip} <= seen - {es[n].ip};
    Subset(held - {t[i].ip}, seen - {es[n].ip});
  }
}
