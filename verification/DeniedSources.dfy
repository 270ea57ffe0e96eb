/** Sources on the deny list are looked up before they are denied, so they take up slots of the table. */
module DeniedSources {
  import opened Cidr
  import opened SourceTable
  import opened Admission
  import opened AdmissionRuns
  import opened Forgetting
  import opened SourceTableRuns
  import opened History
  import opened FloodGuarantee
  import opened BlockLength

  /** Every slot is taken by a live entry of another address. */
  predicate Crowded(o: Options, t: seq<Source>, ip: Ip, now: real) {
    forall i :: 0 <= i < |t| ==> t[i].used && t[i].ip != ip && !Expired(t[i], o.sourceTtl, now)
  }

  /** The packet of `ip` costs some other address its live entry. */
  ghost predicate Displaces(o: Options, s: State, ip: Ip, kind: Kind, now: real)
    requires 0 < |s.sources|
  {
    exists v: Ip :: Live(o, s.sources, v, now) && !Live(o, Accept(o, s, ip, kind, now).state.sources, v, now)
  }

  /** A denied packet is dropped, and displaces a live entry exactly when the table is crowded. */
  lemma DeniedDisplacesIffCrowded(o: Options, s: State, ip: Ip, kind: Kind, now: real)
    requires ValidOptions(o) && o.enabled && 0 < |s.sources| && UniqueIps(s.sources)
    requires !Passes(o.allowed, o.denied, ip)
    ensures Accept(o, s, ip, kind, now).verdict == AclDrop
    ensures Displaces(o, s, ip, kind, now) <==> Crowded(o, s.sources, ip, now)
  {
    hide GetSource, Accept;
    var t, u := s.sources, Accept(o, s, ip, kind, now).state.sources;
    var found := GetSource(t, ip, Sizes(o), o.sourceTtl, now);
    DeniedStep(o, s, ip, kind, now);
    LookupKeepsUnique(t, ip, Sizes(o), o.sourceTtl, now);
    if Displaces(o, s, ip, kind, now) {
      var v: Ip :| Live(o, t, v, now) && !Live(o, u, v, now);
      var i :| 0 <= i < |t| && Holds(t[i], v) && !Expired(t[i], o.sourceTtl, now);
      Full(o, t, ip, now, i);
    }
    if Crowded(o, t, ip, now) {
      NewSource(t, ip, Sizes(o), o.sourceTtl, now);
      var v := t[found.index].ip;
      assert Holds(t[found.index], v);
      assert Live(o, t, v, now) && !Live(o, u, v, now);
    }
  }

  /** What a denied packet does: its address gets an entry seen now, all other slots stay or are wiped for idleness. */
  lemma DeniedStep(o: Options, s: State, ip: Ip, kind: Kind, now: real)
    requires ValidOptions(o) && o.enabled && 0 < |s.sources| && UniqueIps(s.sources)
    requires !Passes(o.allowed, o.denied, ip)
    ensures var t, r := s.sources, Accept(o, s, ip, kind, now);
            var k := GetSource(t, ip, Sizes(o), o.sourceTtl, now).index;
            && r.verdict == AclDrop && UniqueIps(r.state.sources)
            && Holds(r.state.sources[k], ip) && r.state.sources[k].lastSeen == now
            && forall i :: 0 <= i < |t| && i != k ==>
                 r.state.sources[i] == t[i] || (Expired(t[i], o.sourceTtl, now) && r.state.sources[i] == EMPTY)
  {
    hide GetSource, Passes;
    var found := GetSource(s.sources, ip, Sizes(o), o.sourceTtl, now);
    LookupKeepsUnique(s.sources, ip, Sizes(o), o.sourceTtl, now);
    OthersOf(s.sources, ip, o, now);
    var x := found.table[found.index];
    RewriteKeepsUnique(found.table, found.index, x.(counters := x.counters.(aclDrops := x.counters.aclDrops + 1)));
  }

  /** The entry of `ip` was last seen at `now`. */
  predicate SeenNow(t: seq<Source>, ip: Ip, now: real) {
    exists i :: 0 <= i < |t| && Holds(t[i], ip) && t[i].lastSeen == now
  }

  ghost predicate SeenBefore(t: seq<Source>, ip: Ip, now: real) {
    forall i :: 0 <= i < |t| && Holds(t[i], ip) ==> t[i].lastSeen < now
  }

  /** While `v` keeps its entry, a denied packet of another address costs none of those seen just now theirs. */
  lemma DeniedSpares(o: Options, s: State, ip: Ip, kind: Kind, now: real, v: Ip, other: Ip)
    requires ValidOptions(o) && o.enabled && 0 < |s.sources| && UniqueIps(s.sources) && ip != v
    requires !Passes(o.allowed, o.denied, ip) && SeenBefore(s.sources, v, now)
    ensures var u := Accept(o, s, ip, kind, now).state.sources;
            && SeenBefore(u, v, now)
            && (Tracked(u, v) ==> Tracked(s.sources, v) && SeenNow(u, ip, now)
                                  && (SeenNow(s.sources, other, now) ==> SeenNow(u, other, now)))
  {
    hide GetSource, Accept;
    var t, u := s.sources, Accept(o, s, ip, kind, now).state.sources;
    var found := GetSource(t, ip, Sizes(o), o.sourceTtl, now);
    DeniedStep(o, s, ip, kind, now);
    if Tracked(u, v) && SeenNow(t, other, now) && other != ip {
      var j :| 0 <= j < |u| && Holds(u[j], v);
      var i :| 0 <= i < |t| && Holds(t[i], other) && t[i].lastSeen == now;
      assert t[j] == u[j];
      if i == found.index {
        Full(o, t, ip, now, i);
      }
      assert u[i] == t[i];
    }
  }

  /** Each denied address sends one packet, all at the same moment. */
  function Crowd(denied: seq<Ip>, kind: Kind, now: real): (es: seq<Event>)
    ensures |es| == |denied|
  {
    seq(|denied|, i requires 0 <= i < |denied| => Packet(now, denied[i], kind))
  }

  ghost predicate Denied(o: Options, denied: seq<Ip>, v: Ip) {
    forall i :: 0 <= i < |denied| ==> denied[i] != v && !Passes(o.allowed, o.denied, denied[i])
  }

  lemma {:induction false} CrowdFills(o: Options, s: State, denied: seq<Ip>, v: Ip, kind: Kind, now: real, n: nat)
    requires ValidOptions(o) && o.enabled && 0 < |s.sources| && UniqueIps(s.sources) && n <= |denied|
    requires Denied(o, denied, v) && SeenBefore(s.sources, v, now)
    ensures var t := After(o, s, Crowd(denied, kind, now), n).sources;
            && UniqueIps(t) && SeenBefore(t, v, now)
            && (Tracked(t, v) ==> forall k :: 0 <= k < n ==> SeenNow(t, denied[k], now))
  {
    hide Accept, SeenBefore, SeenNow, Tracked, Passes;
    if n > 0 {
      CrowdFills(o, s, denied, v, kind, now, n - 1);
      var before := After(o, s, Crowd(denied, kind, now), n - 1);
      DeniedStep(o, before, denied[n - 1], kind, now);
      DeniedSpares(o, before, denied[n - 1], kind, now, v, v);
      forall k | 0 <= k < n - 1
        ensures var u := Accept(o, before, denied[n - 1], kind, now).state.sources;
                Tracked(u, v) && SeenNow(before.sources, denied[k], now) ==> SeenNow(u, denied[k], now)
      {
        DeniedSpares(o, before, denied[n - 1], kind, now, v, denied[k]);
      }
    }
  }

  lemma {:induction false} SlotsBoundAddresses(t: seq<Source>, n: nat)
    requires n <= |t|
    ensures |(set i | 0 <= i < n && t[i].used :: t[i].ip)| <= n
  {
    if n > 0 {
      SlotsBoundAddresses(t, n - 1);
      var before := set i | 0 <= i < n - 1 && t[i].used :: t[i].ip;
      assert (set i | 0 <= i < n && t[i].used :: t[i].ip) == before + if t[n - 1].used then {t[n - 1].ip} else {};
    }
  }

  lemma {:induction false} DistinctCount(ips: seq<Ip>, n: nat)
    requires n <= |ips| && forall i, j :: 0 <= i < j < |ips| ==> ips[i] != ips[j]
    ensures |(set i | 0 <= i < n :: ips[i])| == n
  {
    if n > 0 {
      DistinctCount(ips, n - 1);
      var before := set i | 0 <= i < n - 1 :: ips[i];
      assert (set i | 0 <= i < n :: ips[i]) == before + {ips[n - 1]};
    }
  }

  /** As many denied addresses as the table has slots push every other entry out of it. */
  lemma CrowdDisplaces(o: Options, s: State, denied: seq<Ip>, v: Ip, kind: Kind, now: real)
    requires ValidOptions(o) && o.enabled && UniqueIps(s.sources) && 0 < |s.sources| == |denied|
    requires forall i, j :: 0 <= i < j < |denied| ==> denied[i] != denied[j]
    requires Denied(o, denied, v) && SeenBefore(s.sources, v, now)
    ensures var t := After(o, s, Crowd(denied, kind, now), |denied|).sources;
            !Tracked(t, v) && UniqueIps(t)
  {
    hide Passes, After;
    var t := After(o, s, Crowd(denied, kind, now), |denied|).sources;
    CrowdFills(o, s, denied, v, kind, now, |denied|);
    var crowd := set i | 0 <= i < |denied| :: denied[i];
    var held := set i | 0 <= i < |t| && t[i].used :: t[i].ip;
    DistinctCount(denied, |denied|);
    SlotsBoundAddresses(t, |t|);
    if Tracked(t, v) {
      Subset(crowd + {v}, held);
    }
  }

  /** Denied addresses lift blocks: a source whose packets are being dropped as blocked is judged afresh after as many
      denied addresses as the table has slots have sent one packet each, all of which are dropped. */
  lemma DeniedCrowdLiftsBlock(o: Options, s: State, denied: seq<Ip>, v: Ip, kind: Kind, now: real)
    requires ValidOptions(o) && o.enabled && UniqueIps(s.sources) && 0 < |s.sources| == |denied| && 0.0 <= now
    requires forall i, j :: 0 <= i < j < |denied| ==> denied[i] != denied[j]
    requires Denied(o, denied, v) && SeenBefore(s.sources, v, now)
    requires Accept(o, s, v, kind, now).verdict == BlockedDrop
    ensures var es := Crowd(denied, kind, now);
            && (forall j :: 0 <= j < |es| ==> VerdictAt(o, s, es, j) == AclDrop)
            && Accept(o, After(o, s, es, |es|), v, kind, now).verdict != BlockedDrop
  {
    hide After, GetSource, SeenBefore, Passes;
    var es := Crowd(denied, kind, now);
    forall j | 0 <= j < |es| ensures VerdictAt(o, s, es, j) == AclDrop {
      CrowdFills(o, s, denied, v, kind, now, j);
      DeniedStep(o, After(o, s, es, j), denied[j], kind, now);
    }
    CrowdDisplaces(o, s, denied, v, kind, now);
    EntryShape(o, After(o, s, es, |es|), v, now);
  }

  lemma {:induction false} AfterPrefix(o: Options, s: State, es: seq<Event>, fs: seq<Event>, n: nat)
    requires 0 < |s.sources| && n <= |es| && n <= |fs| && es[..n] == fs[..n]
    ensures After(o, s, es, n) == After(o, s, fs, n)
  {
    hide Step;
    if n > 0 {
      assert es[..n - 1] == es[..n][..n - 1] == fs[..n - 1];
      assert es[n - 1] == es[..n][n - 1] == fs[n - 1];
      AfterPrefix(o, s, es, fs, n - 1);
    }
  }

  lemma {:induction false} AfterSplit(o: Options, s: State, es: seq<Event>, fs: seq<Event>, n: nat)
    requires 0 < |s.sources| && n <= |fs|
    ensures After(o, s, es + fs, |es| + n) == After(o, After(o, s, es, |es|), fs, n)
  {
    hide Step;
    if n > 0 {
      AfterSplit(o, s, es, fs, n - 1);
      assert (es + fs)[|es| + n - 1] == fs[n - 1];
    } else {
      assert (es + fs)[..|es|] == es[..|es|];
      AfterPrefix(o, s, es + fs, es, |es|);
    }
  }

  /** A source gets itself blocked; while the block lasts, as many denied addresses as there are slots send a packet each,
      and then the source comes back. */
  function Lifting(o: Options, start: real, v: Ip, denied: seq<Ip>, now: real, kind: Kind): (es: seq<Event>)
    ensures |es| == Flurry(o) + |denied| + 1
  {
    seq(Flurry(o), _ => Packet(start, v, Other)) + Crowd(denied, kind, now) + [Packet(now, v, kind)]
  }

  /** The run that shows it, from the start: the block has begun and is not over, and the packet is not dropped as blocked. */
  lemma DeniedCrowdRun(o: Options, stats: Stats, cursor: nat, start: real, v: Ip, denied: seq<Ip>, now: real, kind: Kind)
    returns (r: Run, i: nat)
    requires ValidOptions(o) && o.enabled && Passes(o.allowed, o.denied, v) && 0.0 <= start
    requires |denied| == o.maxSources && (forall j, k :: 0 <= j < k < |denied| ==> denied[j] != denied[k])
    requires Denied(o, denied, v) && start < now < start + o.blockDuration
    ensures r == Run(o, stats, cursor, start, Lifting(o, start, v, denied, now, kind)) && Proper(r)
    ensures i < Flurry(o) && Starts(r, i) && Within(r, i, |r.es| - 1) && VerdictOf(r, |r.es| - 1) != BlockedDrop
  {
    hide Starts, Passes, Denied, After, Step, Entry, Decide, Accept, Proper, GetSource;
    var es := Lifting(o, start, v, denied, now, kind);
    r := Run(o, stats, cursor, start, es);
    var n, last := Flurry(o), |es| - 1;
    var back := Run(o, stats, cursor, start, Comeback(o, v, start, now, kind));
    i := FlurryStarts(back, v, now, kind);
    assert es[..n] == back.es[..n];
    assert back.es[..i + 1] == back.es[..n][..i + 1] == es[..i + 1];
    StartsPrefix(back, r, i);
    assert es[last] == Packet(now, v, kind) && es[i] == Packet(start, v, Other);
    LiftingDisplaces(r, v, denied, now, kind);
    InOrderRun(r, now, n);
    LostIsFresh(r, v, last);
  }

  /** A source whose entry is lost is not dropped as blocked. */
  lemma LostIsFresh(r: Run, v: Ip, n: nat)
    requires Proper(r) && n < |r.es| && r.es[n].Packet? && r.es[n].ip == v
    requires UniqueIps(Table(r, n)) && !Tracked(Table(r, n), v)
    ensures VerdictOf(r, n) != BlockedDrop
  {
    hide Entry, After, Passes;
    EntryShape(r.o, StateAt(r, n), v, r.es[n].now);
    DecidedOnEntry(r, n);
  }

  lemma LiftingDisplaces(r: Run, v: Ip, denied: seq<Ip>, now: real, kind: Kind)
    requires ValidOptions(r.o) && r.o.enabled && |denied| == r.o.maxSources
    requires forall j, k :: 0 <= j < k < |denied| ==> denied[j] != denied[k]
    requires Denied(r.o, denied, v) && r.start < now && r.es == Lifting(r.o, r.start, v, denied, now, kind)
    ensures var t := Table(r, |r.es| - 1);
            UniqueIps(t) && !Tracked(t, v)
  {
    hide Denied, After, Step, Tracked, UniqueIps;
    var es, last, n := r.es, |r.es| - 1, Flurry(r.o);
    var s0 := Configured(r.o, r.stats, r.cursor, r.start);
    var flurry, crowd := seq(n, _ => Packet(r.start, v, Other)), Crowd(denied, kind, now);
    AfterSplit(r.o, s0, flurry, crowd, |denied|);
    assert es[..last] == (flurry + crowd)[..last];
    AfterPrefix(r.o, s0, es, flurry + crowd, last);
    var s := After(r.o, s0, flurry, n);
    RunStaysInStep(r.o, r.stats, r.cursor, r.start, flurry, n);
    SeenAtStart(r.o, s.sources, flurry, r.start, v, now);
    CrowdDisplaces(r.o, s, denied, v, kind, now);
  }

  lemma SeenAtStart(o: Options, t: seq<Source>, es: seq<Event>, start: real, v: Ip, now: real)
    requires InStep(o, t, es, |es|) && start < now && forall i :: 0 <= i < |es| ==> es[i].now == start
    ensures UniqueIps(t) && SeenBefore(t, v, now)
  {
  }

  lemma InOrderRun(r: Run, now: real, n: nat)
    requires ValidOptions(r.o) && r.o.enabled && 0.0 <= r.start <= now && n <= |r.es|
    requires forall i :: 0 <= i < |r.es| ==> r.es[i].now == if i < n then r.start else now
    ensures Proper(r)
  {
  }

  /** What starts a block depends on the past only. */
  lemma StartsPrefix(r: Run, q: Run, i: nat)
    requires 0 < r.o.maxSources && i < |r.es| && i < |q.es| && r.es[..i + 1] == q.es[..i + 1] && Starts(r, i)
    requires q == r.(es := q.es)
    ensures Starts(q, i)
  {
    assert r.es[i] == r.es[..i + 1][i] == q.es[i];
    assert r.es[..i] == r.es[..i + 1][..i] == q.es[..i];
    AfterPrefix(r.o, Configured(r.o, r.stats, r.cursor, r.start), r.es, q.es, i);
  }
}
