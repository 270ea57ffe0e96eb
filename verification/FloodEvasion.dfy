/** The threshold of the flood blocker is exact for packets, not only for violation times: a source that spreads its
    violations over two windows gets one violation fewer past the blocker of the running server. */
module FloodEvasion {
  import opened Cidr
  import opened TokenBucket
  import opened FloodBlocker
  import opened SourceTable
  import opened Admission
  import opened AdmissionRuns
  import opened Forgetting
  import opened History
  import opened FloodGuarantee
  import opened ForgettingWindow

  /** At time `at` the source sends until it has caused `count` violations more. */
  datatype Phase = Phase(at: real, count: nat)

  /** The violations that count when one more comes at `now`. */
  function CountNow(f: Flood, p: Policy, now: real): nat {
    if now - f.started > p.window then 0 else f.violations
  }

  function AfterPhase(f: Flood, p: Policy, ph: Phase): Flood {
    if ph.count == 0 then f
    else Flood(if CountNow(f, p, ph.at) == 0 then ph.at else f.started, CountNow(f, p, ph.at) + ph.count, f.blockedUntil)
  }

  /** The plan never reaches the limit of the blocker, and leaves no longer gaps than the time to live. */
  predicate Plan(o: Options, f: Flood, plan: seq<Phase>)
    decreases |plan|
  {
    plan == [] ||
    var p, ph := FloodPolicy(o), plan[0];
    && CountNow(f, p, ph.at) + ph.count < o.floodViolations
    && (1 < |plan| ==> 0 < plan[1].count && ph.at <= plan[1].at <= ph.at + o.sourceTtl)
    && Plan(o, AfterPhase(f, p, ph), plan[1..])
  }

  function Planned(plan: seq<Phase>): nat {
    if plan == [] then 0 else plan[0].count + Planned(plan[1..])
  }

  /** A run of one source that causes the violations `c` and is never blocked. */
  ghost predicate Evades(o: Options, v: Ip, s: State, es: seq<Event>, c: seq<nat>)
    requires 0 < |s.sources|
  {
    && (forall i :: 0 <= i < |es| ==> es[i].Packet? && es[i].ip == v)
    && (forall k :: 0 <= k < |c| ==> c[k] < |es| && VerdictAt(o, s, es, c[k]) == RateDrop)
    && (forall k, l :: 0 <= k < l < |c| ==> c[k] < c[l])
    && (forall j :: 0 <= j < |es| ==> Unharmed(o, v, s, es, j))
  }

  ghost predicate Unharmed(o: Options, v: Ip, s: State, es: seq<Event>, j: nat)
    requires 0 < |s.sources| && j < |es| && es[j].Packet? && es[j].ip == v
  {
    VerdictAt(o, s, es, j) == RateDrop ==>
      !Triggers(Entry(o, After(o, s, es, j), v, es[j].now).flood, FloodPolicy(o), es[j].now)
  }

  /** The events are in the order of the plan, and the first of each phase's violations comes no earlier than it. */
  ghost predicate OnTime(es: seq<Event>, c: seq<nat>, plan: seq<Phase>) {
    && (forall k :: 0 <= k < |c| ==> c[k] < |es|)
    && (forall i :: 0 <= i < |es| ==> plan != [] && plan[0].at <= es[i].now <= plan[|plan| - 1].at)
    && (forall i, j :: 0 <= i <= j < |es| ==> es[i].now <= es[j].now)
    && (plan != [] && |plan| > 1 ==> forall k :: plan[0].count <= k < |c| ==> plan[1].at <= es[c[k]].now)
  }

  function Shift(c: seq<nat>): (d: seq<nat>)
    ensures |d| == |c|
  {
    seq(|c|, k requires 0 <= k < |c| => c[k] + 1)
  }

  lemma Through(o: Options, s: State, e: Event, es: seq<Event>, j: nat)
    requires 0 < |s.sources| && j < |es| && es[j].Packet?
    ensures ([e] + es)[j + 1] == es[j]
    ensures After(o, s, [e] + es, j + 1) == After(o, Step(o, s, e), es, j)
    ensures VerdictAt(o, s, [e] + es, j + 1) == VerdictAt(o, Step(o, s, e), es, j)
  {
    hide Step, Accept;
    AfterFirst(o, s, IdealStart(o, 0.0), e, es, j);
  }

  lemma FirstOf(o: Options, s: State, e: Event, es: seq<Event>)
    requires 0 < |s.sources| && e.Packet?
    ensures ([e] + es)[0] == e && After(o, s, [e] + es, 0) == s
    ensures VerdictAt(o, s, [e] + es, 0) == Accept(o, s, e.ip, e.kind, e.now).verdict
  {
    hide Accept;
  }

  /** Evading goes on after one more packet that does not block. */
  lemma EvadesEarlier(o: Options, v: Ip, s: State, e: Event, es: seq<Event>, c: seq<nat>)
    requires 0 < |s.sources| && e.Packet? && e.ip == v && Evades(o, v, Step(o, s, e), es, c)
    requires Accept(o, s, v, e.kind, e.now).verdict == RateDrop ==>
             !Triggers(Entry(o, s, v, e.now).flood, FloodPolicy(o), e.now)
    ensures Evades(o, v, s, [e] + es, Shift(c))
    ensures Accept(o, s, v, e.kind, e.now).verdict == RateDrop ==> Evades(o, v, s, [e] + es, [0] + Shift(c))
  {
    hide Accept, Step, Entry, Triggers;
    FirstOf(o, s, e, es);
    forall k | 0 <= k < |c| ensures VerdictAt(o, s, [e] + es, Shift(c)[k]) == RateDrop {
      Through(o, s, e, es, c[k]);
    }
    forall j | 0 <= j < |[e] + es| ensures Unharmed(o, v, s, [e] + es, j) {
      if j > 0 {
        Through(o, s, e, es, j - 1);
        assert Unharmed(o, v, Step(o, s, e), es, j - 1);
      }
    }
  }

  /** One packet of a source that is neither blocked nor about to be. */
  lemma ProbeDecided(o: Options, g: Bucket, x: Source, now: real)
    requires ValidOptions(o) && Passes(o.allowed, o.denied, x.ip) && x.flood.blockedUntil <= now
    requires 0.0 <= g.tokens && g.updated <= now
    requires CountNow(x.flood, FloodPolicy(o), now) + 1 < o.floodViolations
    ensures var d := Decide(o, g, x, Other, now);
            && 0.0 <= d.global.tokens && d.global.updated <= now && d.source.flood.blockedUntil <= now
            && (if d.verdict == RateDrop
                then !Triggers(x.flood, FloodPolicy(o), now) && Tokens(o, d.global, now) <= Tokens(o, g, now)
                     && d.source.flood == AfterPhase(x.flood, FloodPolicy(o), Phase(now, 1))
                else d.source.flood == x.flood && Tokens(o, d.global, now) <= Tokens(o, g, now) - 1.0)
  {
    hide Level, Take;
    TakeNow(g, o.globalRate, o.globalBurst as real, now);
    NeverNegative(o, g, now);
  }

  lemma PhaseGoesOn(f: Flood, p: Policy, ph: Phase)
    requires 0 < ph.count && 0.0 < p.window
    ensures var g := AfterPhase(f, p, Phase(ph.at, 1));
            CountNow(g, p, ph.at) == CountNow(f, p, ph.at) + 1
            && AfterPhase(g, p, ph.(count := ph.count - 1)) == AfterPhase(f, p, ph)
  {
  }

  lemma PlanStep(o: Options, f: Flood, plan: seq<Phase>)
    requires ValidOptions(o) && plan != [] && 0 < plan[0].count && Plan(o, f, plan)
    ensures var shorter := [plan[0].(count := plan[0].count - 1)] + plan[1..];
            Plan(o, AfterPhase(f, FloodPolicy(o), Phase(plan[0].at, 1)), shorter) && Planned(shorter) == Planned(plan) - 1
  {
    var shorter := [plan[0].(count := plan[0].count - 1)] + plan[1..];
    assert shorter[1..] == plan[1..];
    PhaseGoesOn(f, FloodPolicy(o), plan[0]);
  }

  /** Acting on a plan. `tokens` bounds what the global bucket holds. */
  lemma {:induction false} Send(o: Options, v: Ip, s: State, from: real, plan: seq<Phase>, tokens: nat)
    returns (es: seq<Event>, c: seq<nat>)
    requires ValidOptions(o) && o.enabled && Passes(o.allowed, o.denied, v) && plan != [] && 0.0 <= from
    requires from <= plan[0].at <= from + o.sourceTtl && (from == plan[0].at || 0 < plan[0].count)
    requires Alone(o, v, s, from) && 0.0 <= s.global.tokens && s.global.updated <= from
    requires Tokens(o, s.global, plan[0].at) <= tokens as real
    requires var f := Entry(o, s, v, plan[0].at).flood; f.blockedUntil <= plan[0].at && Plan(o, f, plan)
    ensures Evades(o, v, s, es, c) && |c| == Planned(plan) && OnTime(es, c, plan)
    decreases |plan|, plan[0].count + tokens
  {
    hide Level, Entry, Decide, Step, Alone, Evades, Accept, Plan, OnTime, Tokens, AfterPhase;
    var ph, now := plan[0], plan[0].at;
    AloneSome(o, v, s, from);
    var x := Entry(o, s, v, now);
    if ph.count == 0 {
      NextPhase(o, x.flood, plan);
      if |plan| == 1 {
        es, c := [], [];
        NothingSent(o, v, s, plan);
      } else {
        SameEntry(o, v, s, now, plan[1].at);
        FullAtMost(o, s.global, plan[1].at);
        es, c := Send(o, v, s, now, plan[1..], o.globalBurst);
        OnTimePhase(es, c, plan);
      }
    } else {
      var e := Probe(v, now, Other);
      AloneStep(o, v, s, e, from);
      ResultIsDecided(o, v, s, e);
      RateBoundsDecision(o, v, s, e);
      EntryShape(o, s, v, now);
      PlanLimit(o, x.flood, plan);
      PlanInOrder(o, x.flood, plan);
      ProbeDecided(o, s.global, x, now);
      NeverNegative(o, s.global, now);
      var s', rest, d := Step(o, s, e), [], [];
      NeverNegative(o, s'.global, now);
      if Accept(o, s, v, Other, now).verdict == RateDrop {
        PlanStep(o, x.flood, plan);
        rest, d := Send(o, v, s', now, [ph.(count := ph.count - 1)] + plan[1..], tokens);
        es, c := [e] + rest, [0] + Shift(d);
      } else {
        rest, d := Send(o, v, s', now, plan, tokens - 1);
        es, c := [e] + rest, Shift(d);
      }
      EvadesEarlier(o, v, s, e, rest, d);
      OnTimeStep(e, rest, d, plan, Accept(o, s, v, Other, now).verdict == RateDrop);
    }
  }

  lemma NextPhase(o: Options, f: Flood, plan: seq<Phase>)
    requires plan != [] && plan[0].count == 0 && Plan(o, f, plan)
    ensures Plan(o, f, plan[1..]) && Planned(plan) == Planned(plan[1..])
    ensures 1 < |plan| ==> 0 < plan[1].count && plan[0].at <= plan[1].at <= plan[0].at + o.sourceTtl
  {
  }

  lemma PlanLimit(o: Options, f: Flood, plan: seq<Phase>)
    requires plan != [] && Plan(o, f, plan)
    ensures CountNow(f, FloodPolicy(o), plan[0].at) + plan[0].count < o.floodViolations
  {
  }

  lemma {:induction false} PlanInOrder(o: Options, f: Flood, plan: seq<Phase>)
    requires plan != [] && Plan(o, f, plan)
    ensures plan[0].at <= plan[|plan| - 1].at
    decreases |plan|
  {
    if 1 < |plan| {
      PlanInOrder(o, AfterPhase(f, FloodPolicy(o), plan[0]), plan[1..]);
    }
  }

  lemma NothingSent(o: Options, v: Ip, s: State, plan: seq<Phase>)
    requires 0 < |s.sources| && |plan| == 1 && plan[0].count == 0
    ensures Evades(o, v, s, [], []) && OnTime([], [], plan) && Planned(plan) == 0
  {
  }

  lemma FullAtMost(o: Options, g: Bucket, now: real)
    ensures Tokens(o, g, now) <= o.globalBurst as real
  {
  }

  lemma RateBoundsDecision(o: Options, v: Ip, s: State, e: Event)
    requires o.enabled && 0 < |s.sources| && e.Packet? && e.ip == v
    ensures Accept(o, s, v, e.kind, e.now).verdict == Decide(o, s.global, Entry(o, s, v, e.now), e.kind, e.now).verdict
  {
    hide Decide, GetSource;
  }

  /** An entry retained until `later` is judged by the same blocker then. */
  lemma SameEntry(o: Options, v: Ip, s: State, now: real, later: real)
    requires ValidOptions(o) && Alone(o, v, s, now) && now <= later <= now + o.sourceTtl && 0 < |s.sources|
    ensures Entry(o, s, v, later).flood == Entry(o, s, v, now).flood
  {
    hide Entry;
    EntryShape(o, s, v, now);
    EntryShape(o, s, v, later);
  }

  lemma OnTimePhase(es: seq<Event>, c: seq<nat>, plan: seq<Phase>)
    requires 1 < |plan| && plan[0].count == 0 && plan[0].at <= plan[1].at && OnTime(es, c, plan[1..])
    ensures OnTime(es, c, plan)
  {
    assert plan[1..][|plan[1..]| - 1] == plan[|plan| - 1];
  }

  lemma OnTimeStep(e: Event, es: seq<Event>, c: seq<nat>, plan: seq<Phase>, counts: bool)
    requires plan != [] && e.now == plan[0].at && e.now <= plan[|plan| - 1].at && (counts ==> 0 < plan[0].count)
    requires OnTime(es, c, if counts then [plan[0].(count := plan[0].count - 1)] + plan[1..] else plan)
    ensures OnTime([e] + es, if counts then [0] + Shift(c) else Shift(c), plan)
  {
    var before := if counts then [plan[0].(count := plan[0].count - 1)] + plan[1..] else plan;
    assert before[|before| - 1].at == plan[|plan| - 1].at;
    var d := if counts then [0] + Shift(c) else Shift(c);
    if |plan| > 1 {
      assert before[1] == plan[1];
      forall k | plan[0].count <= k < |d| ensures plan[1].at <= ([e] + es)[d[k]].now {
        var m := if counts then k - 1 else k;
        assert d[k] == c[m] + 1;
        assert ([e] + es)[c[m] + 1] == es[c[m]];
      }
    }
  }

  /** One violation, then as many as the limit allows in the same window, then as many in a new one. */
  function TwoWindows(o: Options, start: real): seq<Phase>
    requires 2 <= o.floodViolations
  {
    if o.floodViolations == 2 then [Phase(start, 1)]
    else [Phase(start, 1), Phase(start + o.floodWindow, o.floodViolations - 2),
          Phase(start + 2.0 * o.floodWindow, o.floodViolations - 1)]
  }

  lemma TwoWindowsIsPlan(o: Options, start: real)
    requires ValidOptions(o) && 2 <= o.floodViolations && o.floodWindow <= o.sourceTtl
    ensures Plan(o, CALM, TwoWindows(o, start))
    ensures Planned(TwoWindows(o, start)) == if o.floodViolations == 2 then 1 else 2 * o.floodViolations - 2
  {
    var plan, p := TwoWindows(o, start), FloodPolicy(o);
    var f1 := AfterPhase(CALM, p, plan[0]);
    assert Plan(o, f1, []) && Planned([]) == 0;
    if o.floodViolations > 2 {
      var f2 := AfterPhase(f1, p, plan[1]);
      var f3 := AfterPhase(f2, p, plan[2]);
      assert plan[1..][1..] == plan[2..] && plan[2..][1..] == [];
      assert Plan(o, f3, []);
      assert Plan(o, f2, plan[2..]) && Planned(plan[2..]) == o.floodViolations - 1;
      assert Plan(o, f1, plan[1..]) && Planned(plan[1..]) == 2 * o.floodViolations - 3;
    } else {
      assert plan[1..] == [];
    }
  }

  /** Main theorem: for every limit of two or more, whenever entries outlive windows, some run of a single source has
      one violation less than the threshold within one flood window, and no block ever starts. */
  lemma ThresholdIsTight(o: Options, stats: Stats, cursor: nat, start: real, v: Ip) returns (r: Run, c: seq<nat>)
    requires ValidOptions(o) && o.enabled && Passes(o.allowed, o.denied, v) && 0.0 <= start
    requires 2 <= o.floodViolations && o.floodWindow <= o.sourceTtl
    ensures r.o == o && r.start == start && Proper(r) && FewSources(o, r.es)
    ensures Burst(r, v, c) && |c| == Threshold(o.floodViolations) - 1
    ensures forall i :: 0 <= i < |r.es| ==> !Starts(r, i)
  {
    hide RecentIps, Entry, Triggers, Accept, After, Level, Plan, Passes, FewSources, Step, FloodPolicy, Ordered;
    var s, plan := Configured(o, stats, cursor, start), TwoWindows(o, start);
    TwoWindowsIsPlan(o, start);
    StartsCalm(o, stats, cursor, start, v);
    var es, all := Send(o, v, s, start, plan, o.globalBurst);
    r := Run(o, stats, cursor, start, es);
    c := if o.floodViolations == 2 then all else all[1..];
    SoloIsFew(o, v, es, start);
    OnTimeIsOrdered(es, all, plan, start);
    forall k | 0 <= k < |c| ensures c[k] < |es| && Violation(r, v, c[k]) {
      assert c[k] == if o.floodViolations == 2 then all[k] else all[k + 1];
    }
    forall i | 0 <= i < |es| ensures !Starts(r, i) {
      assert Unharmed(o, v, s, es, i);
    }
  }

  lemma OnTimeIsOrdered(es: seq<Event>, c: seq<nat>, plan: seq<Phase>, start: real)
    requires OnTime(es, c, plan) && plan != [] && 0.0 <= start <= plan[0].at
    ensures Ordered(start, es)
  {
  }

  lemma StartsCalm(o: Options, stats: Stats, cursor: nat, start: real, v: Ip)
    requires ValidOptions(o) && 0.0 <= start
    ensures var s := Configured(o, stats, cursor, start);
            Alone(o, v, s, start) && Entry(o, s, v, start).flood == CALM
            && 0.0 <= s.global.tokens && s.global.updated <= start && Tokens(o, s.global, start) <= o.globalBurst as real
  {
    hide Entry;
    EntryShape(o, Configured(o, stats, cursor, start), v, start);
  }
}
