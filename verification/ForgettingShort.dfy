/** What happens when entries are forgotten sooner than `Forgetting` asks for: a block is cut short. */
module ForgettingShort {
  import opened Cidr
  import opened TokenBucket
  import opened SourceTable
  import opened Admission
  import opened AdmissionRuns
  import opened Forgetting
  import opened SourceTableRuns
  import opened BlockLength

  /** One source sends a flurry, and a malformed packet after its entry has expired but before its block has ended. */
  function Malformer(o: Options, v: Ip, start: real): (es: seq<Event>)
    ensures |es| == Flurry(o) + 1
  {
    Comeback(o, v, start, start + (o.sourceTtl + o.blockDuration) / 2.0, Malformed)
  }

  /** The source is blocked, or each packet so far has cost a global token or counted as a violation. */
  ghost predicate IdealNearing(o: Options, v: Ip, start: real, w: Ideal, n: nat) {
    var flood := Recall(o, w.known, v, start).flood;
    && Recall(o, w.known, v, start).ip == v
    && w.global.updated == start && 0.0 <= w.global.tokens <= o.globalBurst as real
    && (flood.blockedUntil == start + o.blockDuration
        || (flood.blockedUntil <= start && flood.violations < o.floodViolations
            && (0 < flood.violations ==> flood.started == start)
            && w.global.tokens + n as real <= (o.globalBurst + flood.violations) as real))
  }

  lemma FlurryStep(o: Options, v: Ip, start: real, w: Ideal, n: nat)
    requires ValidOptions(o) && o.enabled && Passes(o.allowed, o.denied, v) && 0.0 <= start
    requires IdealNearing(o, v, start, w, n)
    ensures IdealNearing(o, v, start, IdealStep(o, w, Packet(start, v, Other)), n + 1)
  {
    var x := Recall(o, w.known, v, start);
    hide Level;
    LevelNow(w.global, o.globalRate, o.globalBurst as real, start);
    LevelIs(x.packets, o.perSourceRate, o.perSourceBurst as real, start);
  }

  lemma {:induction false} FlurryBlocks(o: Options, v: Ip, start: real, n: nat)
    requires ValidOptions(o) && o.enabled && Passes(o.allowed, o.denied, v) && 0.0 <= start
    requires n <= Flurry(o)
    ensures IdealNearing(o, v, start, IdealAfter(o, IdealStart(o, start), Malformer(o, v, start), n), n)
  {
    hide IdealNearing, IdealStep;
    if n > 0 {
      FlurryBlocks(o, v, start, n - 1);
      FlurryStep(o, v, start, IdealAfter(o, IdealStart(o, start), Malformer(o, v, start), n - 1), n - 1);
    } else {
      NothingSent(o, v, start);
    }
  }

  lemma NothingSent(o: Options, v: Ip, start: real)
    requires ValidOptions(o) && 0.0 <= start
    ensures IdealNearing(o, v, start, IdealStart(o, start), 0)
  {
  }

  lemma MalformerIsAlone(o: Options, v: Ip, start: real)
    requires ValidOptions(o) && 0.0 <= start
    ensures Ordered(start, Malformer(o, v, start)) && FewSources(o, Malformer(o, v, start))
  {
    var es := Malformer(o, v, start);
    forall n | 0 <= n < |es| ensures |RecentIps(o, es, n)| <= o.maxSources {
      Subset(RecentIps(o, es, n), {v});
    }
  }

  /** If entries expire before blocks do, some run of a single source is judged differently by the table that never
      forgets: it still drops the last packet as blocked, while the real one has forgotten the block and examines the
      packet. */
  lemma ShortMemoryForgetsBlocks(o: Options, stats: Stats, cursor: nat, start: real, v: Ip)
    requires ValidOptions(o) && o.enabled && Passes(o.allowed, o.denied, v) && 0.0 <= start
    requires o.sourceTtl < o.blockDuration
    ensures var es, n := Malformer(o, v, start), Flurry(o);
            && Ordered(start, es) && FewSources(o, es)
            && IdealVerdict(o, IdealStart(o, start), es, n) == BlockedDrop
            && VerdictAt(o, Configured(o, stats, cursor, start), es, n) == MalformedDrop
  {
    hide Step, IdealStep, GetSource, UniqueIps;
    var es, n := Malformer(o, v, start), Flurry(o);
    MalformerIsAlone(o, v, start);
    FlurryBlocks(o, v, start, n);
    var s := After(o, Configured(o, stats, cursor, start), es, n);
    RunStaysInStep(o, stats, cursor, start, es, n);
    NewSource(s.sources, v, Sizes(o), o.sourceTtl, es[n].now);
  }
}
