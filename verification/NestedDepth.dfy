/** Write callbacks that poll, but never for a write that is still being executed: each level of nesting costs one slot
    of the fingerprint ring. */
module NestedDepth {
  import opened Cidr
  import opened TokenBucket
  import opened SourceTable
  import opened Admission
  import opened RateBounds
  import opened WriteOnce
  import opened NestedPoll

  /** The callbacks that have not returned, innermost last. */
  function Open(n: Nested): seq<Phase> {
    n.waiting + [n.srv.phase]
  }

  predicate SameWrite(p: Phase, q: Phase) {
    p.Running? && q.Running? && p.ip == q.ip && p.apdu == q.apdu
  }

  /** At most `depth` callbacks wait, and no write is being executed twice. */
  ghost predicate Tame(depth: nat, n: Nested) {
    && |n.waiting| <= depth
    && forall i, j :: 0 <= i < j < |Open(n)| ==> !SameWrite(Open(n)[i], Open(n)[j])
  }

  /** Every state of the run is tame. */
  ghost predicate TameRun(o: Options, capacity: nat, depth: nat, n: Nested, acts: seq<Act>)
    requires AllowedRun(o, capacity, n, acts)
    decreases acts
  {
    Tame(depth, n) && (acts == [] || TameRun(o, capacity, depth, DoNested(o, capacity, n, acts[0]), acts[1..]))
  }

  /** The server with `k` packets more in its queue, one for each waiting callback: both may still become
      executions. */
  function Padded(srv: Server, k: nat): (r: Server)
    ensures |r.queue| == |srv.queue| + k
  {
    srv.(queue := srv.queue + seq(k, _ => Pdu(0, Other, [])))
  }

  /** The write of callback `w` has not been executed within the window before it began. */
  ghost predicate Spaced(o: Options, log: seq<Execution>, w: Phase) {
    w.Running? ==>
      forall i :: 0 <= i < |log| && log[i].ip == w.ip && log[i].apdu == w.apdu ==> log[i].end + o.duplicateWindow <= w.start
  }

  ghost predicate NestedInv(o: Options, capacity: nat, depth: nat, cursor: nat, n: Nested) {
    && |n.srv.queue| <= capacity && Tame(depth, n)
    && Inv(o, capacity + depth, cursor, Padded(n.srv, |n.waiting|))
    && (n.waiting != [] ==> n.srv.phase.Running?)
    && (forall w :: w in n.waiting ==> w.Running? && w.start <= n.srv.now && Spaced(o, n.srv.log, w))
  }

  /** What leaves log, ring and callback alone and pays for what it adds keeps every invariant. */
  lemma MovesKeep(o: Options, capacity: nat, cursor: nat, srv: Server, end: Server)
    requires ValidOptions(o) && Inv(o, capacity, cursor, srv) && srv.now <= end.now
    requires end.log == srv.log && end.phase == srv.phase && |end.queue| <= capacity
    requires end.security.duplicates == srv.security.duplicates && end.security.cursor == srv.security.cursor
    requires |end.security.sources| == |srv.security.sources|
    requires Healthy(end.security.global, o.globalBurst as real, end.now)
    requires Load(o, end) <= Load(o, srv) + Flow(o.globalRate, end.now - srv.now)
    ensures Inv(o, capacity, cursor, end)
  {
    hide Load, Flow, Healthy, Budgeted;
    BudgetMoves(o, capacity, srv, end);
    SameRing(o, cursor, srv, end);
  }

  /** A callback that starts to wait, or goes on, is charged the same either way. */
  lemma PhaseMoves(o: Options, capacity: nat, cursor: nat, srv: Server, end: Server)
    requires ValidOptions(o) && Inv(o, capacity, cursor, srv) && end.now == srv.now
    requires end.log == srv.log && end.security == srv.security && |end.queue| + Busy(end) == |srv.queue| + Busy(srv)
    requires |end.queue| <= capacity && Spaced(o, end.log, end.phase) && (end.phase.Running? ==> end.phase.start <= end.now)
    ensures Inv(o, capacity, cursor, end)
  {
    hide Flow, Healthy, Budgeted, GlobalLevel;
    NoFlow(o.globalRate);
    BudgetMoves(o, capacity, srv, end);
    SameRing(o, cursor, srv, end);
  }

  lemma HandlePads(o: Options, srv: Server, k: nat, p: Pdu, check: real, body: Body)
    requires 0 < |srv.security.sources| && |srv.security.duplicates| == RING
    ensures Handle(o, Padded(srv, k), p, check, body) == Padded(Handle(o, srv, p, check, body), k)
  {
    hide IsDuplicate, ReportMalformed;
  }

  /** The packet a poll works on, and the server with it in hand. */
  function InHand(o: Options, srv: Server, a: Act): (r: (Server, Pdu, bool))
    requires a.Poll? && 0 < |srv.security.sources| && |srv.security.duplicates| == RING
    ensures |r.0.security.sources| == |srv.security.sources| && |r.0.security.duplicates| == RING
  {
    if srv.queue != [] then (srv.(queue := srv.queue[1..]), srv.queue[0], true)
    else
      var r := Accept(o, srv.security, a.pdu.ip, a.pdu.kind, a.at);
      (srv.(security := r.state, now := a.at), a.pdu, r.verdict == Accepted)
  }

  lemma PollIsHandle(o: Options, capacity: nat, srv: Server, a: Act)
    requires a.Poll? && Possible(srv, a) && 0 < |srv.security.sources| && |srv.security.duplicates| == RING
    ensures var (mid, p, ok) := InHand(o, srv, a);
            && Do(o, capacity, srv, a) == (if ok then Handle(o, mid, p, a.check, a.body) else mid.(now := a.check))
            && mid.log == srv.log && mid.phase == srv.phase
            && srv.now <= mid.now <= a.check && |mid.queue| <= |srv.queue|
            && mid.security.duplicates == srv.security.duplicates && mid.security.cursor == srv.security.cursor
  {
    hide Accept, IsDuplicate, ReportMalformed;
  }

  /** Taking a packet in hand has been paid for. */
  lemma HandPays(o: Options, srv: Server, k: nat, a: Act)
    requires ValidOptions(o) && o.enabled && a.Poll? && Possible(srv, a)
    requires 0 < |srv.security.sources| && |srv.security.duplicates| == RING
    requires Healthy(srv.security.global, o.globalBurst as real, srv.now)
    ensures var (mid, p, ok) := InHand(o, srv, a);
            && Healthy(mid.security.global, o.globalBurst as real, mid.now)
            && Load(o, Padded(mid, k)) + (if ok then 1.0 else 0.0)
               <= Load(o, Padded(srv, k)) + Flow(o.globalRate, mid.now - srv.now)
  {
    hide Accept, Flow, GlobalLevel, Healthy;
    NoFlow(o.globalRate);
    if srv.queue == [] {
      AcceptPays(o, Padded(srv, k), a.pdu, a.at);
    }
  }

  /** A poll that starts no callback, whether or not one is running. */
  lemma IdlePollKeeps(o: Options, capacity: nat, cursor: nat, srv: Server, k: nat, a: Act)
    requires ValidOptions(o) && o.enabled && a.Poll? && Possible(srv.(phase := Idle), a)
    requires Inv(o, capacity, cursor, Padded(srv, k)) && 0 < |srv.security.sources| && |srv.security.duplicates| == RING
    requires Do(o, capacity, srv.(phase := Idle), a).phase.Idle?
    ensures Inv(o, capacity, cursor, Padded(Do(o, capacity, srv.(phase := Idle), a).(phase := srv.phase), k))
  {
    hide Flow, GlobalLevel, Level, Healthy, Budgeted, Kept, Apart, InHand, Do, Handle, Possible, Passes;
    var idle := srv.(phase := Idle);
    var (mid, p, ok) := InHand(o, idle, a);
    var end := Do(o, capacity, idle, a).(phase := srv.phase);
    PollIsHandle(o, capacity, idle, a);
    HandPays(o, idle, k, a);
    LoadRises(o, Padded(mid, k), a.check);
    FlowAdds(o.globalRate, srv.now, mid.now, a.check);
    if ok {
      HandleIdle(o, mid, p, a.check, a.body);
    }
    MovesKeep(o, capacity, cursor, Padded(srv, k), Padded(end, k));
  }

  /** A packet that starts no callback touches neither bucket nor ring nor queue. */
  lemma HandleIdle(o: Options, srv: Server, p: Pdu, check: real, body: Body)
    requires 0 < |srv.security.sources| && |srv.security.duplicates| == RING
    ensures var r := Handle(o, srv, p, check, body);
            && r.security.global == srv.security.global && r.security.duplicates == srv.security.duplicates
            && r.security.cursor == srv.security.cursor && r.queue == srv.queue && r.log == srv.log
  {
    hide IsDuplicate, ReportMalformed;
  }

  /** A poll of a server without a running callback. */
  lemma PaddedPollKeeps(o: Options, capacity: nat, cursor: nat, srv: Server, k: nat, a: Act)
    requires ValidOptions(o) && o.enabled && RingSuffices(o, capacity) && a.Poll? && Possible(srv, a)
    requires Inv(o, capacity, cursor, Padded(srv, k)) && 0 < |srv.security.sources| && |srv.security.duplicates| == RING
    ensures Inv(o, capacity, cursor, Padded(Do(o, capacity, srv, a), k))
  {
    hide Flow, GlobalLevel, Level, Healthy, Budgeted, Kept, Handle, RingSuffices, InHand;
    var (mid, p, ok) := InHand(o, srv, a);
    PollIsHandle(o, capacity, srv, a);
    HandPays(o, srv, k, a);
    SameRing(o, cursor, Padded(srv, k), Padded(mid, k));
    if ok {
      HandleKeeps(o, capacity, cursor, Padded(srv, k), Padded(mid, k), p, a.check, a.body);
      HandlePads(o, mid, k, p, a.check, a.body);
    } else {
      IdlePollKeeps(o, capacity, cursor, srv, k, a);
    }
  }

  lemma FinishPads(o: Options, capacity: nat, srv: Server, k: nat, at: real, ok: bool)
    requires Possible(srv, Finish(at, ok)) && 0 < |srv.security.sources| && |srv.security.duplicates| == RING
    ensures Do(o, capacity, Padded(srv, k), Finish(at, ok)) == Padded(Do(o, capacity, srv, Finish(at, ok)), k)
  {
    hide RecordWrite;
  }

  lemma Sized(o: Options, capacity: nat, cursor: nat, srv: Server)
    requires ValidOptions(o) && Inv(o, capacity, cursor, srv)
    ensures 0 < |srv.security.sources| && |srv.security.duplicates| == RING
    ensures Spaced(o, srv.log, srv.phase) && (srv.phase.Running? ==> srv.phase.start <= srv.now)
    ensures Healthy(srv.security.global, o.globalBurst as real, srv.now)
  {
  }

  /** Every act that leaves the nesting tame keeps every invariant. */
  lemma NestedActKeeps(o: Options, capacity: nat, depth: nat, cursor: nat, n: Nested, a: Act)
    requires ValidOptions(o) && o.enabled && RingSuffices(o, capacity + depth)
    requires NestedInv(o, capacity, depth, cursor, n) && Allowed(n, a)
    requires Tame(depth, DoNested(o, capacity, n, a))
    ensures NestedInv(o, capacity, depth, cursor, DoNested(o, capacity, n, a))
  {
    if a.Poll? {
      NestedPollKeeps(o, capacity, depth, cursor, n, a);
    } else if a.Finish? {
      NestedFinishKeeps(o, capacity, depth, cursor, n, a.at, a.ok);
    } else {
      NestedQuietKeeps(o, capacity, depth, cursor, n, a);
    }
  }

  lemma NestedQuietKeeps(o: Options, capacity: nat, depth: nat, cursor: nat, n: Nested, a: Act)
    requires ValidOptions(o) && o.enabled && NestedInv(o, capacity, depth, cursor, n) && Allowed(n, a)
    requires !a.Poll? && !a.Finish?
    ensures NestedInv(o, capacity, depth, cursor, DoNested(o, capacity, n, a))
  {
    hide Inv, Flow, GlobalLevel, Level, Healthy, Accept, ReportMalformed, Swept, Spaced;
    var k, srv := |n.waiting|, n.srv;
    var end := Do(o, capacity, srv, a);
    assert Open(DoNested(o, capacity, n, a)) == Open(n);
    Sized(o, capacity + depth, cursor, Padded(srv, k));
    match a
    case Arrive(at, p) =>
      AcceptPays(o, Padded(srv, k), p, at);
      MovesKeep(o, capacity + depth, cursor, Padded(srv, k), Padded(end, k));
    case NoteBad(at, ip) =>
      QuietKeeps(o, capacity + depth, cursor, Padded(srv, k), ReportMalformed(o, srv.security, ip, at), at);
    case Read(at) =>
      QuietKeeps(o, capacity + depth, cursor, Padded(srv, k), Sweep(o, srv.security, at), at);
  }

  lemma NestedPollKeeps(o: Options, capacity: nat, depth: nat, cursor: nat, n: Nested, a: Act)
    requires ValidOptions(o) && o.enabled && RingSuffices(o, capacity + depth)
    requires NestedInv(o, capacity, depth, cursor, n) && Allowed(n, a) && a.Poll?
    requires Tame(depth, DoNested(o, capacity, n, a))
    ensures NestedInv(o, capacity, depth, cursor, DoNested(o, capacity, n, a))
  {
    hide Inv, Flow, GlobalLevel, Level, Healthy, Do, Spaced, RingSuffices, Tame;
    var k, srv := |n.waiting|, n.srv;
    var idle := srv.(phase := Idle);
    Sized(o, capacity + depth, cursor, Padded(srv, k));
    PollQuiet(o, capacity, idle, a);
    var r := Do(o, capacity, idle, a);
    PollIgnoresCapacity(o, capacity, capacity + depth, idle, a);
    if srv.phase.Idle? {
      assert idle == srv;
      PaddedPollKeeps(o, capacity + depth, cursor, srv, 0, a);
    } else if r.phase.Idle? {
      IdlePollKeeps(o, capacity + depth, cursor, srv, k, a);
    } else {
      TameDepth(depth, DoNested(o, capacity, n, a));
      IdleSpaced(o, srv.log);
      PhaseMoves(o, capacity + depth, cursor, Padded(srv, k), Padded(idle, k + 1));
      PaddedPollKeeps(o, capacity + depth, cursor, idle, k + 1, a);
    }
  }

  lemma TameDepth(depth: nat, n: Nested)
    requires Tame(depth, n)
    ensures |n.waiting| <= depth
  {
  }

  lemma IdleSpaced(o: Options, log: seq<Execution>)
    ensures Spaced(o, log, Idle)
  {
  }

  lemma PollQuiet(o: Options, capacity: nat, srv: Server, a: Act)
    requires a.Poll? && Possible(srv, a) && 0 < |srv.security.sources| && |srv.security.duplicates| == RING
    ensures var r := Do(o, capacity, srv, a);
            r.log == srv.log && |r.queue| <= |srv.queue| && srv.now <= r.now
  {
    hide Accept, IsDuplicate, ReportMalformed;
  }

  lemma PollIgnoresCapacity(o: Options, capacity: nat, other: nat, srv: Server, a: Act)
    requires a.Poll? && Possible(srv, a) && 0 < |srv.security.sources| && |srv.security.duplicates| == RING
    ensures Do(o, capacity, srv, a) == Do(o, other, srv, a)
  {
    hide Accept, Handle;
  }

  lemma FinishLog(o: Options, capacity: nat, srv: Server, at: real, ok: bool)
    requires Possible(srv, Finish(at, ok)) && 0 < |srv.security.sources| && |srv.security.duplicates| == RING
    ensures var end := Do(o, capacity, srv, Finish(at, ok));
            && end.phase == Idle && end.queue == srv.queue && srv.now <= end.now
            && (end.log == srv.log
                || end.log == srv.log + [Execution(srv.phase.ip, srv.phase.apdu, srv.phase.start, at)])
  {
    hide RecordWrite;
  }

  lemma SpacedMore(o: Options, log: seq<Execution>, end: seq<Execution>, done: Phase, at: real, w: Phase)
    requires Spaced(o, log, w) && done.Running? && !SameWrite(w, done)
    requires end == log || end == log + [Execution(done.ip, done.apdu, done.start, at)]
    ensures Spaced(o, end, w)
  {
  }

  lemma NestedFinishKeeps(o: Options, capacity: nat, depth: nat, cursor: nat, n: Nested, at: real, ok: bool)
    requires ValidOptions(o) && o.enabled && NestedInv(o, capacity, depth, cursor, n) && Allowed(n, Finish(at, ok))
    requires Tame(depth, DoNested(o, capacity, n, Finish(at, ok)))
    ensures NestedInv(o, capacity, depth, cursor, DoNested(o, capacity, n, Finish(at, ok)))
  {
    hide Inv, Flow, GlobalLevel, Level, Healthy, Spaced, Do;
    var k, srv, a := |n.waiting|, n.srv, Finish(at, ok);
    var end := Do(o, capacity, srv, a);
    FinishLog(o, capacity, srv, at, ok);
    FinishPads(o, capacity, srv, k, at, ok);
    FinishIgnoresCapacity(o, capacity, capacity + depth, Padded(srv, k), a);
    FinishKeeps(o, capacity + depth, cursor, Padded(srv, k), at, ok);
    forall w | w in n.waiting ensures Spaced(o, end.log, w) {
      var i :| 0 <= i < k && n.waiting[i] == w;
      assert Open(n)[i] == w && Open(n)[k] == srv.phase;
      SpacedMore(o, srv.log, end.log, srv.phase, at, w);
    }
    if k > 0 {
      var w := n.waiting[k - 1];
      assert w in n.waiting;
      Sized(o, capacity + depth, cursor, Padded(end, k));
      PhaseMoves(o, capacity + depth, cursor, Padded(end, k), Padded(end.(phase := w), k - 1));
      assert forall v :: v in n.waiting[..k - 1] ==> v in n.waiting;
    }
  }

  lemma FinishIgnoresCapacity(o: Options, capacity: nat, other: nat, srv: Server, a: Act)
    requires a.Finish? && Possible(srv, a) && 0 < |srv.security.sources| && |srv.security.duplicates| == RING
    ensures Do(o, capacity, srv, a) == Do(o, other, srv, a)
  {
    hide RecordWrite;
  }

  lemma {:induction false} NestedRunKeeps(o: Options, capacity: nat, depth: nat, cursor: nat, n: Nested, acts: seq<Act>)
    requires ValidOptions(o) && o.enabled && RingSuffices(o, capacity + depth)
    requires NestedInv(o, capacity, depth, cursor, n)
    requires AllowedRun(o, capacity, n, acts) && TameRun(o, capacity, depth, n, acts)
    ensures NestedInv(o, capacity, depth, cursor, PlayNested(o, capacity, n, acts))
    decreases acts
  {
    hide NestedInv, DoNested, RingSuffices, Tame, Allowed;
    if acts != [] {
      var next := DoNested(o, capacity, n, acts[0]);
      assert TameRun(o, capacity, depth, next, acts[1..]);
      NestedActKeeps(o, capacity, depth, cursor, n, acts[0]);
      NestedRunKeeps(o, capacity, depth, cursor, next, acts[1..]);
    }
  }

  lemma NestedStarts(o: Options, capacity: nat, depth: nat, stats: Stats, cursor: nat, start: real)
    requires ValidOptions(o) && cursor < CURSOR_LIMIT
    ensures NestedInv(o, capacity, depth, cursor, Nested(Started(o, stats, cursor, start), []))
  {
    StartInv(o, capacity + depth, stats, cursor, start);
    var srv := Started(o, stats, cursor, start);
    assert Padded(srv, 0) == srv;
  }

  /** Main theorem: callbacks may poll, as long as at most `depth` of them wait at a time and none polls up a write that is
      being executed; then writes run at most once per window if the ring suffices for `depth` queued packets more. */
  lemma TameWritesRunOnce(o: Options, capacity: nat, depth: nat, stats: Stats, cursor: nat, start: real, acts: seq<Act>)
    requires ValidOptions(o) && o.enabled && RingSuffices(o, capacity + depth) && cursor < CURSOR_LIMIT
    requires AllowedRun(o, capacity, Nested(Started(o, stats, cursor, start), []), acts)
    requires TameRun(o, capacity, depth, Nested(Started(o, stats, cursor, start), []), acts)
    ensures Apart(o, PlayNested(o, capacity, Nested(Started(o, stats, cursor, start), []), acts).srv)
  {
    hide Started, RingSuffices, AllowedRun, PlayNested, TameRun;
    NestedStarts(o, capacity, depth, stats, cursor, start);
    NestedRunKeeps(o, capacity, depth, cursor, Nested(Started(o, stats, cursor, start), []), acts);
    PaddedApart(o, PlayNested(o, capacity, Nested(Started(o, stats, cursor, start), []), acts), capacity, depth, cursor);
  }

  lemma PaddedApart(o: Options, n: Nested, capacity: nat, depth: nat, cursor: nat)
    requires NestedInv(o, capacity, depth, cursor, n)
    ensures Apart(o, n.srv)
  {
  }
}
