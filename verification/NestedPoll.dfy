/** Write callbacks that poll the server themselves: then writes can be executed twice, however large the ring is. */
module NestedPoll {
  import opened Cidr
  import opened TokenBucket
  import opened Admission
  import opened RateBounds
  import opened WriteOnce
  import opened WriteOnceTight

  /** A server with the write callbacks that wait for a nested poll to return, innermost last. */
  datatype Nested = Nested(srv: Server, waiting: seq<Phase>)

  /** As `Possible`, but a callback may poll. */
  predicate Allowed(n: Nested, a: Act) {
    && n.srv.now <= a.at && (a.Arrive? || a.Poll? ==> Genuine(a.pdu)) && (a.Poll? ==> a.at <= a.check) && (a.Finish? ==> n.srv.phase.Running?)
    && 0 < |n.srv.security.sources| && |n.srv.security.duplicates| == RING
  }

  function DoNested(o: Options, capacity: nat, n: Nested, a: Act): Nested
    requires Allowed(n, a)
  {
    if a.Poll? && n.srv.phase.Running? then
      var r := Do(o, capacity, n.srv.(phase := Idle), a);
      if r.phase.Idle? then n.(srv := r.(phase := n.srv.phase)) else Nested(r, n.waiting + [n.srv.phase])
    else
      var r := Do(o, capacity, n.srv, a);
      if a.Finish? && n.waiting != [] then Nested(r.(phase := n.waiting[|n.waiting| - 1]), n.waiting[..|n.waiting| - 1])
      else n.(srv := r)
  }

  ghost predicate AllowedRun(o: Options, capacity: nat, n: Nested, acts: seq<Act>)
    decreases acts
  {
    acts == [] || (Allowed(n, acts[0]) && AllowedRun(o, capacity, DoNested(o, capacity, n, acts[0]), acts[1..]))
  }

  ghost function PlayNested(o: Options, capacity: nat, n: Nested, acts: seq<Act>): Nested
    requires AllowedRun(o, capacity, n, acts)
    decreases acts
  {
    if acts == [] then n else PlayNested(o, capacity, DoNested(o, capacity, n, acts[0]), acts[1..])
  }

  /** No callback of the run polls. */
  ghost predicate CallbacksDoNotPoll(o: Options, capacity: nat, n: Nested, acts: seq<Act>)
    requires AllowedRun(o, capacity, n, acts)
    decreases acts
  {
    acts == [] ||
    (!(acts[0].Poll? && n.srv.phase.Running?)
     && CallbacksDoNotPoll(o, capacity, DoNested(o, capacity, n, acts[0]), acts[1..]))
  }

  /** Without nested polls the two machines are the same. */
  lemma {:induction false} UnnestedIsPlain(o: Options, capacity: nat, srv: Server, acts: seq<Act>)
    requires AllowedRun(o, capacity, Nested(srv, []), acts) && CallbacksDoNotPoll(o, capacity, Nested(srv, []), acts)
    ensures PossibleRun(o, capacity, srv, acts)
    ensures PlayNested(o, capacity, Nested(srv, []), acts) == Nested(Play(o, capacity, srv, acts), [])
    decreases acts
  {
    hide Do;
    if acts != [] {
      UnnestedIsPlain(o, capacity, Do(o, capacity, srv, acts[0]), acts[1..]);
    }
  }

  /** If callbacks do not poll and the ring suffices, writes run at most once per window. */
  lemma UnnestedWritesRunOnce(o: Options, capacity: nat, stats: Stats, cursor: nat, start: real, acts: seq<Act>)
    requires ValidOptions(o) && o.enabled && RingSuffices(o, capacity) && cursor < CURSOR_LIMIT
    requires AllowedRun(o, capacity, Nested(Started(o, stats, cursor, start), []), acts)
    requires CallbacksDoNotPoll(o, capacity, Nested(Started(o, stats, cursor, start), []), acts)
    ensures Apart(o, PlayNested(o, capacity, Nested(Started(o, stats, cursor, start), []), acts).srv)
  {
    hide Apart, Started, RingSuffices;
    UnnestedIsPlain(o, capacity, Started(o, stats, cursor, start), acts);
    WritesRunOncePerWindow(o, capacity, stats, cursor, start, acts);
  }

  /** A write that the network lists let through. */
  predicate MayWrite(o: Options, w: Pdu) {
    o.enabled && w.kind == Write && Genuine(w) && Passes(o.allowed, o.denied, w.ip)
  }

  /** A write comes in twice: the callback for the first polls the second before it returns. */
  function Reentry(o: Options, start: real, w: Pdu): seq<Act>
    requires ValidOptions(o)
  {
    var again := start + Recovery(o);
    [Poll(start, w, start, Executable), Poll(again, w, again, Executable), Finish(again, true),
     Finish(again, true)]
  }

  /** Whether or not the ring suffices, a callback that polls lets the same write be executed twice at once. */
  lemma NestedPollRepeats(o: Options, capacity: nat, stats: Stats, cursor: nat, start: real, w: Pdu)
    requires ValidOptions(o) && MayWrite(o, w) && cursor < CURSOR_LIMIT && 0.0 <= start
    ensures var n, acts, again := Nested(Started(o, stats, cursor, start), []), Reentry(o, start, w), start + Recovery(o);
            AllowedRun(o, capacity, n, acts)
            && PlayNested(o, capacity, n, acts).srv.log
               == [Execution(w.ip, w.apdu, again, again), Execution(w.ip, w.apdu, start, again)]
            && !Apart(o, PlayNested(o, capacity, n, acts).srv)
  {
    hide Going, Level, Do, GlobalLevel, Apart, AllowedRun, PlayNested, Passes, Genuine, Recovery, MayRepeat, Tidy;
    var ws := [w];
    var srv, acts, again := Started(o, stats, cursor, start), Reentry(o, start, w), start + Recovery(o);
    StartGoes(o, ws, stats, cursor, start);
    GoingParts(o, ws, cursor, srv);
    SocketGoes(o, ws, capacity, cursor, srv, start);
    var one := Do(o, capacity, srv, acts[0]);
    GoingParts(o, ws, cursor, one);
    GoingLine(o, ws, cursor, one);
    Refills(o, one.security.global, one.now);
    SecondIsTaken(o, ws, capacity, cursor, one);
    var two := Do(o, capacity, one.(phase := Idle), acts[1]);
    var three := Do(o, capacity, two, acts[2]).(phase := one.phase);
    Recorded(o, capacity, two, again);
    Recorded(o, capacity, three, again);
    var n := Nested(srv, []);
    var n1, n2, n3 := Nested(one, []), Nested(two, [one.phase]), Nested(three, []);
    var n4 := Nested(Do(o, capacity, three, acts[3]), []);
    PhaseStart(o, capacity, srv, start, w);
    FourActs(o, capacity, n, acts, n1, n2, n3, n4);
    TwiceAtOnce(o, n4.srv, w, start, again);
  }

  lemma GoingLine(o: Options, ws: seq<Pdu>, cursor: nat, srv: Server)
    requires Going(o, ws, cursor, srv)
    ensures InLine(ws, srv)
  {
  }

  lemma PhaseStart(o: Options, capacity: nat, srv: Server, at: real, p: Pdu)
    requires Possible(srv, Poll(at, p, at, Executable)) && 0 < |srv.security.sources| && |srv.security.duplicates| == RING
    requires srv.queue == [] && srv.phase.Idle?
    ensures var end := Do(o, capacity, srv, Poll(at, p, at, Executable));
            end.now == at && (end.phase.Running? ==> end.phase.start == at)
  {
    hide Accept, IsDuplicate;
  }

  lemma FourActs(o: Options, capacity: nat, n: Nested, acts: seq<Act>, n1: Nested, n2: Nested, n3: Nested, n4: Nested)
    requires |acts| == 4
    requires Allowed(n, acts[0]) && DoNested(o, capacity, n, acts[0]) == n1
    requires Allowed(n1, acts[1]) && DoNested(o, capacity, n1, acts[1]) == n2
    requires Allowed(n2, acts[2]) && DoNested(o, capacity, n2, acts[2]) == n3
    requires Allowed(n3, acts[3]) && DoNested(o, capacity, n3, acts[3]) == n4
    ensures AllowedRun(o, capacity, n, acts) && PlayNested(o, capacity, n, acts) == n4
  {
    hide DoNested, Allowed;
    assert acts[1..][1..] == acts[2..] && acts[2..][1..] == acts[3..] && acts[3..][1..] == [];
    assert AllowedRun(o, capacity, n4, []);
    assert AllowedRun(o, capacity, n3, acts[3..]) && PlayNested(o, capacity, n3, acts[3..]) == n4;
    assert AllowedRun(o, capacity, n2, acts[2..]) && PlayNested(o, capacity, n2, acts[2..]) == n4;
    assert AllowedRun(o, capacity, n1, acts[1..]) && PlayNested(o, capacity, n1, acts[1..]) == n4;
  }

  lemma TwiceAtOnce(o: Options, srv: Server, w: Pdu, start: real, again: real)
    requires ValidOptions(o) && start < again
    requires srv.log == [Execution(w.ip, w.apdu, again, again), Execution(w.ip, w.apdu, start, again)]
    ensures !Apart(o, srv)
  {
    assert srv.log[0].end + o.duplicateWindow > srv.log[1].start;
  }

  /** While the first execution has not been recorded, the same write is no duplicate. */
  lemma SecondIsTaken(o: Options, ws: seq<Pdu>, capacity: nat, cursor: nat, srv: Server)
    requires ValidOptions(o) && Writers(o, ws) && Going(o, ws, cursor, srv) && srv.queue == [] && srv.log == []
    requires 1.0 <= GlobalLevel(o, srv.security.global, srv.now + Recovery(o)) && 0.0 < Recovery(o)
    ensures |srv.security.sources| > 0 && |srv.security.duplicates| == RING
    ensures var at := srv.now + Recovery(o);
            var end := Do(o, capacity, srv.(phase := Idle), Poll(at, ws[0], at, Executable));
            end.phase == Running(ws[0].ip, ws[0].apdu, at) && end.log == [] && end.queue == [] && end.now == at
  {
    hide Level, HashWrite, Tidy, Accept, GlobalLevel, MayRepeat, Passes;
    var at := srv.now + Recovery(o);
    TidyLater(o, ws, srv.security.sources, Next(srv), srv.now, at);
    Recovers(o, ws, srv.security.sources, Next(srv), srv.now, ws[0].ip);
    AgainPasses(o, ws, srv.security, Next(srv), at);
  }

  lemma Recorded(o: Options, capacity: nat, srv: Server, at: real)
    requires 0 < |srv.security.sources| && |srv.security.duplicates| == RING && srv.phase.Running? && srv.now <= at
    ensures var end := Do(o, capacity, srv, Finish(at, true));
            && end.log == srv.log + [Execution(srv.phase.ip, srv.phase.apdu, srv.phase.start, at)]
            && end.phase == Idle && end.queue == srv.queue && end.now == at
  {
    hide RecordWrite;
  }

  /** Main theorem: given a ring that suffices and a source that the network lists let through, writes run at most once
      per window in every run, if and only if callbacks do not poll. `polls` tells whether they may. */
  lemma OnceIffCallbacksDoNotPoll(o: Options, capacity: nat, stats: Stats, cursor: nat, start: real, w: Pdu, polls: bool)
    requires ValidOptions(o) && MayWrite(o, w) && cursor < CURSOR_LIMIT && 0.0 <= start
    requires RingSuffices(o, capacity)
    ensures !polls <==>
            forall acts :: AllowedRun(o, capacity, Nested(Started(o, stats, cursor, start), []), acts)
                           && (polls || CallbacksDoNotPoll(o, capacity, Nested(Started(o, stats, cursor, start), []), acts))
                           ==> Apart(o, PlayNested(o, capacity, Nested(Started(o, stats, cursor, start), []), acts).srv)
  {
    hide Started, AllowedRun, PlayNested, CallbacksDoNotPoll, Apart, RingSuffices, Passes, Genuine;
    if polls {
      NestedPollRepeats(o, capacity, stats, cursor, start, w);
    } else {
      forall acts | AllowedRun(o, capacity, Nested(Started(o, stats, cursor, start), []), acts)
                    && CallbacksDoNotPoll(o, capacity, Nested(Started(o, stats, cursor, start), []), acts)
        ensures Apart(o, PlayNested(o, capacity, Nested(Started(o, stats, cursor, start), []), acts).srv)
      {
        UnnestedWritesRunOnce(o, capacity, stats, cursor, start, acts);
      }
    }
  }
}
