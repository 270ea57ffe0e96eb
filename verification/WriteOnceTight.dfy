/** The ring condition of `WriteOnce` is exact: where it fails, a run exists that executes one write twice within
    its duplicate window. */
module WriteOnceTight {
  import opened Cidr
  import opened Fnv
  import opened TokenBucket
  import opened FloodBlocker
  import opened SourceTable
  import opened Admission
  import opened RateBounds
  import opened WriteOnce
  import PollServer

  /** Writes of different sources, at least one, that the network lists let through. */
  ghost predicate Writers(o: Options, ws: seq<Pdu>) {
    && o.enabled && ws != []
    && (forall i, j :: 0 <= i < j < |ws| ==> ws[i].ip != ws[j].ip)
    && (forall i :: 0 <= i < |ws| ==> ws[i].kind == Write && Genuine(ws[i]) && Passes(o.allowed, o.denied, ws[i].ip))
  }

  ghost predicate WroteBefore(ws: seq<Pdu>, n: nat, ip: Ip)
    requires n <= |ws|
  {
    exists i :: 0 <= i < n && ws[i].ip == ip
  }

  /** An entry that no violation has touched. */
  ghost predicate Calm(o: Options, x: Source, now: real) {
    && x.flood == CALM
    && Healthy(x.packets, o.perSourceBurst as real, now) && Healthy(x.writes, o.writeBurst as real, now)
  }

  /** An entry with a token to spare for another write at `now`. */
  ghost predicate Rested(o: Options, x: Source, now: real) {
    && Level(x.packets, o.perSourceRate, o.perSourceBurst as real, now) >= 1.0
    && Level(x.writes, o.writeRate, o.writeBurst as real, now) >= 1.0
  }

  /** Only the first `next` writers have been seen, and none of them has violated a limit. */
  ghost predicate Tidy(o: Options, ws: seq<Pdu>, t: seq<Source>, next: nat, now: real) {
    next <= |ws| && forall i :: 0 <= i < |t| && t[i].used ==> WroteBefore(ws, next, t[i].ip) && Calm(o, t[i], now)
  }

  /** The first writer, if the table holds it, may write again. */
  ghost predicate MayRepeat(o: Options, t: seq<Source>, ip: Ip, now: real) {
    forall i :: 0 <= i < |t| && Holds(t[i], ip) ==> Rested(o, t[i], now)
  }

  lemma LookupShape(t: seq<Source>, ip: Ip, bursts: Bursts, ttl: real, now: real)
    requires 0 < |t|
    ensures var r := GetSource(t, ip, bursts, ttl, now);
            && (forall i :: 0 <= i < |t| && i != r.index ==> r.table[i] == t[i] || !r.table[i].used)
            && (r.table[r.index] == Fresh(ip, bursts, now)
                || exists k :: 0 <= k < |t| && Holds(t[k], ip) && r.table[r.index] == t[k].(lastSeen := now))
  {
  }

  /** A write passes every limit if its entry has a token to spare. */
  lemma WritePasses(o: Options, g: Bucket, x: Source, now: real)
    requires ValidOptions(o) && Passes(o.allowed, o.denied, x.ip) && 0.0 <= now
    requires Calm(o, x, now) && Rested(o, x, now) && 1.0 <= GlobalLevel(o, g, now)
    ensures var d := Decide(o, g, x, Write, now);
            && d.verdict == Accepted && d.global == Take(g, o.globalRate, o.globalBurst as real, now).bucket
            && d.source.used == x.used && d.source.ip == x.ip && Calm(o, d.source, now)
  {
    hide Level;
    TakeSpends(x.packets, o.perSourceRate, o.perSourceBurst as real, now, now);
    TakeSpends(x.writes, o.writeRate, o.writeBurst as real, now, now);
  }

  lemma FreshIsRested(o: Options, ip: Ip, now: real)
    requires ValidOptions(o)
    ensures Rested(o, Fresh(ip, Sizes(o), now), now) && Calm(o, Fresh(ip, Sizes(o), now), now)
  {
    hide Level;
    FullBucket(o.perSourceRate, o.perSourceBurst as real, now);
    FullBucket(o.writeRate, o.writeBurst as real, now);
  }

  lemma WroteMore(ws: seq<Pdu>, n: nat)
    requires n < |ws|
    ensures forall ip: Ip :: WroteBefore(ws, n + 1, ip) <==> WroteBefore(ws, n, ip) || ip == ws[n].ip
  {
    assert WroteBefore(ws, n + 1, ws[n].ip);
    forall ip: Ip | WroteBefore(ws, n, ip) ensures WroteBefore(ws, n + 1, ip) {
      var i :| 0 <= i < n && ws[i].ip == ip;
    }
  }

  /** The write of the next writer is accepted. */
  lemma NewPasses(o: Options, ws: seq<Pdu>, s: State, next: nat, now: real)
    requires ValidOptions(o) && Writers(o, ws) && 0.0 <= now && 0 < |s.sources| && next < |ws|
    requires Tidy(o, ws, s.sources, next, now) && 1.0 <= GlobalLevel(o, s.global, now)
    ensures var r := Accept(o, s, ws[next].ip, Write, now);
            && r.verdict == Accepted
            && r.state.global == Take(s.global, o.globalRate, o.globalBurst as real, now).bucket
            && Tidy(o, ws, r.state.sources, next + 1, now)
            && (0 < next && MayRepeat(o, s.sources, ws[0].ip, now) ==> MayRepeat(o, r.state.sources, ws[0].ip, now))
  {
    hide GetSource, Decide, Take, GlobalLevel, Rested, Calm, Passes;
    var ip := ws[next].ip;
    var found := GetSource(s.sources, ip, Sizes(o), o.sourceTtl, now);
    LookupShape(s.sources, ip, Sizes(o), o.sourceTtl, now);
    FreshIsRested(o, ip, now);
    WritePasses(o, s.global, found.table[found.index], now);
    WroteMore(ws, next);
  }

  /** A second write of the first writer is accepted. */
  lemma AgainPasses(o: Options, ws: seq<Pdu>, s: State, next: nat, now: real)
    requires ValidOptions(o) && Writers(o, ws) && 0.0 <= now && 0 < |s.sources|
    requires Tidy(o, ws, s.sources, next, now) && MayRepeat(o, s.sources, ws[0].ip, now)
    requires 1.0 <= GlobalLevel(o, s.global, now)
    ensures Accept(o, s, ws[0].ip, Write, now).verdict == Accepted
  {
    hide GetSource, Decide, Take, GlobalLevel, Level, Passes;
    var ip := ws[0].ip;
    var found := GetSource(s.sources, ip, Sizes(o), o.sourceTtl, now);
    LookupShape(s.sources, ip, Sizes(o), o.sourceTtl, now);
    FreshIsRested(o, ip, now);
    WritePasses(o, s.global, found.table[found.index], now);
  }

  /** The number of the writer whose turn it is. */
  function Next(srv: Server): nat {
    |srv.log| + Busy(srv) + |srv.queue|
  }

  /** The writers write once each: those executed are in the log in their order, the one being executed and those queued
      follow. */
  ghost predicate InLine(ws: seq<Pdu>, srv: Server) {
    && Next(srv) <= |ws|
    && (forall i :: 0 <= i < |srv.log| ==> srv.log[i].ip == ws[i].ip && srv.log[i].apdu == ws[i].apdu)
    && (srv.phase.Running? ==> srv.phase.ip == ws[|srv.log|].ip && srv.phase.apdu == ws[|srv.log|].apdu)
    && (forall j :: 0 <= j < |srv.queue| ==> srv.queue[j] == ws[|srv.log| + Busy(srv) + j])
  }

  ghost predicate Going(o: Options, ws: seq<Pdu>, cursor: nat, srv: Server) {
    && InLine(ws, srv) && Kept(o, cursor, srv) && 0.0 <= srv.now && |srv.security.sources| == o.maxSources
    && Healthy(srv.security.global, o.globalBurst as real, srv.now)
    && Tidy(o, ws, srv.security.sources, Next(srv), srv.now)
    && (forall d :: d in srv.security.duplicates && d.used ==> WroteBefore(ws, |srv.log|, d.ip))
  }

  lemma TidyLater(o: Options, ws: seq<Pdu>, t: seq<Source>, next: nat, from: real, now: real)
    requires ValidOptions(o) && Tidy(o, ws, t, next, from) && from <= now
    ensures Tidy(o, ws, t, next, now)
    ensures forall ip: Ip :: MayRepeat(o, t, ip, from) ==> MayRepeat(o, t, ip, now)
  {
    hide Level;
    forall i | 0 <= i < |t| && t[i].used
      ensures Calm(o, t[i], now) && (Rested(o, t[i], from) ==> Rested(o, t[i], now))
    {
      RestedLater(o, t[i], from, now);
    }
  }

  lemma RestedLater(o: Options, x: Source, from: real, now: real)
    requires ValidOptions(o) && Calm(o, x, from) && from <= now
    ensures Calm(o, x, now) && (Rested(o, x, from) ==> Rested(o, x, now))
  {
    hide Level;
    Waits(x.packets, o.perSourceRate, o.perSourceBurst as real, from, now);
    Waits(x.writes, o.writeRate, o.writeBurst as real, from, now);
  }

  /** The next source's write joins the queue. */
  lemma ArriveGoes(o: Options, ws: seq<Pdu>, capacity: nat, cursor: nat, srv: Server, at: real)
    requires ValidOptions(o) && Writers(o, ws) && Going(o, ws, cursor, srv) && srv.now <= at && |srv.queue| < capacity
    requires Next(srv) < |ws| && 1.0 <= GlobalLevel(o, srv.security.global, at)
    ensures var end := Do(o, capacity, srv, Arrive(at, ws[Next(srv)]));
            Going(o, ws, cursor, end) && end.phase == srv.phase && end.log == srv.log && |end.queue| == |srv.queue| + 1
  {
    hide Accept, Take, GlobalLevel, Level, Fingerprint, Tidy, MayRepeat, Passes, Genuine, WroteBefore, ReportOverflow;
    TidyLater(o, ws, srv.security.sources, Next(srv), srv.now, at);
    NewPasses(o, ws, srv.security, Next(srv), at);
    TakeSpends(srv.security.global, o.globalRate, o.globalBurst as real, srv.now, at);
    SameRing(o, cursor, srv, Do(o, capacity, srv, Arrive(at, ws[Next(srv)])));
  }

  /** The write at the head of the queue is executed. */
  lemma DrainGoes(o: Options, ws: seq<Pdu>, capacity: nat, cursor: nat, srv: Server)
    requires ValidOptions(o) && Writers(o, ws) && Going(o, ws, cursor, srv) && srv.phase.Idle? && srv.queue != []
    ensures Genuine(srv.queue[0])
    ensures var end := Do(o, capacity, srv, Poll(srv.now, srv.queue[0], srv.now, Executable));
            && end.security.sources == srv.security.sources
            && Going(o, ws, cursor, end) && end.phase.Running? && end.log == srv.log && |end.queue| == |srv.queue| - 1
            && end.security.global == srv.security.global
  {
    hide HashWrite, Level, Fingerprint, Tidy, Passes, Genuine;
    SameRing(o, cursor, srv, Do(o, capacity, srv, Poll(srv.now, srv.queue[0], srv.now, Executable)));
  }

  /** The next source's write comes in from the socket and is executed. */
  lemma SocketGoes(o: Options, ws: seq<Pdu>, capacity: nat, cursor: nat, srv: Server, at: real)
    requires ValidOptions(o) && Writers(o, ws) && Going(o, ws, cursor, srv) && srv.now <= at && srv.phase.Idle? && srv.queue == []
    requires Next(srv) < |ws| && 1.0 <= GlobalLevel(o, srv.security.global, at)
    ensures var end := Do(o, capacity, srv, Poll(at, ws[Next(srv)], at, Executable));
            && (0 < Next(srv) && MayRepeat(o, srv.security.sources, ws[0].ip, srv.now) ==>
                  MayRepeat(o, end.security.sources, ws[0].ip, at))
            && Going(o, ws, cursor, end) && end.phase.Running? && end.log == srv.log && end.queue == []
            && GlobalLevel(o, end.security.global, at) == GlobalLevel(o, srv.security.global, at) - 1.0
  {
    hide Accept, HashWrite, Level, Fingerprint, Tidy, MayRepeat, Passes, Genuine;
    TidyLater(o, ws, srv.security.sources, Next(srv), srv.now, at);
    NewPasses(o, ws, srv.security, Next(srv), at);
    TakeSpends(srv.security.global, o.globalRate, o.globalBurst as real, srv.now, at);
    SameRing(o, cursor, srv, Do(o, capacity, srv, Poll(at, ws[Next(srv)], at, Executable)));
  }

  /** The callback succeeds. */
  lemma FinishGoes(o: Options, ws: seq<Pdu>, capacity: nat, cursor: nat, srv: Server, at: real)
    requires ValidOptions(o) && Writers(o, ws) && Going(o, ws, cursor, srv) && srv.phase.Running? && srv.now <= at
    ensures var end := Do(o, capacity, srv, Finish(at, true));
            && Going(o, ws, cursor, end) && end.phase.Idle? && end.queue == srv.queue
            && end.security.sources == srv.security.sources
            && end.log == srv.log + [Execution(srv.phase.ip, srv.phase.apdu, srv.phase.start, at)]
            && end.security.global == srv.security.global
  {
    hide HashWrite, Tidy, Fingerprint, Passes, Genuine;
    var x := Execution(srv.phase.ip, srv.phase.apdu, srv.phase.start, at);
    TidyLater(o, ws, srv.security.sources, Next(srv), srv.now, at);
    RecordKeeps(o, cursor, srv, x);
    var end := Do(o, capacity, srv, Finish(at, true));
    SameRing(o, cursor, srv.(security := end.security, log := end.log), end);
  }

  /** A run that starts with `a`. */
  lemma Prepend(o: Options, capacity: nat, srv: Server, a: Act, rest: seq<Act>)
    requires Possible(srv, a) && 0 < |srv.security.sources| && |srv.security.duplicates| == RING
    requires PossibleRun(o, capacity, Do(o, capacity, srv, a), rest)
    ensures PossibleRun(o, capacity, srv, [a] + rest)
    ensures Play(o, capacity, srv, [a] + rest) == Play(o, capacity, Do(o, capacity, srv, a), rest)
  {
    hide Do;
    assert ([a] + rest)[1..] == rest;
  }

  /** The rest of the run executes a write too soon. */
  ghost predicate Breaks(o: Options, capacity: nat, srv: Server, acts: seq<Act>) {
    PossibleRun(o, capacity, srv, acts) && !Apart(o, Play(o, capacity, srv, acts))
  }

  lemma BreaksEarlier(o: Options, capacity: nat, srv: Server, a: Act, rest: seq<Act>)
    requires Possible(srv, a) && 0 < |srv.security.sources| && |srv.security.duplicates| == RING
    requires Breaks(o, capacity, Do(o, capacity, srv, a), rest)
    ensures Breaks(o, capacity, srv, [a] + rest)
  {
    Prepend(o, capacity, srv, a, rest);
  }

  /** Once `RING` other writes have been executed, the first write is forgotten and is executed again. */
  lemma ForgottenWriteRepeats(o: Options, ws: seq<Pdu>, capacity: nat, cursor: nat, srv: Server, at: real) returns (acts: seq<Act>)
    requires ValidOptions(o) && Writers(o, ws) && Going(o, ws, cursor, srv) && srv.now <= at && srv.phase.Idle? && srv.queue == []
    requires MayRepeat(o, srv.security.sources, ws[0].ip, srv.now)
    requires |srv.log| == RING + 1 && at < srv.log[0].end + o.duplicateWindow
    requires 1.0 <= GlobalLevel(o, srv.security.global, at)
    ensures Breaks(o, capacity, srv, acts)
  {
    hide Do, Going, MayRepeat, Genuine, Passes, Breaks, GlobalLevel;
    var first, second := Poll(at, ws[0], at, Executable), Finish(at, true);
    GoingParts(o, ws, cursor, srv);
    ForgottenWriteStarts(o, ws, capacity, cursor, srv, at);
    var mid := Do(o, capacity, srv, first);
    SecondTooSoon(o, capacity, mid, at);
    BreaksEarlier(o, capacity, mid, second, []);
    BreaksEarlier(o, capacity, srv, first, [second] + []);
    acts := [first] + ([second] + []);
  }

  /** The first write comes in again and reaches the callback. */
  lemma ForgottenWriteStarts(o: Options, ws: seq<Pdu>, capacity: nat, cursor: nat, srv: Server, at: real)
    requires ValidOptions(o) && Writers(o, ws) && Going(o, ws, cursor, srv) && srv.now <= at && srv.phase.Idle? && srv.queue == []
    requires MayRepeat(o, srv.security.sources, ws[0].ip, srv.now) && |srv.log| == RING + 1
    requires 1.0 <= GlobalLevel(o, srv.security.global, at)
    ensures var mid := Do(o, capacity, srv, Poll(at, ws[0], at, Executable));
            && mid.phase == Running(ws[0].ip, ws[0].apdu, at) && mid.log == srv.log && mid.now == at
            && mid.log[0].ip == ws[0].ip && mid.log[0].apdu == ws[0].apdu
  {
    hide HashWrite, Level, Accept, Tidy, MayRepeat, Passes, Genuine, GlobalLevel;
    TidyLater(o, ws, srv.security.sources, Next(srv), srv.now, at);
    AgainPasses(o, ws, srv.security, Next(srv), at);
    forall k | 0 <= k < RING ensures srv.security.duplicates[k].ip != ws[0].ip {
      var i := 1 + (k - cursor - 1) % RING;
      SlotOf(cursor, k);
      assert srv.security.duplicates[(cursor + i) % RING] == Fingerprint(o, srv.log[i]);
    }
  }

  /** A callback that succeeds for a write executed within the window. */
  lemma SecondTooSoon(o: Options, capacity: nat, srv: Server, at: real)
    requires srv.phase.Running? && srv.phase.start == at == srv.now && srv.log != []
    requires 0 < |srv.security.sources| && |srv.security.duplicates| == RING
    requires srv.log[0].ip == srv.phase.ip && srv.log[0].apdu == srv.phase.apdu && at < srv.log[0].end + o.duplicateWindow
    ensures Breaks(o, capacity, Do(o, capacity, srv, Finish(at, true)), [])
  {
    hide RecordWrite;
    var end := Do(o, capacity, srv, Finish(at, true));
    assert end.log[0] == srv.log[0] && end.log[|srv.log|].start == at;
  }

  lemma SlotOf(cursor: nat, k: nat)
    requires k < RING
    ensures (cursor + (1 + (k - cursor - 1) % RING)) % RING == k
  {
  }

  lemma OneToken(rate: real)
    requires 0.0 < rate
    ensures 0.0 < 1.0 / rate && Flow(rate, 1.0 / rate) == 1.0
  {
  }

  lemma OneMore(b: Bucket, rate: real, burst: real, now: real, at: real)
    requires 0.0 < rate && 1.0 <= burst && at == now + 1.0 / rate && Level(b, rate, burst, now) == 0.0
    ensures Level(b, rate, burst, at) == 1.0
  {
    hide Level;
    OneToken(rate);
    FlowIs(rate, 1.0 / rate);
    var step := at - now;
    assert step == 1.0 / rate;
    LevelFlows(b, rate, burst, now, at);
    assert Level(b, rate, burst, at) == Min(burst, step * rate);
  }

  lemma FlowIs(rate: real, time: real)
    ensures Flow(rate, time) == time * rate
  {
  }

  /** The bucket holds `left` tokens: what it could give since the first execution, less what was taken. */
  ghost predicate Left(o: Options, capacity: nat, srv: Server, left: nat) {
    && 1 + capacity <= |srv.log| && srv.log[0].end <= srv.now
    && GlobalLevel(o, srv.security.global, srv.now) == left as real
    && (left + |srv.log| - 1 - capacity) as real == o.globalBurst as real + Flow(o.globalRate, srv.now - srv.log[0].end)
    && (srv.now == srv.log[0].end || left == 0)
  }

  /** When the next token is there. */
  function NextToken(o: Options, now: real, left: nat): real
    requires 0.0 < o.globalRate
  {
    if left > 0 then now else now + 1.0 / o.globalRate
  }

  lemma TokenComes(o: Options, capacity: nat, srv: Server, left: nat)
    requires ValidOptions(o) && Healthy(srv.security.global, o.globalBurst as real, srv.now) && Left(o, capacity, srv, left)
    ensures var at := NextToken(o, srv.now, left);
            var left' := if left > 0 then left - 1 else 0;
            && srv.now <= at && (at == srv.log[0].end || left == 0)
            && GlobalLevel(o, srv.security.global, at) == (left' + 1) as real
            && (left' + |srv.log| - capacity) as real == o.globalBurst as real + Flow(o.globalRate, at - srv.log[0].end)
  {
    hide Level, Flow;
    if left == 0 {
      OneToken(o.globalRate);
      var at := srv.now + 1.0 / o.globalRate;
      OneMore(srv.security.global, o.globalRate, o.globalBurst as real, srv.now, at);
      FlowAdds(o.globalRate, srv.log[0].end, srv.now, at);
      assert at - srv.now == 1.0 / o.globalRate;
    } else {
      assert left - 1 + |srv.log| - capacity == left + |srv.log| - 1 - capacity;
    }
  }

  /** Sources that have not written yet do so, as fast as the bucket allows, until the ring has turned once. */
  lemma RingTurns(o: Options, ws: seq<Pdu>, capacity: nat, cursor: nat, srv: Server, left: nat) returns (acts: seq<Act>)
    requires ValidOptions(o) && Writers(o, ws) && !RingSuffices(o, capacity) && capacity <= RING
    requires Going(o, ws, cursor, srv) && srv.phase.Idle? && srv.queue == [] && Left(o, capacity, srv, left)
    requires |srv.log| <= RING + 1 <= |ws| && MayRepeat(o, srv.security.sources, ws[0].ip, srv.now)
    ensures Breaks(o, capacity, srv, acts)
    decreases RING + 1 - |srv.log|
  {
    hide Going, Level, Flow, Do, GlobalLevel, Breaks, MayRepeat, Tidy, Genuine, Passes;
    GoingParts(o, ws, cursor, srv);
    TokenComes(o, capacity, srv, left);
    var at := NextToken(o, srv.now, left);
    if |srv.log| == RING + 1 {
      TurnedInTime(o, capacity, srv.log[0].end, at, left);
      acts := ForgottenWriteRepeats(o, ws, capacity, cursor, srv, at);
    } else {
      var first, second := Poll(at, ws[Next(srv)], at, Executable), Finish(at, true);
      SocketGoes(o, ws, capacity, cursor, srv, at);
      var mid := Do(o, capacity, srv, first);
      GoingParts(o, ws, cursor, mid);
      FinishGoes(o, ws, capacity, cursor, mid, at);
      var end := Do(o, capacity, mid, second);
      var rest := RingTurns(o, ws, capacity, cursor, end, if left > 0 then left - 1 else 0);
      BreaksEarlier(o, capacity, mid, second, rest);
      BreaksEarlier(o, capacity, srv, first, [second] + rest);
      acts := [first] + ([second] + rest);
    }
  }

  lemma GoingTidy(o: Options, ws: seq<Pdu>, cursor: nat, srv: Server)
    requires Going(o, ws, cursor, srv)
    ensures Tidy(o, ws, srv.security.sources, Next(srv), srv.now)
  {
  }

  lemma GoingParts(o: Options, ws: seq<Pdu>, cursor: nat, srv: Server)
    requires Going(o, ws, cursor, srv)
    ensures |srv.security.sources| == o.maxSources && |srv.security.duplicates| == RING
    ensures Healthy(srv.security.global, o.globalBurst as real, srv.now)
  {
  }

  /** The ring turns within the window of the first write. */
  lemma TurnedInTime(o: Options, capacity: nat, from: real, at: real, left: nat)
    requires ValidOptions(o) && !RingSuffices(o, capacity)
    requires at == from || left == 0
    requires ((if left > 0 then left - 1 else 0) + RING + 1 - capacity) as real
             == o.globalBurst as real + Flow(o.globalRate, at - from)
    ensures at < from + o.duplicateWindow
  {
    if left == 0 {
      FlowIs(o.globalRate, o.duplicateWindow);
      FlowOrder(o.globalRate, at - from, o.duplicateWindow);
    }
  }

  /** The queued writes are executed first; the bucket stays as it is. */
  lemma QueueDrains(o: Options, ws: seq<Pdu>, capacity: nat, cursor: nat, srv: Server) returns (acts: seq<Act>)
    requires ValidOptions(o) && Writers(o, ws) && !RingSuffices(o, capacity) && capacity <= RING
    requires Going(o, ws, cursor, srv) && srv.phase.Idle? && |srv.log| + |srv.queue| == 1 + capacity && srv.log != []
    requires RING + 1 <= |ws| && MayRepeat(o, srv.security.sources, ws[0].ip, srv.now)
    requires srv.log[0].end == srv.now && GlobalLevel(o, srv.security.global, srv.now) == o.globalBurst as real
    ensures Breaks(o, capacity, srv, acts)
    decreases |srv.queue|
  {
    hide Going, Level, Flow, Do, GlobalLevel, Breaks, MayRepeat, Tidy, Genuine, Passes;
    GoingParts(o, ws, cursor, srv);
    if srv.queue == [] {
      NoFlow(o.globalRate);
      acts := RingTurns(o, ws, capacity, cursor, srv, o.globalBurst);
    } else {
      var first, second := Poll(srv.now, srv.queue[0], srv.now, Executable), Finish(srv.now, true);
      DrainGoes(o, ws, capacity, cursor, srv);
      var mid := Do(o, capacity, srv, first);
      GoingParts(o, ws, cursor, mid);
      FinishGoes(o, ws, capacity, cursor, mid, srv.now);
      var rest := QueueDrains(o, ws, capacity, cursor, Do(o, capacity, mid, second));
      BreaksEarlier(o, capacity, mid, second, rest);
      BreaksEarlier(o, capacity, srv, first, [second] + rest);
      acts := [first] + ([second] + rest);
    }
  }

  /** How long it takes until the global bucket is full and any source may write again. */
  function Recovery(o: Options): real
    requires ValidOptions(o)
  {
    var full, packet, write := o.globalBurst as real / o.globalRate, 1.0 / o.perSourceRate, 1.0 / o.writeRate;
    var longest := if packet < write then write else packet;
    if full < longest then longest else full
  }

  /** A bucket left alone long enough has a token, or is full. */
  lemma FillsUp(b: Bucket, rate: real, burst: real, tokens: real, now: real, at: real)
    requires 0.0 < rate && Healthy(b, burst, now) && 0.0 <= tokens <= burst && now + tokens / rate <= at
    ensures tokens <= Level(b, rate, burst, at)
  {
    hide Level;
    var time := tokens / rate;
    assert time * rate == tokens;
    LevelInRange(b, rate, burst, now);
    assert 0.0 <= time;
    LevelFlows(b, rate, burst, now, at);
    Product(at - now - time, rate);
    assert (at - now) * rate == (at - now - time) * rate + time * rate;
  }

  /** A bucket left alone long enough holds at least one token, and then is full. */
  lemma Refills(o: Options, g: Bucket, now: real)
    requires ValidOptions(o) && Healthy(g, o.globalBurst as real, now)
    ensures 0.0 < 1.0 / o.globalRate && 1.0 <= GlobalLevel(o, g, now + 1.0 / o.globalRate)
    ensures 0.0 < Recovery(o) && GlobalLevel(o, g, now + Recovery(o)) == o.globalBurst as real
  {
    hide Level;
    OneToken(o.globalRate);
    OneToken(o.perSourceRate);
    FillsUp(g, o.globalRate, o.globalBurst as real, 1.0, now, now + 1.0 / o.globalRate);
    FillsUp(g, o.globalRate, o.globalBurst as real, o.globalBurst as real, now, now + Recovery(o));
    LevelInRange(g, o.globalRate, o.globalBurst as real, now + Recovery(o));
  }

  /** After that time any writer may write again. */
  lemma Recovers(o: Options, ws: seq<Pdu>, t: seq<Source>, next: nat, now: real, ip: Ip)
    requires ValidOptions(o) && Tidy(o, ws, t, next, now)
    ensures MayRepeat(o, t, ip, now + Recovery(o))
  {
    hide Level;
    var at := now + Recovery(o);
    forall i | 0 <= i < |t| && Holds(t[i], ip) ensures Rested(o, t[i], at) {
      assert Calm(o, t[i], now);
      FillsUp(t[i].packets, o.perSourceRate, o.perSourceBurst as real, 1.0, now, at);
      FillsUp(t[i].writes, o.writeRate, o.writeBurst as real, 1.0, now, at);
    }
  }

  /** While the first write is executed others fill the queue; then the bucket fills up, and only then does the
      callback return. */
  lemma QueueFills(o: Options, ws: seq<Pdu>, capacity: nat, cursor: nat, srv: Server) returns (acts: seq<Act>)
    requires ValidOptions(o) && Writers(o, ws) && !RingSuffices(o, capacity) && capacity <= RING
    requires Going(o, ws, cursor, srv) && srv.phase.Running? && srv.log == [] && |srv.queue| <= capacity && RING + 1 <= |ws|
    ensures Breaks(o, capacity, srv, acts)
    decreases capacity - |srv.queue|
  {
    hide Going, Level, Flow, Do, GlobalLevel, Breaks, MayRepeat, Tidy, Genuine, Passes;
    GoingParts(o, ws, cursor, srv);
    Refills(o, srv.security.global, srv.now);
    if |srv.queue| == capacity {
      var at := srv.now + Recovery(o);
      GoingTidy(o, ws, cursor, srv);
      Recovers(o, ws, srv.security.sources, Next(srv), srv.now, ws[0].ip);
      FinishGoes(o, ws, capacity, cursor, srv, at);
      var rest := QueueDrains(o, ws, capacity, cursor, Do(o, capacity, srv, Finish(at, true)));
      BreaksEarlier(o, capacity, srv, Finish(at, true), rest);
      acts := [Finish(at, true)] + rest;
    } else {
      var at := srv.now + 1.0 / o.globalRate;
      var a := Arrive(at, ws[Next(srv)]);
      ArriveGoes(o, ws, capacity, cursor, srv, at);
      var rest := QueueFills(o, ws, capacity, cursor, Do(o, capacity, srv, a));
      BreaksEarlier(o, capacity, srv, a, rest);
      acts := [a] + rest;
    }
  }

  lemma StartGoes(o: Options, ws: seq<Pdu>, stats: Stats, cursor: nat, start: real)
    requires ValidOptions(o) && cursor < CURSOR_LIMIT && 0.0 <= start
    ensures var srv := Started(o, stats, cursor, start);
            Going(o, ws, cursor, srv) && 1.0 <= GlobalLevel(o, srv.security.global, start)
  {
  }

  /** Where the ring does not suffice, some run executes a write twice within its window. */
  lemma SmallRingBreaks(o: Options, ws: seq<Pdu>, capacity: nat, stats: Stats, cursor: nat, start: real) returns (acts: seq<Act>)
    requires ValidOptions(o) && Writers(o, ws) && !RingSuffices(o, capacity) && capacity <= RING && RING + 1 <= |ws|
    requires cursor < CURSOR_LIMIT && 0.0 <= start
    ensures Breaks(o, capacity, Started(o, stats, cursor, start), acts)
  {
    hide Going, Level, Flow, Do, GlobalLevel, Breaks, MayRepeat, Tidy, Genuine, Passes;
    var srv := Started(o, stats, cursor, start);
    StartGoes(o, ws, stats, cursor, start);
    GoingParts(o, ws, cursor, srv);
    var a := Poll(start, ws[0], start, Executable);
    SocketGoes(o, ws, capacity, cursor, srv, start);
    var rest := QueueFills(o, ws, capacity, cursor, Do(o, capacity, srv, a));
    BreaksEarlier(o, capacity, srv, a, rest);
    acts := [a] + rest;
  }

  /** Main theorem: where the network lists let more sources through than the ring has slots, writes run at most once per
      window in every run if and only if the ring suffices; the condition has not one slot and not one token of slack. */
  lemma RingConditionIsExact(o: Options, ws: seq<Pdu>, capacity: nat, stats: Stats, cursor: nat, start: real)
    requires ValidOptions(o) && Writers(o, ws) && RING + 1 <= |ws|
    requires capacity <= RING && cursor < CURSOR_LIMIT && 0.0 <= start
    ensures RingSuffices(o, capacity) <==>
            forall acts :: PossibleRun(o, capacity, Started(o, stats, cursor, start), acts) ==>
                             Apart(o, Play(o, capacity, Started(o, stats, cursor, start), acts))
  {
    hide Started, Play, PossibleRun, RingSuffices, Apart;
    if RingSuffices(o, capacity) {
      forall acts | PossibleRun(o, capacity, Started(o, stats, cursor, start), acts)
        ensures Apart(o, Play(o, capacity, Started(o, stats, cursor, start), acts))
      {
        WritesRunOncePerWindow(o, capacity, stats, cursor, start, acts);
      }
    } else {
      var acts := SmallRingBreaks(o, ws, capacity, stats, cursor, start);
      assert PossibleRun(o, capacity, Started(o, stats, cursor, start), acts);
      assert !Apart(o, Play(o, capacity, Started(o, stats, cursor, start), acts));
    }
  }

  /** A WriteProperty request: the present value of analog output 1 is to be the real number 10. */
  const REQUEST: seq<Byte> :=
    [0x00, 0x05, 0x01, 0x0F, 0x0C, 0x00, 0x40, 0x00, 0x01, 0x19, 0x55, 0x3E, 0x44, 0x41, 0x20, 0x00, 0x00, 0x3F]

  /** There are writers wherever enough addresses pass the lists, and frames that carry their writes. */
  lemma RequestsAreWriters(o: Options, ips: seq<Ip>) returns (ws: seq<Pdu>)
    requires o.enabled && ips != [] && forall i, j :: 0 <= i < j < |ips| ==> ips[i] != ips[j]
    requires forall i :: 0 <= i < |ips| ==> Passes(o.allowed, o.denied, ips[i])
    ensures Writers(o, ws) && |ws| == |ips|
    ensures forall i :: 0 <= i < |ips| ==> ws[i] == PollServer.Meaning(PollServer.FrameOf(ips[i], REQUEST), Npdu(2, false))
  {
    hide PollServer.Meaning, Passes;
    assert REQUEST[0] == 0 && REQUEST[3] == WRITE_PROPERTY;
    ws := seq(|ips|, i requires 0 <= i < |ips| => Pdu(ips[i], Write, REQUEST));
    forall i | 0 <= i < |ips| ensures ws[i] == PollServer.Meaning(PollServer.FrameOf(ips[i], REQUEST), Npdu(2, false)) {
      PollServer.WritesCanBeReceived(ws[i]);
    }
  }
}
