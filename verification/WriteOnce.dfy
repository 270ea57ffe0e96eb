/** A write is executed at most once per duplicate window: the global token bucket keeps the fingerprint ring from
    overwriting a fingerprint that has not expired. */
module WriteOnce {
  import opened Cidr
  import opened Fnv
  import opened TokenBucket
  import opened Admission
  import opened AdmissionRuns
  import opened RateBounds

  datatype Pdu = Pdu(ip: Ip, kind: Kind, apdu: seq<Byte>)

  /** What the server is doing: waiting, or running the write callback. */
  datatype Phase = Idle | Running(ip: Ip, apdu: seq<Byte>, start: real)

  /** A write callback that ran from `start` to `end` and succeeded. */
  datatype Execution = Execution(ip: Ip, apdu: seq<Byte>, start: real, end: real)

  /** A server polling one packet at a time. `capacity` is the room of its queue of packets that arrive during
      synchronous client calls: 0 for a plain server, 32 for a mixed one. */
  datatype Server = Server(security: State, queue: seq<Pdu>, phase: Phase, log: seq<Execution>, now: real)

  /** What the service decoder and the registered objects make of a packet: not decodable, not for the callback, or
      fit to be executed if it is a write. */
  datatype Body = Garbled | Unsupported | Executable

  datatype Act =
    | Arrive(at: real, pdu: Pdu)                                    // a packet comes in during a client call
    | Poll(at: real, pdu: Pdu, check: real, body: Body)             // `poll` starts; `pdu` waits on the socket
    | Finish(at: real, ok: bool)                                    // the write callback returns
    | NoteBad(at: real, ip: Ip)                                     // the server cannot decode a packet
    | Read(at: real)                                                // the statistics are read

  /** A packet is only taken for a write if its bytes are those of one. */
  predicate Genuine(p: Pdu) {
    p.kind == Write ==> |p.apdu| >= 4 && PduType(p.apdu[0]) == CONFIRMED_REQUEST && p.apdu[3] == WRITE_PROPERTY
  }

  /** Acts follow the clock and concern genuine packets, and a callback runs to its end before the next poll. */
  predicate Possible(srv: Server, a: Act) {
    && srv.now <= a.at
    && (a.Arrive? || a.Poll? ==> Genuine(a.pdu))
    && (a.Poll? ==> srv.phase.Idle? && a.at <= a.check)
    && (a.Finish? ==> srv.phase.Running?)
  }

  function Now(a: Act): real {
    if a.Poll? then a.check else a.at
  }

  /** The server takes up packet `p` at time `check`: a write not seen before reaches the callback. */
  function Handle(o: Options, srv: Server, p: Pdu, check: real, body: Body): (r: Server)
    requires 0 < |srv.security.sources| && |srv.security.duplicates| == RING
    ensures |r.security.sources| == |srv.security.sources| && |r.security.duplicates| == RING && r.now == check
  {
    if body.Garbled? then srv.(security := ReportMalformed(o, srv.security, p.ip, check), now := check)
    else if p.kind != Write then srv.(now := check)
    else if IsDuplicate(o, srv.security, p.ip, p.apdu, check) then
      srv.(security := Deduplicated(srv.security), now := check)
    else if body.Executable? then srv.(phase := Running(p.ip, p.apdu, check), now := check)
    else srv.(now := check)
  }

  function Do(o: Options, capacity: nat, srv: Server, a: Act): (r: Server)
    requires Possible(srv, a) && 0 < |srv.security.sources| && |srv.security.duplicates| == RING
    ensures |r.security.sources| == |srv.security.sources| && |r.security.duplicates| == RING && r.now == Now(a)
  {
    match a
    case Arrive(at, p) =>
      var r := Accept(o, srv.security, p.ip, p.kind, at);
      if r.verdict != Accepted then srv.(security := r.state, now := at)
      else if |srv.queue| < capacity then srv.(security := r.state, queue := srv.queue + [p], now := at)
      else srv.(security := ReportOverflow(o, r.state, at), now := at)
    case Poll(at, p, check, body) =>
      if srv.queue != [] then
        Handle(o, srv.(queue := srv.queue[1..]), srv.queue[0], check, body)
      else
        var r := Accept(o, srv.security, p.ip, p.kind, at);
        if r.verdict != Accepted then srv.(security := r.state, now := check)
        else Handle(o, srv.(security := r.state), p, check, body)
    case Finish(at, ok) =>
      if !ok then srv.(phase := Idle, now := at)
      else
        Server(RecordWrite(o, srv.security, srv.phase.ip, srv.phase.apdu, at), srv.queue, Idle,
               srv.log + [Execution(srv.phase.ip, srv.phase.apdu, srv.phase.start, at)], at)
    case NoteBad(at, ip) => srv.(security := ReportMalformed(o, srv.security, ip, at), now := at)
    case Read(at) => srv.(security := Sweep(o, srv.security, at), now := at)
  }

  /** Every act of the run is possible when it comes. */
  ghost predicate PossibleRun(o: Options, capacity: nat, srv: Server, acts: seq<Act>)
    decreases acts
  {
    acts == [] ||
    (Possible(srv, acts[0]) && 0 < |srv.security.sources| && |srv.security.duplicates| == RING
     && PossibleRun(o, capacity, Do(o, capacity, srv, acts[0]), acts[1..]))
  }

  /** The server after a run. */
  ghost function Play(o: Options, capacity: nat, srv: Server, acts: seq<Act>): Server
    requires PossibleRun(o, capacity, srv, acts)
    decreases acts
  {
    if acts == [] then srv else Play(o, capacity, Do(o, capacity, srv, acts[0]), acts[1..])
  }

  function Started(o: Options, stats: Stats, cursor: nat, start: real): Server {
    Server(Configured(o, stats, cursor, start), [], Idle, [], start)
  }

  /** The ring is large enough for every write the global bucket can let through within one duplicate window. */
  predicate RingSuffices(o: Options, capacity: nat) {
    o.globalBurst as real + o.globalRate * o.duplicateWindow + capacity as real <= (RING + 1) as real
  }

  /** No two executions of the same write of the same source are closer than the duplicate window. */
  ghost predicate Apart(o: Options, srv: Server) {
    && (forall i, j :: 0 <= i < j < |srv.log| && srv.log[i].ip == srv.log[j].ip && srv.log[i].apdu == srv.log[j].apdu ==>
          srv.log[i].end + o.duplicateWindow <= srv.log[j].start)
    && (srv.phase.Running? ==>
          forall i :: 0 <= i < |srv.log| && srv.log[i].ip == srv.phase.ip && srv.log[i].apdu == srv.phase.apdu ==>
            srv.log[i].end + o.duplicateWindow <= srv.phase.start)
  }

  function Fingerprint(o: Options, x: Execution): Duplicate {
    Duplicate(true, x.ip, HashWrite(x.ip, x.apdu), x.end + o.duplicateWindow)
  }

  /** The ring holds the fingerprints of the last `RING` executions. */
  ghost predicate Kept(o: Options, cursor: nat, srv: Server) {
    && |srv.security.duplicates| == RING
    && srv.security.cursor == (cursor + |srv.log|) % CURSOR_LIMIT
    && (forall i :: 0 <= i < |srv.log| && |srv.log| - i <= RING ==>
          srv.security.duplicates[(cursor + i) % RING] == Fingerprint(o, srv.log[i]))
  }

  function Busy(srv: Server): nat {
    if srv.phase.Running? then 1 else 0
  }

  /** Packets that have passed the bucket and may still become executions, plus those that could pass it now. */
  function Load(o: Options, srv: Server): real {
    (|srv.queue| + Busy(srv)) as real + GlobalLevel(o, srv.security.global, srv.now)
  }

  /** Everything that has passed, or can still pass, the bucket since execution `i` fits what the bucket could give
      since then. */
  ghost predicate Budget(o: Options, capacity: nat, srv: Server, i: nat)
    requires i < |srv.log|
  {
    && srv.log[i].end <= srv.now
    && (|srv.log| - 1 - i) as real + Load(o, srv)
       <= capacity as real + o.globalBurst as real + Flow(o.globalRate, srv.now - srv.log[i].end)
  }

  ghost predicate Sound(o: Options, capacity: nat, srv: Server) {
    |srv.queue| <= capacity && Healthy(srv.security.global, o.globalBurst as real, srv.now)
    && |srv.security.sources| == o.maxSources
  }

  ghost predicate Budgeted(o: Options, capacity: nat, srv: Server) {
    forall i :: 0 <= i < |srv.log| ==> Budget(o, capacity, srv, i)
  }

  lemma BudgetMoves(o: Options, capacity: nat, srv: Server, end: Server)
    requires Budgeted(o, capacity, srv) && end.log == srv.log && srv.now <= end.now
    requires Load(o, end) <= Load(o, srv) + Flow(o.globalRate, end.now - srv.now)
    ensures Budgeted(o, capacity, end)
  {
    hide Load, Flow;
    forall i | 0 <= i < |end.log| ensures Budget(o, capacity, end, i) {
      assert Budget(o, capacity, srv, i);
      FlowAdds(o.globalRate, srv.log[i].end, srv.now, end.now);
    }
  }

  /** Letting time pass adds at most what flows into the bucket. */
  lemma LoadRises(o: Options, srv: Server, now: real)
    requires ValidOptions(o) && Healthy(srv.security.global, o.globalBurst as real, srv.now) && srv.now <= now
    ensures Healthy(srv.security.global, o.globalBurst as real, now)
    ensures Load(o, srv.(now := now)) <= Load(o, srv) + Flow(o.globalRate, now - srv.now)
  {
    hide Flow, Level;
    LevelRises(srv.security.global, o.globalRate, o.globalBurst as real, srv.now, now);
  }

  /** A packet that passes the bucket is paid for with a token. */
  lemma AcceptPays(o: Options, srv: Server, p: Pdu, at: real)
    requires ValidOptions(o) && o.enabled && srv.now <= at && 0 < |srv.security.sources|
    requires Healthy(srv.security.global, o.globalBurst as real, srv.now)
    ensures var r := Accept(o, srv.security, p.ip, p.kind, at);
            && Healthy(r.state.global, o.globalBurst as real, at)
            && Load(o, srv.(security := r.state, now := at)) + (if r.verdict == Accepted then 1.0 else 0.0)
               <= Load(o, srv) + Flow(o.globalRate, at - srv.now)
  {
    hide Accept, Flow, GlobalLevel, Healthy;
    StepSpendsGlobal(o, srv.security, Packet(at, p.ip, p.kind), srv.now);
  }

  lemma CursorSlot(c: nat, n: nat, i: nat)
    requires i < n
    ensures (c + n) % CURSOR_LIMIT % RING == (c + n) % RING
    ensures ((c + n) % CURSOR_LIMIT + 1) % CURSOR_LIMIT == (c + n + 1) % CURSOR_LIMIT
    ensures n - i < RING ==> (c + i) % RING != (c + n) % RING
  {
  }

  /** Recording an execution keeps the ring in step with the log. */
  lemma RecordKeeps(o: Options, cursor: nat, srv: Server, x: Execution)
    requires o.enabled && Kept(o, cursor, srv)
    ensures Kept(o, cursor, srv.(security := RecordWrite(o, srv.security, x.ip, x.apdu, x.end), log := srv.log + [x]))
  {
    hide HashWrite;
    var end := srv.(security := RecordWrite(o, srv.security, x.ip, x.apdu, x.end), log := srv.log + [x]);
    CursorSlot(cursor, |srv.log| + 1, |srv.log|);
    CursorWraps(cursor + |srv.log|);
    forall i | 0 <= i < |end.log| && |end.log| - i <= RING
      ensures end.security.duplicates[(cursor + i) % RING] == Fingerprint(o, end.log[i])
    {
      if i < |srv.log| {
        CursorSlot(cursor, |srv.log|, i);
        assert srv.security.duplicates[(cursor + i) % RING] == Fingerprint(o, srv.log[i]);
      }
    }
  }

  lemma CursorWraps(n: nat)
    ensures n % CURSOR_LIMIT % RING == n % RING
    ensures (n % CURSOR_LIMIT + 1) % CURSOR_LIMIT == (n + 1) % CURSOR_LIMIT
  {
  }

  /** A write that is not recognised as a duplicate comes at least one window after its last execution: no
      fingerprint that young has been overwritten. */
  lemma NotTooSoon(o: Options, capacity: nat, cursor: nat, srv: Server, i: nat)
    requires ValidOptions(o) && o.enabled && RingSuffices(o, capacity)
    requires Kept(o, cursor, srv) && Budgeted(o, capacity, srv) && Sound(o, capacity, srv)
    requires srv.phase.Running? && srv.phase.start == srv.now
    requires !IsDuplicate(o, srv.security, srv.phase.ip, srv.phase.apdu, srv.now)
    requires i < |srv.log| && srv.log[i].ip == srv.phase.ip && srv.log[i].apdu == srv.phase.apdu
    ensures srv.log[i].end + o.duplicateWindow <= srv.now
  {
    hide HashWrite, Level;
    assert Budget(o, capacity, srv, i);
    LevelInRange(srv.security.global, o.globalRate, o.globalBurst as real, srv.now);
    var x, since := srv.log[i], |srv.log| - i;
    if since <= RING {
      var d := srv.security.duplicates[(cursor + i) % RING];
      assert !Matches(d, x.ip, HashWrite(x.ip, x.apdu), srv.now);
    } else {
      assert 1.0 <= Load(o, srv);
      assert since as real <= capacity as real + o.globalBurst as real + Flow(o.globalRate, srv.now - x.end);
      assert (RING + 1) as real <= since as real;
      assert Flow(o.globalRate, o.duplicateWindow) <= Flow(o.globalRate, srv.now - x.end);
      FlowOrder(o.globalRate, srv.now - x.end, o.duplicateWindow);
    }
  }

  lemma FlowOrder(rate: real, a: real, b: real)
    requires 0.0 < rate
    ensures a < b <==> Flow(rate, a) < Flow(rate, b)
  {
    var more := b - a;
    assert rate * b == rate * a + rate * more;
    assert 0.0 < more ==> 0.0 < rate * more;
    assert more <= 0.0 ==> rate * more <= 0.0;
  }

  ghost predicate Inv(o: Options, capacity: nat, cursor: nat, srv: Server) {
    Sound(o, capacity, srv) && Budgeted(o, capacity, srv) && Kept(o, cursor, srv) && Apart(o, srv)
    && (srv.phase.Running? ==> srv.phase.start <= srv.now)
  }

  /** Taking up a packet that has been paid for keeps every invariant. `mid` is the server with the packet in hand. */
  lemma HandleKeeps(o: Options, capacity: nat, cursor: nat, srv: Server, mid: Server, p: Pdu, check: real, body: Body)
    requires ValidOptions(o) && o.enabled && RingSuffices(o, capacity)
    requires Inv(o, capacity, cursor, srv) && srv.phase.Idle? && mid.phase.Idle? && mid.log == srv.log
    requires srv.now <= mid.now <= check && Sound(o, capacity, mid) && Kept(o, cursor, mid)
    requires Load(o, mid) + 1.0 <= Load(o, srv) + Flow(o.globalRate, mid.now - srv.now)
    ensures Inv(o, capacity, cursor, Handle(o, mid, p, check, body))
  {
    var end := Handle(o, mid, p, check, body);
    hide HashWrite, Level, Flow, Budgeted, IsDuplicate, Healthy;
    LoadRises(o, mid, check);
    FlowAdds(o.globalRate, srv.now, mid.now, check);
    assert Load(o, end) <= Load(o, mid.(now := check)) + 1.0;
    BudgetMoves(o, capacity, srv, end);
    if end.phase.Running? {
      forall i | 0 <= i < |end.log| && end.log[i].ip == end.phase.ip && end.log[i].apdu == end.phase.apdu
        ensures end.log[i].end + o.duplicateWindow <= end.phase.start
      {
        NotTooSoon(o, capacity, cursor, end, i);
      }
    }
  }

  /** Every act keeps every invariant. */
  lemma ActKeeps(o: Options, capacity: nat, cursor: nat, srv: Server, a: Act)
    requires ValidOptions(o) && o.enabled && RingSuffices(o, capacity)
    requires Inv(o, capacity, cursor, srv) && Possible(srv, a)
    ensures Inv(o, capacity, cursor, Do(o, capacity, srv, a))
  {
    match a
    case Arrive(at, p) => ArriveKeeps(o, capacity, cursor, srv, at, p);
    case Poll(at, p, check, body) => PollKeeps(o, capacity, cursor, srv, at, p, check, body);
    case Finish(at, ok) => FinishKeeps(o, capacity, cursor, srv, at, ok);
    case NoteBad(at, ip) => QuietKeeps(o, capacity, cursor, srv, ReportMalformed(o, srv.security, ip, at), at);
    case Read(at) => QuietKeeps(o, capacity, cursor, srv, Sweep(o, srv.security, at), at);
  }

  /** What touches neither the bucket nor the ring keeps every invariant. */
  lemma QuietKeeps(o: Options, capacity: nat, cursor: nat, srv: Server, security: State, at: real)
    requires ValidOptions(o) && Inv(o, capacity, cursor, srv) && srv.now <= at
    requires security.global == srv.security.global && security.duplicates == srv.security.duplicates
    requires security.cursor == srv.security.cursor && |security.sources| == |srv.security.sources|
    ensures Inv(o, capacity, cursor, srv.(security := security, now := at))
  {
    hide Flow, Level, Healthy, Budgeted;
    LoadRises(o, srv, at);
    BudgetMoves(o, capacity, srv, srv.(security := security, now := at));
  }

  lemma ArriveKeeps(o: Options, capacity: nat, cursor: nat, srv: Server, at: real, p: Pdu)
    requires ValidOptions(o) && o.enabled && Inv(o, capacity, cursor, srv) && srv.now <= at && Genuine(p)
    ensures Inv(o, capacity, cursor, Do(o, capacity, srv, Arrive(at, p)))
  {
    hide Flow, Level, Healthy, Budgeted, Accept, GlobalLevel;
    AcceptPays(o, srv, p, at);
    BudgetMoves(o, capacity, srv, Do(o, capacity, srv, Arrive(at, p)));
  }

  lemma PollKeeps(o: Options, capacity: nat, cursor: nat, srv: Server, at: real, p: Pdu, check: real, body: Body)
    requires ValidOptions(o) && o.enabled && RingSuffices(o, capacity)
    requires Inv(o, capacity, cursor, srv) && srv.phase.Idle? && srv.now <= at <= check && Genuine(p)
    ensures Inv(o, capacity, cursor, Do(o, capacity, srv, Poll(at, p, check, body)))
  {
    hide Flow, Level, Healthy, Budgeted, Accept, GlobalLevel, Kept, Handle, RingSuffices;
    if srv.queue != [] {
      var mid := srv.(queue := srv.queue[1..]);
      NoFlow(o.globalRate);
      SameRing(o, cursor, srv, mid);
      HandleKeeps(o, capacity, cursor, srv, mid, srv.queue[0], check, body);
    } else {
      var r := Accept(o, srv.security, p.ip, p.kind, at);
      var mid := srv.(security := r.state, now := at);
      AcceptPays(o, srv, p, at);
      SameRing(o, cursor, srv, mid);
      if r.verdict == Accepted {
        HandleKeeps(o, capacity, cursor, srv, mid, p, check, body);
        SameHandle(o, srv.(security := r.state), mid, p, check, body);
      } else {
        BudgetMoves(o, capacity, srv, mid);
        QuietKeeps(o, capacity, cursor, mid, mid.security, check);
      }
    }
  }

  lemma SameRing(o: Options, cursor: nat, srv: Server, mid: Server)
    requires Kept(o, cursor, srv) && mid.log == srv.log
    requires mid.security.duplicates == srv.security.duplicates && mid.security.cursor == srv.security.cursor
    ensures Kept(o, cursor, mid)
  {
  }

  lemma SameHandle(o: Options, srv: Server, mid: Server, p: Pdu, check: real, body: Body)
    requires mid.(now := check) == srv.(now := check) && 0 < |srv.security.sources| && |srv.security.duplicates| == RING
    ensures Handle(o, mid, p, check, body) == Handle(o, srv, p, check, body)
  {
    hide IsDuplicate;
  }

  lemma FinishKeeps(o: Options, capacity: nat, cursor: nat, srv: Server, at: real, ok: bool)
    requires ValidOptions(o) && o.enabled && Inv(o, capacity, cursor, srv) && srv.phase.Running? && srv.now <= at
    ensures Inv(o, capacity, cursor, Do(o, capacity, srv, Finish(at, ok)))
  {
    hide Flow, Level, Healthy, RecordWrite;
    var end := Do(o, capacity, srv, Finish(at, ok));
    LoadRises(o, srv, at);
    if ok {
      var x := Execution(srv.phase.ip, srv.phase.apdu, srv.phase.start, at);
      RecordKeeps(o, cursor, srv, x);
      RecordOnlyRing(o, srv.security, x.ip, x.apdu, at);
      SameRing(o, cursor, srv.(security := end.security, log := end.log), end);
      BudgetGrows(o, capacity, srv, end);
    } else {
      SameRing(o, cursor, srv, end);
      BudgetMoves(o, capacity, srv, end);
    }
  }

  lemma RecordOnlyRing(o: Options, s: State, ip: Ip, apdu: seq<Byte>, now: real)
    requires |s.duplicates| == RING
    ensures var r := RecordWrite(o, s, ip, apdu, now);
            r.global == s.global && r.sources == s.sources
  {
  }

  /** An execution that is recorded was one of the packets in hand. */
  lemma BudgetGrows(o: Options, capacity: nat, srv: Server, end: Server)
    requires ValidOptions(o) && Budgeted(o, capacity, srv) && Sound(o, capacity, srv) && srv.now <= end.now
    requires srv.phase.Running? && end.phase.Idle? && end.queue == srv.queue
    requires end.security.global == srv.security.global
    requires |end.log| == |srv.log| + 1 && end.log[..|srv.log|] == srv.log && end.log[|srv.log|].end == end.now
    ensures Budgeted(o, capacity, end)
  {
    hide Flow, Level, Healthy;
    LoadRises(o, srv, end.now);
    LevelRises(srv.security.global, o.globalRate, o.globalBurst as real, srv.now, end.now);
    NoFlow(o.globalRate);
    forall i | 0 <= i < |end.log| ensures Budget(o, capacity, end, i) {
      if i < |srv.log| {
        assert end.log[i] == srv.log[i];
        assert Budget(o, capacity, srv, i);
        FlowAdds(o.globalRate, srv.log[i].end, srv.now, end.now);
      }
    }
  }

  lemma {:induction false} RunKeeps(o: Options, capacity: nat, cursor: nat, srv: Server, acts: seq<Act>)
    requires ValidOptions(o) && o.enabled && RingSuffices(o, capacity)
    requires Inv(o, capacity, cursor, srv) && PossibleRun(o, capacity, srv, acts)
    ensures Inv(o, capacity, cursor, Play(o, capacity, srv, acts))
    decreases acts
  {
    hide Inv, Do, RingSuffices;
    if acts != [] {
      ActKeeps(o, capacity, cursor, srv, acts[0]);
      RunKeeps(o, capacity, cursor, Do(o, capacity, srv, acts[0]), acts[1..]);
    }
  }

  lemma StartInv(o: Options, capacity: nat, stats: Stats, cursor: nat, start: real)
    requires ValidOptions(o) && cursor < CURSOR_LIMIT
    ensures Inv(o, capacity, cursor, Started(o, stats, cursor, start))
  {
  }

  /** Main theorem: if the ring suffices, then in every run without reconfiguration, whatever else arrives, two
      successful executions of the same write of the same source are at least one duplicate window apart. */
  lemma WritesRunOncePerWindow(o: Options, capacity: nat, stats: Stats, cursor: nat, start: real, acts: seq<Act>)
    requires ValidOptions(o) && o.enabled && RingSuffices(o, capacity) && cursor < CURSOR_LIMIT
    requires PossibleRun(o, capacity, Started(o, stats, cursor, start), acts)
    ensures Apart(o, Play(o, capacity, Started(o, stats, cursor, start), acts))
  {
    hide Started, Play, PossibleRun, RingSuffices;
    StartInv(o, capacity, stats, cursor, start);
    RunKeeps(o, capacity, cursor, Started(o, stats, cursor, start), acts);
  }

  /** Two writes of one source that differ in a single byte are never taken for duplicates of each other. */
  lemma OneByteIsNoDuplicate(ip: Ip, apdu: seq<Byte>, i: nat, b: Byte)
    requires i < |apdu| && b != apdu[i]
    ensures HashWrite(ip, apdu[i := b]) != HashWrite(ip, apdu)
  {
    var data := IpBytes(ip) + apdu;
    assert data[4 + i := b] == IpBytes(ip) + apdu[i := b];
    OneByteChanges(OFFSET_BASIS, data, 4 + i, b);
  }
}
