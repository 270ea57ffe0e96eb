/** A mixed server handles the packets it admits in the order in which they arrived: those that came during client
    calls wait in the queue, and the queue is emptied before the socket is read. */
module MixedServer {
  import opened Cidr
  import opened SourceTable
  import opened Admission
  import opened WriteOnce

  /** The packet, if any, that act `a` lets past the security checks. */
  function LetIn(o: Options, srv: Server, a: Act): seq<Pdu>
    requires 0 < |srv.security.sources|
  {
    match a
    case Arrive(at, p) => if Accept(o, srv.security, p.ip, p.kind, at).verdict == Accepted then [p] else []
    case Poll(at, p, _, _) =>
      if srv.queue == [] && Accept(o, srv.security, p.ip, p.kind, at).verdict == Accepted then [p] else []
    case _ => []
  }

  /** Does the queue refuse what act `a` admits? */
  predicate Refused(capacity: nat, srv: Server, a: Act) {
    a.Arrive? && |srv.queue| >= capacity
  }

  /** The packet, if any, that the server takes up in act `a`. */
  function TakenUp(o: Options, srv: Server, a: Act): seq<Pdu>
    requires 0 < |srv.security.sources|
  {
    if !a.Poll? then []
    else if srv.queue != [] then [srv.queue[0]]
    else LetIn(o, srv, a)
  }

  /** Packets admitted and not refused, packets taken up, and the number of packets refused by a full queue. */
  datatype Ledger = Ledger(kept: seq<Pdu>, handled: seq<Pdu>, refused: nat)

  ghost function Book(o: Options, capacity: nat, srv: Server, acts: seq<Act>): Ledger
    requires PossibleRun(o, capacity, srv, acts)
    decreases acts
  {
    if acts == [] then Ledger([], [], 0)
    else
      var rest := Book(o, capacity, Do(o, capacity, srv, acts[0]), acts[1..]);
      var admitted := LetIn(o, srv, acts[0]);
      if Refused(capacity, srv, acts[0]) then Ledger(rest.kept, rest.handled, |admitted| + rest.refused)
      else Ledger(admitted + rest.kept, TakenUp(o, srv, acts[0]) + rest.handled, rest.refused)
  }

  /** One act keeps what is queued followed by what is newly kept equal to what is taken up followed by the queue. */
  lemma ActIsFair(o: Options, capacity: nat, srv: Server, a: Act)
    requires Possible(srv, a) && 0 < |srv.security.sources| && |srv.security.duplicates| == RING
    ensures var end := Do(o, capacity, srv, a);
            && srv.queue + (if Refused(capacity, srv, a) then [] else LetIn(o, srv, a)) == TakenUp(o, srv, a) + end.queue
            && end.security.stats.queueOverflows ==
               srv.security.stats.queueOverflows + if Refused(capacity, srv, a) then |LetIn(o, srv, a)| else 0
  {
    hide GetSource, Decide, IsDuplicate, Accept, ReportMalformed, Handle;
    if a.Arrive? {
      OverflowsKept(o, srv.security, a.pdu.ip, a.pdu.kind, a.at);
    } else if a.Poll? && srv.queue != [] {
      assert srv.queue == [srv.queue[0]] + srv.queue[1..];
      HandlingRefusesNothing(o, srv.(queue := srv.queue[1..]), srv.queue[0], a.check, a.body);
    } else if a.Poll? {
      OverflowsKept(o, srv.security, a.pdu.ip, a.pdu.kind, a.at);
      var security := Accept(o, srv.security, a.pdu.ip, a.pdu.kind, a.at).state;
      HandlingRefusesNothing(o, srv.(security := security), a.pdu, a.check, a.body);
    } else if a.NoteBad? {
      OverflowsKept(o, srv.security, a.ip, Malformed, a.at);
    }
  }

  lemma HandlingRefusesNothing(o: Options, srv: Server, p: Pdu, check: real, body: Body)
    requires 0 < |srv.security.sources| && |srv.security.duplicates| == RING
    ensures var end := Handle(o, srv, p, check, body);
            end.queue == srv.queue && end.security.stats.queueOverflows == srv.security.stats.queueOverflows
  {
    hide IsDuplicate, ReportMalformed;
    OverflowsKept(o, srv.security, p.ip, p.kind, check);
  }

  lemma OverflowsKept(o: Options, s: State, ip: Ip, kind: Kind, at: real)
    requires 0 < |s.sources|
    ensures Accept(o, s, ip, kind, at).state.stats.queueOverflows == s.stats.queueOverflows
    ensures ReportMalformed(o, s, ip, at).stats.queueOverflows == s.stats.queueOverflows
  {
    hide GetSource, Decide;
  }

  /** Main theorem: in every run, the packets taken up followed by those still queued are exactly the packets that
      were admitted and not refused, in order of arrival after those queued at the start; and every refused one is
      counted as an overflow. */
  lemma {:induction false} PacketsKeepTheirOrder(o: Options, capacity: nat, srv: Server, acts: seq<Act>)
    requires PossibleRun(o, capacity, srv, acts)
    ensures var end, book := Play(o, capacity, srv, acts), Book(o, capacity, srv, acts);
            && book.handled + end.queue == srv.queue + book.kept
            && end.security.stats.queueOverflows == srv.security.stats.queueOverflows + book.refused
    decreases acts
  {
    hide Do, LetIn, TakenUp, Refused, Possible;
    if acts != [] {
      var a := acts[0];
      ActIsFair(o, capacity, srv, a);
      var next := Do(o, capacity, srv, a);
      PacketsKeepTheirOrder(o, capacity, next, acts[1..]);
      RefusedTakesNothing(o, capacity, srv, a);
      var end, rest := Play(o, capacity, next, acts[1..]), Book(o, capacity, next, acts[1..]);
      var kept := if Refused(capacity, srv, a) then [] else LetIn(o, srv, a);
      var taken := TakenUp(o, srv, a);
      Concatenate(srv.queue, kept, taken, next.queue, rest.kept, rest.handled, end.queue);
      assert [] + rest.kept == rest.kept && [] + rest.handled == rest.handled;
    }
  }

  lemma Concatenate<T>(queue: seq<T>, kept: seq<T>, taken: seq<T>, next: seq<T>, later: seq<T>, handled: seq<T>, end: seq<T>)
    requires queue + kept == taken + next && handled + end == next + later
    ensures (taken + handled) + end == queue + (kept + later)
  {
    assert (taken + handled) + end == taken + (handled + end);
    assert taken + (next + later) == (taken + next) + later;
    assert (queue + kept) + later == queue + (kept + later);
  }

  lemma RefusedTakesNothing(o: Options, capacity: nat, srv: Server, a: Act)
    requires 0 < |srv.security.sources|
    ensures Refused(capacity, srv, a) ==> TakenUp(o, srv, a) == []
  {
  }

  /** The queue never holds more than its capacity. */
  lemma {:induction false} QueueStaysBounded(o: Options, capacity: nat, srv: Server, acts: seq<Act>)
    requires PossibleRun(o, capacity, srv, acts) && |srv.queue| <= capacity
    ensures |Play(o, capacity, srv, acts).queue| <= capacity
    decreases acts
  {
    hide Accept, IsDuplicate, ReportMalformed, RecordWrite;
    if acts != [] {
      QueueStaysBounded(o, capacity, Do(o, capacity, srv, acts[0]), acts[1..]);
    }
  }
}
