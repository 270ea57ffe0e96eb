/** The server object as it runs: admission control and packet queue updated in place by `poll`, by the handler of
    unsolicited packets and by the return of the write callback. */
module PollServer {
  import opened Cidr
  import opened Fnv
  import opened Admission
  import opened WriteOnce
  import opened Wrappers
  import PduQueue
  import RequestLoop
  import ObjectList
  import Security

  /** The address security goes by: the first four bytes of the link address, 0 for a shorter one. */
  function SourceIp(mac: seq<Byte>): Ip {
    if |mac| < 4 then 0 else mac[0] as nat * 0x100_0000 + mac[1] as nat * 0x1_0000 + mac[2] as nat * 0x100 + mac[3] as nat
  }

  /** What a frame is to the server, given what the network-layer decoder says; network messages and refused packets have
      no application data. */
  function Meaning(f: PduQueue.Frame, npdu: Npdu): (p: Pdu)
    requires npdu.length <= |f.data|
    ensures Genuine(p)
  {
    Pdu(SourceIp(f.source), Classify(f.data, npdu),
        if npdu.length < 0 || npdu.networkMessage then [] else f.data[npdu.length..])
  }

  /** A malformed packet is reported, whatever the service decoder would say; all but a confirmed request without a
      service, which is left alone. It only gets here if security is disabled. */
  function BodyOf(p: Pdu, body: Body): Body {
    if p.kind != Malformed then body else if |p.apdu| < 2 then Garbled else Unsupported
  }

  /** The same told by the bytes of the packet. */
  lemma BodyByBytes(f: PduQueue.Frame, npdu: Npdu, body: Body)
    requires npdu.length <= |f.data|
    ensures BodyOf(Meaning(f, npdu), body) ==
            if !HasApdu(f.data, npdu) then Garbled else if IsCutShort(f.data, npdu) then Unsupported else body
  {
    hide Classify, IsCutShort;
  }

  /** The link address of `ip`, as `SourceIp` reads it. */
  function MacOf(ip: Ip): seq<Byte> {
    [ip / 0x100_0000 % 256, ip / 0x1_0000 % 256, ip / 0x100 % 256, ip % 256]
  }

  /** A frame that carries `apdu` from `ip`, behind a network-layer header of two bytes. */
  function FrameOf(ip: Ip, apdu: seq<Byte>): PduQueue.Frame {
    PduQueue.Frame(MacOf(ip), [0x01, 0x04] + apdu)
  }

  lemma MacRoundTrip(ip: Ip)
    ensures SourceIp(MacOf(ip)) == ip
  {
    ObjectList.OctetsAddUp(ip);
  }

  /** Every genuine write of every address can be received: some frame means it. */
  lemma WritesCanBeReceived(w: Pdu)
    requires w.kind == Write && Genuine(w)
    ensures Meaning(FrameOf(w.ip, w.apdu), Npdu(2, false)) == w
  {
    MacRoundTrip(w.ip);
    assert ([0x01, 0x04] + w.apdu)[2..] == w.apdu;
  }

  /** The decoder never claims a header longer than the packet. */
  ghost predicate Sane(decode: seq<Byte> -> Npdu) {
    forall data :: decode(data).length <= |data|
  }

  /** The frames of a queue as the server understands them. */
  ghost function Meanings(decode: seq<Byte> -> Npdu, frames: seq<PduQueue.Frame>): (ps: seq<Pdu>)
    requires Sane(decode)
    ensures |ps| == |frames|
  {
    seq(|frames|, i requires 0 <= i < |frames| => Meaning(frames[i], decode(frames[i].data)))
  }

  lemma MeaningsQueue(decode: seq<Byte> -> Npdu, frames: seq<PduQueue.Frame>, f: PduQueue.Frame)
    requires Sane(decode)
    ensures Meanings(decode, frames + [f]) == Meanings(decode, frames) + [Meaning(f, decode(f.data))]
    ensures frames != [] ==>
              Meanings(decode, frames)[0] == Meaning(frames[0], decode(frames[0].data))
              && Meanings(decode, frames[1..]) == Meanings(decode, frames)[1..]
  {
    hide Meaning;
  }

  /** The rounds of a client call as the server sees them: decoded by its decoder, on a clock that does not go back, with
      packets that fit the queue, and a handler that never fails. */
  ghost predicate Orderly(decode: seq<Byte> -> Npdu, now: real, maxLength: nat, rounds: seq<RequestLoop.Round>) {
    && (forall r :: r in rounds ==> r.packet.npdu == decode(r.packet.frame.data) && r.packet.npdu.length <= |r.packet.frame.data|)
    && (forall r :: r in rounds ==> now <= r.at && |r.packet.frame.data| <= maxLength && r.handled)
    && Rising(rounds)
  }

  /** The packets of some rounds arriving at the server. */
  ghost function Arrivals(decode: seq<Byte> -> Npdu, rounds: seq<RequestLoop.Round>): (acts: seq<Act>)
    requires Sane(decode)
    ensures |acts| == |rounds|
  {
    seq(|rounds|, i requires 0 <= i < |rounds| =>
      Arrive(rounds[i].at, Meaning(rounds[i].packet.frame, decode(rounds[i].packet.frame.data))))
  }

  ghost predicate Rising(rounds: seq<RequestLoop.Round>) {
    forall i, j :: 0 <= i <= j < |rounds| ==> rounds[i].at <= rounds[j].at
  }

  lemma RisingMore(front: seq<RequestLoop.Round>, last: RequestLoop.Round)
    requires Rising(front) && forall f :: f in front ==> f.at <= last.at
    ensures Rising(front + [last])
  {
  }

  lemma RisingFront(rounds: seq<RequestLoop.Round>)
    requires rounds != [] && Rising(rounds)
    ensures var front, last := rounds[..|rounds| - 1], rounds[|rounds| - 1];
            Rising(front) && forall f :: f in front ==> f in rounds && f.at <= last.at
  {
  }

  /** What is handed on is part of what was received, in the same order. */
  lemma {:induction false} ForwardedInOrder(rounds: seq<RequestLoop.Round>, expected: Byte)
    requires (forall r :: r in rounds ==> RequestLoop.Decoded(r.packet)) && Rising(rounds)
    ensures var fs := RequestLoop.Forwarded(rounds, expected);
            (forall f :: f in fs ==> f in rounds) && Rising(fs)
  {
    hide RequestLoop.ActionOn, RequestLoop.Decoded, Rising;
    if rounds != [] {
      var front, last := rounds[..|rounds| - 1], rounds[|rounds| - 1];
      RisingFront(rounds);
      ForwardedInOrder(front, expected);
      var before := RequestLoop.Forwarded(front, expected);
      RisingMore(before, last);
      assert before + [] == before;
    } else {
      NoRounds();
    }
  }

  ghost function RoundsOf(hs: seq<RequestLoop.Heard>): (rounds: seq<RequestLoop.Round>)
    ensures |rounds| == |hs|
  {
    seq(|hs|, i requires 0 <= i < |hs| => hs[i].round)
  }

  lemma {:induction false} ForeignersInOrder(hs: seq<RequestLoop.Heard>)
    requires (forall h :: h in hs ==> RequestLoop.Decoded(h.round.packet)) && Rising(RoundsOf(hs))
    ensures var fs := RequestLoop.Foreigners(hs);
            (forall f :: f in fs ==> f in RoundsOf(hs)) && Rising(fs)
  {
    hide RequestLoop.Sight, RequestLoop.Decoded, Rising;
    if hs != [] {
      var front, last := hs[..|hs| - 1], hs[|hs| - 1];
      var rounds := RoundsOf(hs);
      assert rounds[..|rounds| - 1] == RoundsOf(front) && rounds[|rounds| - 1] == last.round;
      RisingFront(rounds);
      ForeignersInOrder(front);
      var before := RequestLoop.Foreigners(front);
      RisingMore(before, last.round);
      assert before + [] == before;
      assert last.round in rounds;
    } else {
      NoRounds();
    }
  }

  lemma HeardHandedOn(decode: seq<Byte> -> Npdu, now: real, maxLength: nat, hs: seq<RequestLoop.Heard>, stop: nat,
                      deadline: nat)
    requires Orderly(decode, now, maxLength, RoundsOf(hs)) && stop <= |hs|
    requires forall i :: 0 <= i < stop ==>
               RequestLoop.Decoded(hs[i].round.packet) && RequestLoop.HeardOut(hs[i], deadline)
    ensures forall f :: f in RoundsOf(hs[..stop]) ==> now <= f.at && 0 < |f.packet.frame.data| <= maxLength
    ensures Rising(RoundsOf(hs[..stop]))
  {
    hide RequestLoop.Sight;
    var rounds := RoundsOf(hs);
    assert forall i :: 0 <= i < |hs| ==> rounds[i] == hs[i].round && rounds[i] in rounds;
    assert forall i :: 0 <= i < stop ==> RoundsOf(hs[..stop])[i] == rounds[i];
  }

  lemma OrderlyDecoded(decode: seq<Byte> -> Npdu, now: real, maxLength: nat, hs: seq<RequestLoop.Heard>)
    requires Orderly(decode, now, maxLength, RoundsOf(hs))
    ensures forall h :: h in hs ==> RequestLoop.Decoded(h.round.packet) && h.round.handled
  {
    var rounds := RoundsOf(hs);
    assert forall i :: 0 <= i < |hs| ==> rounds[i] == hs[i].round && rounds[i] in rounds;
  }

  lemma NoRounds()
    ensures Rising([])
  {
  }

  /** Everything handed on before the loop stops is a packet that fits the queue. */
  lemma HandedOn(decode: seq<Byte> -> Npdu, now: real, maxLength: nat, rounds: seq<RequestLoop.Round>, stop: nat,
                 deadline: nat, expected: Byte)
    requires Orderly(decode, now, maxLength, rounds) && stop <= |rounds|
    requires forall r :: r in rounds[..stop] ==> RequestLoop.Decoded(r.packet)
    requires forall i :: 0 <= i < stop ==>
               RequestLoop.Decoded(rounds[i].packet) && RequestLoop.Passes(rounds[i], deadline, expected)
    ensures forall f :: f in rounds[..stop] ==> now <= f.at && 0 < |f.packet.frame.data| <= maxLength
    ensures Rising(rounds[..stop])
  {
  }

  lemma ArrivalPossible(srv: Server, a: Act)
    requires a.Arrive? && srv.now <= a.at && Genuine(a.pdu)
    ensures Possible(srv, a)
  {
  }

  lemma NoArrivals(decode: seq<Byte> -> Npdu, o: Options, srv: Server)
    requires Sane(decode)
    ensures Arrivals(decode, []) == []
    ensures PossibleRun(o, PduQueue.CAPACITY, srv, []) && Play(o, PduQueue.CAPACITY, srv, []) == srv
  {
  }

  lemma ArrivalsMore(decode: seq<Byte> -> Npdu, fs: seq<RequestLoop.Round>, i: nat)
    requires Sane(decode) && i < |fs|
    ensures Arrivals(decode, fs[..i + 1]) ==
            Arrivals(decode, fs[..i]) + [Arrive(fs[i].at, Meaning(fs[i].packet.frame, decode(fs[i].packet.frame.data)))]
  {
    hide Meaning;
  }

  lemma RisesFrom(fs: seq<RequestLoop.Round>)
    requires Rising(fs)
    ensures forall i, j :: 0 <= i <= j < |fs| ==> fs[i].at <= fs[j].at
  {
  }

  /** One act more. */
  lemma {:induction false} PlayMore(o: Options, capacity: nat, srv: Server, acts: seq<Act>, a: Act)
    requires PossibleRun(o, capacity, srv, acts)
    requires var mid := Play(o, capacity, srv, acts);
             Possible(mid, a) && 0 < |mid.security.sources| && |mid.security.duplicates| == RING
    ensures PossibleRun(o, capacity, srv, acts + [a])
    ensures Play(o, capacity, srv, acts + [a]) == Do(o, capacity, Play(o, capacity, srv, acts), a)
    decreases acts
  {
    hide Do;
    if acts == [] {
      assert acts + [a] == [a] && [a][1..] == [];
      assert PossibleRun(o, capacity, Do(o, capacity, srv, a), []);
    } else {
      assert (acts + [a])[1..] == acts[1..] + [a];
      PlayMore(o, capacity, Do(o, capacity, srv, acts[0]), acts[1..], a);
    }
  }

  class PollServer {
    const security: Security.Security
    const queue: PduQueue.PduQueue
    /** The network-layer decoder. */
    const decode: seq<Byte> -> Npdu
    /** The write callback that is running, if any. */
    var phase: Phase
    /** The successful executions of the write callback. */
    ghost var log: seq<Execution>
    ghost var now: real

    ghost predicate Valid()
      reads this, security, security.sources, queue
    {
      && security.Valid() && queue.Valid()
      && Sane(decode)
    }

    ghost function View(): (srv: Server)
      requires Valid()
      reads this, security, security.sources, security.duplicates, queue, queue.pending
      ensures 0 < |srv.security.sources| && |srv.security.duplicates| == RING && srv.now == now
    {
      Server(security.View(), Meanings(decode, queue.Contents()), phase, log, now)
    }

    constructor (security: Security.Security, queue: PduQueue.PduQueue, decode: seq<Byte> -> Npdu, now: real)
      requires security.Valid() && queue.Valid() && queue.Contents() == []
      requires Sane(decode)
      ensures Valid() && this.security == security && this.queue == queue && this.decode == decode
      ensures View() == Server(security.View(), [], Idle, [], now)
    {
      this.security := security;
      this.queue := queue;
      this.decode := decode;
      phase := Idle;
      log := [];
      this.now := now;
    }

    /** A packet comes in while a client call waits for something else: it is checked and queued. */
    method QueueUnsolicited(f: PduQueue.Frame, at: real)
      requires Valid() && now <= at && 0 < |f.data| <= queue.maxLength
      modifies this`now, security, security.sources, queue, queue.pending
      ensures Valid() && security.options == old(security.options) && security.sources == old(security.sources)
      ensures View() == Do(security.options, PduQueue.CAPACITY, old(View()), Arrive(at, Meaning(f, decode(f.data))))
    {
      hide Admission.Accept, Classify, ReportOverflow, Meanings;
      MeaningsQueue(decode, queue.Contents(), f);
      var npdu := decode(f.data);
      var admitted, verdict := security.Accept(SourceIp(f.source), f.data, npdu, at);
      now := at;
      if admitted {
        var queued := queue.Queue(f);
        if !queued {
          security.QueueOverflow(at);
        }
      }
    }

    /** A client call of the mixed server: it waits for its answer, and what else comes in is checked and queued. Every
        foreign packet before the answer reaches the server exactly once, in order of arrival. */
    method AwaitAnswer(rounds: seq<RequestLoop.Round>, deadline: nat, expected: Byte, maxApdu: nat)
      returns (status: RequestLoop.Status, ghost stop: nat)
      requires Valid() && Orderly(decode, now, queue.maxLength, rounds)
      modifies this`now, security, security.sources, queue, queue.pending
      ensures Valid() && security.options == old(security.options)
      ensures stop <= |rounds| && forall r :: r in rounds[..stop] ==> RequestLoop.Decoded(r.packet)
      ensures forall i :: 0 <= i < stop ==> RequestLoop.Passes(rounds[i], deadline, expected)
      ensures match status
              case TimedOut =>
                stop < |rounds| ==>
                  rounds[stop].before >= deadline || rounds[stop].again == deadline || rounds[stop].packet.frame.data == []
              case HandlerFailed => false
              case Answered(kind, apdu) =>
                stop < |rounds| && RequestLoop.ActionOn(rounds[stop].packet, expected) == RequestLoop.Return(kind)
                && apdu <= RequestLoop.Apdu(rounds[stop].packet)
      ensures var acts := Arrivals(decode, RequestLoop.Forwarded(rounds[..stop], expected));
              PossibleRun(security.options, PduQueue.CAPACITY, old(View()), acts)
              && View() == Play(security.options, PduQueue.CAPACITY, old(View()), acts)
    {
      hide Do, Meanings, Valid, View, RequestLoop.ActionOn, RequestLoop.Apdu, RequestLoop.InTime, Meaning,
        RequestLoop.Forwarded, RequestLoop.Passes;
      var forwarded, end;
      status, forwarded, end := RequestLoop.SendAndWait(rounds, deadline, expected, maxApdu);
      stop := end;
      HandedOn(decode, now, queue.maxLength, rounds, stop, deadline, expected);
      ForwardedInOrder(rounds[..stop], expected);
      QueueAll(forwarded);
    }

    /** A device discovery of the mixed server: what else comes in is checked and queued, exactly once and in order of
        arrival. */
    method Discover(hs: seq<RequestLoop.Heard>, deadline: nat, own: int)
      returns (devices: seq<RequestLoop.Device>, ghost stop: nat)
      requires Valid() && Orderly(decode, now, queue.maxLength, RoundsOf(hs))
      modifies this`now, security, security.sources, queue, queue.pending
      ensures Valid() && security.options == old(security.options)
      ensures stop <= |hs| && forall h :: h in hs[..stop] ==> RequestLoop.Decoded(h.round.packet)
      ensures devices == RequestLoop.Collected(hs[..stop], own)
      ensures var acts := Arrivals(decode, RequestLoop.Foreigners(hs[..stop]));
              PossibleRun(security.options, PduQueue.CAPACITY, old(View()), acts)
              && View() == Play(security.options, PduQueue.CAPACITY, old(View()), acts)
    {
      hide Do, Meanings, Valid, View, RequestLoop.Sight, RequestLoop.Collected, RequestLoop.Foreigners, Meaning;
      OrderlyDecoded(decode, now, queue.maxLength, hs);
      var forwarded, end, failed;
      devices, forwarded, end, failed := RequestLoop.Collect(hs, deadline, own);
      stop := end;
      HeardHandedOn(decode, now, queue.maxLength, hs, stop, deadline);
      ForeignersInOrder(hs[..stop]);
      QueueAll(forwarded);
    }

    /** Checks and queues the packets of some rounds. */
    method QueueAll(fs: seq<RequestLoop.Round>)
      requires Valid() && Rising(fs)
      requires forall f :: f in fs ==> now <= f.at && 0 < |f.packet.frame.data| <= queue.maxLength
      modifies this`now, security, security.sources, queue, queue.pending
      ensures Valid() && security.options == old(security.options)
      ensures var acts := Arrivals(decode, fs);
              PossibleRun(security.options, PduQueue.CAPACITY, old(View()), acts)
              && View() == Play(security.options, PduQueue.CAPACITY, old(View()), acts)
    {
      hide Do, Meanings, Meaning, Possible, View, Security.Security.Valid, PduQueue.PduQueue.Valid, Play,
        PossibleRun, Arrivals, Rising;
      ghost var o, srv := security.options, View();
      NoArrivals(decode, o, srv);
      RisesFrom(fs);
      for i := 0 to |fs|
        invariant Valid() && security.options == o
        invariant security.sources == old(security.sources)
        invariant forall k :: i <= k < |fs| ==> now <= fs[k].at
        invariant PossibleRun(o, PduQueue.CAPACITY, srv, Arrivals(decode, fs[..i]))
        invariant View() == Play(o, PduQueue.CAPACITY, srv, Arrivals(decode, fs[..i]))
      {
        ghost var a := Arrive(fs[i].at, Meaning(fs[i].packet.frame, decode(fs[i].packet.frame.data)));
        ArrivalsMore(decode, fs, i);
        ArrivalPossible(View(), a);
        PlayMore(o, PduQueue.CAPACITY, srv, Arrivals(decode, fs[..i]), a);
        QueueUnsolicited(fs[i].packet.frame, fs[i].at);
      }
      assert fs[..|fs|] == fs;
    }

    /** One poll up to the point where it is done or hands a write to the callback. `f` is what the socket would
        deliver; it is looked at only if the queue is empty. */
    method Poll(f: Option<PduQueue.Frame>, at: real, check: real, body: Body)
      requires Valid() && phase.Idle? && now <= at <= check
      modifies this`phase, this`now, security, security.sources, queue
      ensures Valid() && security.options == old(security.options)
      ensures var srv := old(View());
              if srv.queue == [] && f == None then View() == srv.(now := check)
              else
                var p := if srv.queue == [] then Meaning(f.value, decode(f.value.data)) else srv.queue[0];
                View() == Do(security.options, PduQueue.CAPACITY, srv, Act.Poll(at, p, check, BodyOf(p, body)))
    {
      hide Admission.Accept, Classify, Handle, Meanings, Security.Security.View;
      MeaningsQueue(decode, queue.Contents(), PduQueue.NO_FRAME);
      var taken := queue.Pop();
      if taken.Some? {
        TakeUp(taken.value, check, body);
      } else if f.Some? {
        Receive(f.value, at, check, body);
      } else {
        now := check;
      }
    }

    /** Checks one packet from the socket and, if admitted, works on it. */
    method Receive(f: PduQueue.Frame, at: real, check: real, body: Body)
      requires Valid() && phase.Idle?
      modifies this`phase, this`now, security, security.sources
      ensures Valid() && security.options == old(security.options)
      ensures var srv, p := old(View()), Meaning(f, decode(f.data));
              var r := Admission.Accept(security.options, srv.security, p.ip, p.kind, at);
              View() == if r.verdict != Accepted then srv.(security := r.state, now := check)
                        else Handle(security.options, srv.(security := r.state), p, check, BodyOf(p, body))
    {
      hide Admission.Accept, Classify, Handle, Meanings;
      var npdu := decode(f.data);
      var admitted, verdict := security.Accept(SourceIp(f.source), f.data, npdu, at);
      if admitted {
        TakeUp(f, check, body);
      } else {
        now := check;
      }
    }

    /** Works on one admitted packet. */
    method TakeUp(f: PduQueue.Frame, check: real, body: Body)
      requires Valid() && phase.Idle?
      modifies this`phase, this`now, security, security.sources
      ensures Valid() && security.options == old(security.options)
      ensures var p := Meaning(f, decode(f.data));
              View() == Handle(security.options, old(View()), p, check, BodyOf(p, body))
    {
      hide Classify, ReportMalformed, IsDuplicate, Meanings;
      var p := Meaning(f, decode(f.data));
      now := check;
      if BodyOf(p, body) == Garbled {
        security.NoteMalformed(p.ip, check);
      } else if p.kind == Write {
        var seen := security.IsDuplicateWrite(p.ip, p.apdu, check);
        if !seen && body == Executable {
          phase := Running(p.ip, p.apdu, check);
        }
      }
    }

    /** The write callback returns. */
    method CallbackReturns(at: real, ok: bool)
      requires Valid() && phase.Running? && now <= at
      modifies this, security, security.duplicates
      ensures Valid() && security.options == old(security.options)
      ensures View() == Do(security.options, PduQueue.CAPACITY, old(View()), Finish(at, ok))
    {
      hide Admission.RecordWrite;
      if ok {
        security.RecordWrite(phase.ip, phase.apdu, at);
        log := log + [Execution(phase.ip, phase.apdu, phase.start, at)];
      }
      now := at;
      phase := Idle;
    }
  }
}
