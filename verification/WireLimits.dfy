/** Admission control seen from the bytes on the wire. */
module WireLimits {
  import opened Cidr
  import opened Fnv
  import opened TokenBucket
  import opened FloodBlocker
  import opened SourceTable
  import opened Admission
  import opened AdmissionRuns
  import opened Forgetting
  import opened History
  import opened RateBounds
  import opened Wrappers

  /** A packet as received, with what the network-layer decoder says about it. */
  datatype Datagram = Datagram(pdu: seq<Byte>, npdu: Npdu)

  /** The packets of the run are these datagrams. */
  ghost predicate Carries(r: Run, wire: seq<Datagram>) {
    && |wire| == |r.es|
    && forall i :: 0 <= i < |r.es| && r.es[i].Packet? ==>
         wire[i].npdu.length <= |wire[i].pdu| && r.es[i].kind == Classify(wire[i].pdu, wire[i].npdu)
  }

  /** The service a datagram asks for, told by its bytes. */
  predicate Requests(d: Datagram, sv: Service) {
    match sv
    case AnyPacket => true
    case WhoIsOnly => IsWhoIs(d.pdu, d.npdu)
    case WriteOnly => IsWrite(d.pdu, d.npdu)
  }

  /** How many of the datagrams from `lo` to before `hi` come from `ip`, ask for the service and are accepted. */
  ghost function CountWire(r: Run, wire: seq<Datagram>, ip: Ip, sv: Service, lo: nat, hi: nat): nat
    requires lo <= hi <= |r.es| == |wire| && 0 < r.o.maxSources
  {
    if lo == hi then 0
    else
      var e := r.es[hi - 1];
      CountWire(r, wire, ip, sv, lo, hi - 1)
      + if e.Packet? && e.ip == ip && VerdictOf(r, hi - 1) == Accepted && Requests(wire[hi - 1], sv) then 1 else 0
  }

  lemma {:induction false} WireIsCounted(r: Run, wire: seq<Datagram>, ip: Ip, sv: Service, lo: nat, hi: nat)
    requires ValidOptions(r.o) && Carries(r, wire) && lo <= hi <= |r.es|
    ensures CountWire(r, wire, ip, sv, lo, hi) == CountOf(r, ip, sv, lo, hi)
  {
    hide Accept, IsWhoIs, IsWrite, Classify, CountOf;
    if lo < hi {
      WireIsCounted(r, wire, ip, sv, lo, hi - 1);
      CountStep(r, ip, sv, lo, hi - 1);
    } else {
      NothingCounted(r, ip, sv, lo);
    }
  }

  /** Under any options and in any run: in a stretch in which its entry is retained, the Who-Is requests accepted from a
      source, told by their bytes, are at most the burst plus what the rate adds; likewise its WriteProperty requests, and
      its packets as a whole. */
  lemma WireIsLimited(r: Run, wire: seq<Datagram>, ip: Ip, sv: Service, lo: nat, hi: nat)
    requires Proper(r) && Carries(r, wire) && lo < hi <= |r.es| && Retained(r, ip, lo, hi)
    ensures CountWire(r, wire, ip, sv, lo, hi) as real
            <= Burst(r.o, sv) + Rate(r.o, sv) * (r.es[hi - 1].now - r.es[lo].now)
  {
    hide CountWire, CountOf, Retained, Carries, Ordered;
    WireIsCounted(r, wire, ip, sv, lo, hi);
    RetainedSourceIsLimited(r, ip, sv, lo, hi);
  }

  /** What the bytes of a packet do to a source that passes the lists and is not blocked: packets without application
      data and confirmed requests cut short are dropped as malformed at no charge; no other packet is. Only Who-Is requests
      are charged to the Who-Is bucket, and only WriteProperty requests to the write bucket. */
  lemma BytesDecide(o: Options, g: Bucket, x: Source, d: Datagram, now: real)
    requires d.npdu.length <= |d.pdu| && Passes(o.allowed, o.denied, x.ip) && x.flood.blockedUntil <= now
    ensures var r := Decide(o, g, x, Classify(d.pdu, d.npdu), now);
            && (r.verdict == MalformedDrop <==> !HasApdu(d.pdu, d.npdu) || IsCutShort(d.pdu, d.npdu))
            && (r.verdict == MalformedDrop ==> r.global == g && r.source == Blamed(x))
            && (!IsWhoIs(d.pdu, d.npdu) ==> r.source.whoIs == x.whoIs)
            && (!IsWrite(d.pdu, d.npdu) ==> r.source.writes == x.writes)
            && (r.verdict == Accepted ==>
                  forall sv :: Requests(d, sv) ==> LevelAt(o, r.source, sv, now) == LevelAt(o, x, sv, now) - 1.0
                                                   && LevelAt(o, x, sv, now) >= 1.0)
  {
    hide Level, Take, Passes, Classify, IsWhoIs, IsWrite, IsCutShort, HasApdu;
    TakeNow(x.packets, o.perSourceRate, o.perSourceBurst as real, now);
    TakeNow(x.whoIs, o.whoIsRate, o.whoIsBurst as real, now);
    TakeNow(x.writes, o.writeRate, o.writeBurst as real, now);
  }

  /** With security disabled every packet is accepted, counted, and leaves no other trace. */
  lemma DisabledAcceptsAll(o: Options, s: State, ip: Ip, kind: Kind, now: real)
    requires !o.enabled && 0 < |s.sources|
    ensures Accept(o, s, ip, kind, now)
            == Judged(s.(stats := s.stats.(accepted := s.stats.accepted + 1)), Accepted)
  {
  }

  /** What one examined packet costs: a token of the global bucket if there is one, then one of its source, then one of its
      service. Every token is spent whatever comes after, and the packet passes if each bucket asked had one. */
  lemma TokensSpent(o: Options, g: Bucket, x: Source, kind: Kind, now: real)
    ensures var d := Limit(o, g, x, kind, now);
            var global := Level(g, o.globalRate, o.globalBurst as real, now) >= 1.0;
            var packets := global && LevelAt(o, x, AnyPacket, now) >= 1.0;
            var whoIs := packets && kind == WhoIs && LevelAt(o, x, WhoIsOnly, now) >= 1.0;
            var writes := packets && kind == Write && LevelAt(o, x, WriteOnly, now) >= 1.0;
            && Level(d.global, o.globalRate, o.globalBurst as real, now)
               == Level(g, o.globalRate, o.globalBurst as real, now) - (if global then 1.0 else 0.0)
            && LevelAt(o, d.source, AnyPacket, now) == LevelAt(o, x, AnyPacket, now) - (if packets then 1.0 else 0.0)
            && LevelAt(o, d.source, WhoIsOnly, now) == LevelAt(o, x, WhoIsOnly, now) - (if whoIs then 1.0 else 0.0)
            && LevelAt(o, d.source, WriteOnly, now) == LevelAt(o, x, WriteOnly, now) - (if writes then 1.0 else 0.0)
            && d.verdict == (if packets && (kind == WhoIs ==> whoIs) && (kind == Write ==> writes) then Accepted else RateDrop)
  {
    hide Level, Take, Violate;
    TakeNow(g, o.globalRate, o.globalBurst as real, now);
    TakeNow(x.packets, o.perSourceRate, o.perSourceBurst as real, now);
    TakeNow(x.whoIs, o.whoIsRate, o.whoIsBurst as real, now);
    TakeNow(x.writes, o.writeRate, o.writeBurst as real, now);
  }
}
