/** Runs of the admission machine under fixed options. */
module AdmissionRuns {
  import opened Cidr
  import opened Admission
  import opened Wrappers

  /** What can happen between two configurations: a packet, a packet the server could not decode, a packet its full
      queue refused, a reading of the statistics, or their reset. */
  datatype Event =
    | Packet(now: real, ip: Ip, kind: Kind)
    | BadPdu(now: real, ip: Ip)
    | Overflow(now: real)
    | Reading(now: real)
    | Reset(now: real)

  /** Is the event a packet of some source? */
  predicate Sent(e: Event) {
    e.Packet? || e.BadPdu?
  }

  function Step(o: Options, s: State, e: Event): (r: State)
    requires 0 < |s.sources|
    ensures |r.sources| == |s.sources|
  {
    match e
    case Packet(now, ip, kind) => Accept(o, s, ip, kind, now).state
    case BadPdu(now, ip) => ReportMalformed(o, s, ip, now)
    case Overflow(now) => ReportOverflow(o, s, now)
    case Reading(now) => Sweep(o, s, now)
    case Reset(_) => ResetCounters(s)
  }

  /** The state after the first `n` events. */
  function After(o: Options, s: State, es: seq<Event>, n: nat): (r: State)
    requires n <= |es| && 0 < |s.sources|
    ensures |r.sources| == |s.sources|
  {
    if n == 0 then s else Step(o, After(o, s, es, n - 1), es[n - 1])
  }

  /** The verdict on event `j`, a packet. */
  function VerdictAt(o: Options, s: State, es: seq<Event>, j: nat): Verdict
    requires j < |es| && es[j].Packet? && 0 < |s.sources|
  {
    Accept(o, After(o, s, es, j), es[j].ip, es[j].kind, es[j].now).verdict
  }

  /** The verdicts of a whole run; events that are not packets have none. */
  ghost function Verdicts(o: Options, s: State, es: seq<Event>): seq<Option<Verdict>>
    requires 0 < |s.sources|
  {
    seq(|es|, j requires 0 <= j < |es| => if es[j].Packet? then Some(VerdictAt(o, s, es, j)) else None)
  }

  /** The clock is monotone and starts no earlier than `start`. */
  ghost predicate Ordered(start: real, es: seq<Event>) {
    && 0.0 <= start
    && (forall i :: 0 <= i < |es| ==> start <= es[i].now)
    && (forall i, j :: 0 <= i <= j < |es| ==> es[i].now <= es[j].now)
  }

  /** The time reached after `n` events. */
  function Clock(start: real, es: seq<Event>, n: nat): real
    requires n <= |es|
  {
    if n == 0 then start else es[n - 1].now
  }
}
