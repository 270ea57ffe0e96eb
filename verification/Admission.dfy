/** Admission control of the BACnet server as a state machine on values: what one packet, one malformed report,
    one statistics sweep or one recorded write does to the state. The class `Security` implements these steps in
    place. */
module Admission {
  import opened Cidr
  import opened Fnv
  import opened TokenBucket
  import opened FloodBlocker
  import opened SourceTable

  const RING: nat := 4096

  const CURSOR_LIMIT: nat := 0x1_0000

  datatype Options = Options(
    enabled: bool,
    perSourceRate: real, perSourceBurst: nat,
    globalRate: real, globalBurst: nat,
    whoIsRate: real, whoIsBurst: nat,
    writeRate: real, writeBurst: nat,
    floodViolations: nat, maxSources: nat,
    floodWindow: real, blockDuration: real, duplicateWindow: real, sourceTtl: real, logInterval: real,
    allowed: seq<Network>, denied: seq<Network>)

  /** The limits the constructor and `configure` insist on. */
  predicate ValidOptions(o: Options) {
    && 0.0 < o.perSourceRate && 0 < o.perSourceBurst
    && 0.0 < o.globalRate && 0 < o.globalBurst
    && 0.0 < o.whoIsRate && 0 < o.whoIsBurst
    && 0.0 < o.writeRate && 0 < o.writeBurst
    && 0 < o.floodViolations && 0 < o.maxSources <= 65535
    && 0.0 < o.floodWindow && 0.0 < o.blockDuration && 0.0 < o.duplicateWindow
    && 0.0 < o.sourceTtl && 0.0 < o.logInterval
  }

  function Sizes(o: Options): Bursts {
    Bursts(o.perSourceBurst as real, o.whoIsBurst as real, o.writeBurst as real)
  }

  function FloodPolicy(o: Options): Policy {
    Policy(o.floodViolations, o.floodWindow, o.blockDuration)
  }

  datatype Stats = Stats(accepted: nat, rateDrops: nat, aclDrops: nat, blockedDrops: nat, malformed: nat,
                         queueOverflows: nat, deduplicated: nat)

  const NO_STATS := Stats(0, 0, 0, 0, 0, 0, 0)

  /** One aggregated warning: when it was raised and how many drops it reports. */
  datatype Report = Report(time: real, count: nat)

  datatype Log = Log(last: real, pending: nat, reports: seq<Report>)

  function Warn(log: Log, interval: real, now: real): Log {
    if now - log.last >= interval then Log(now, 0, log.reports + [Report(now, log.pending + 1)])
    else log.(pending := log.pending + 1)
  }

  datatype Duplicate = Duplicate(used: bool, ip: Ip, hash: Word, expires: real)

  const NO_DUPLICATE := Duplicate(false, 0, 0, 0.0)

  datatype State = State(sources: seq<Source>, global: Bucket, log: Log, stats: Stats,
                         duplicates: seq<Duplicate>, cursor: nat)

  /** The state right after construction or a successful `configure`; the cursor and the statistics survive. */
  function Configured(o: Options, stats: Stats, cursor: nat, now: real): (r: State)
    ensures |r.sources| == o.maxSources && |r.duplicates| == RING
  {
    State(seq(o.maxSources, _ => EMPTY), Bucket(o.globalBurst as real, now), Log(now, 0, []), stats,
          seq(RING, _ => NO_DUPLICATE), cursor)
  }

  /** What the network-layer decoder says about a packet: the length of its header (negative if it refused the
      packet) and whether the packet is a network-layer message. */
  datatype Npdu = Npdu(length: int, networkMessage: bool)

  datatype Kind = Malformed | Other | WhoIs | Write

  const UNCONFIRMED_REQUEST: nat := 0x10
  const CONFIRMED_REQUEST: nat := 0x00
  const WHO_IS: nat := 8
  const WRITE_PROPERTY: nat := 15

  function PduType(b: Byte): nat {
    b - b % 16
  }

  /** The packet carries application data: two bytes of it at least. */
  predicate HasApdu(pdu: seq<Byte>, npdu: Npdu) {
    0 <= npdu.length <= |pdu| - 2 && !npdu.networkMessage
  }

  /** The bytes of a Who-Is request: an unconfirmed request, service 8. */
  predicate IsWhoIs(pdu: seq<Byte>, npdu: Npdu) {
    HasApdu(pdu, npdu) && pdu[npdu.length] / 16 == 1 && pdu[npdu.length + 1] == 8
  }

  /** The bytes of a confirmed request too short to name its service. */
  predicate IsCutShort(pdu: seq<Byte>, npdu: Npdu) {
    HasApdu(pdu, npdu) && pdu[npdu.length] / 16 == 0 && |pdu| < npdu.length + 4
  }

  /** The bytes of a WriteProperty request: a confirmed request, service 15. */
  predicate IsWrite(pdu: seq<Byte>, npdu: Npdu) {
    HasApdu(pdu, npdu) && pdu[npdu.length] / 16 == 0 && |pdu| >= npdu.length + 4 && pdu[npdu.length + 3] == 15
  }

  /** How the admission check classifies a packet. */
  function Classify(pdu: seq<Byte>, npdu: Npdu): (kind: Kind)
    requires npdu.length <= |pdu|
    ensures kind == WhoIs <==> IsWhoIs(pdu, npdu)
    ensures kind == Write <==> IsWrite(pdu, npdu)
    ensures kind == Malformed <==> !HasApdu(pdu, npdu) || IsCutShort(pdu, npdu)
  {
    if npdu.length < 0 || npdu.networkMessage || |pdu| - npdu.length < 2 then Malformed
    else
      var apdu := pdu[npdu.length..];
      if PduType(apdu[0]) == UNCONFIRMED_REQUEST && apdu[1] == WHO_IS then WhoIs
      else if PduType(apdu[0]) == CONFIRMED_REQUEST && |apdu| < 4 then Malformed
      else if PduType(apdu[0]) == CONFIRMED_REQUEST && apdu[3] == WRITE_PROPERTY then Write
      else Other
  }

  datatype Verdict = Accepted | AclDrop | BlockedDrop | MalformedDrop | RateDrop

  datatype Decision = Decision(verdict: Verdict, global: Bucket, source: Source)

  function Limited(o: Options, g: Bucket, x: Source, now: real): Decision {
    Decision(RateDrop, g, x.(flood := Violate(x.flood, FloodPolicy(o), now),
                             counters := x.counters.(rateDrops := x.counters.rateDrops + 1)))
  }

  function Passed(g: Bucket, x: Source): Decision {
    Decision(Accepted, g, x.(counters := x.counters.(accepted := x.counters.accepted + 1)))
  }

  /** The rate limits in order: the global bucket, the bucket of the source, then the bucket of the service. A
      token taken from an earlier bucket is spent even if a later one refuses. */
  function Limit(o: Options, g: Bucket, x: Source, kind: Kind, now: real): Decision {
    var global := Take(g, o.globalRate, o.globalBurst as real, now);
    if !global.ok then Limited(o, global.bucket, x, now)
    else
      var packets := Take(x.packets, o.perSourceRate, o.perSourceBurst as real, now);
      var y := x.(packets := packets.bucket);
      if !packets.ok then Limited(o, global.bucket, y, now)
      else if kind == WhoIs then
        var whoIs := Take(y.whoIs, o.whoIsRate, o.whoIsBurst as real, now);
        var z := y.(whoIs := whoIs.bucket);
        if whoIs.ok then Passed(global.bucket, z) else Limited(o, global.bucket, z, now)
      else if kind == Write then
        var writes := Take(y.writes, o.writeRate, o.writeBurst as real, now);
        var z := y.(writes := writes.bucket);
        if writes.ok then Passed(global.bucket, z) else Limited(o, global.bucket, z, now)
      else Passed(global.bucket, y)
  }

  /** The verdict on one packet of a source whose entry is `x`, and what it leaves behind. */
  function Decide(o: Options, g: Bucket, x: Source, kind: Kind, now: real): Decision {
    if !Passes(o.allowed, o.denied, x.ip) then
      Decision(AclDrop, g, x.(counters := x.counters.(aclDrops := x.counters.aclDrops + 1)))
    else if x.flood.blockedUntil > now then
      Decision(BlockedDrop, g, x.(counters := x.counters.(blockedDrops := x.counters.blockedDrops + 1)))
    else if kind == Malformed then
      Decision(MalformedDrop, g, x.(counters := x.counters.(malformed := x.counters.malformed + 1)))
    else Limit(o, g, x, kind, now)
  }

  function Tally(s: Stats, v: Verdict): Stats {
    match v
    case Accepted => s.(accepted := s.accepted + 1)
    case AclDrop => s.(aclDrops := s.aclDrops + 1)
    case BlockedDrop => s.(blockedDrops := s.blockedDrops + 1)
    case MalformedDrop => s.(malformed := s.malformed + 1)
    case RateDrop => s.(rateDrops := s.rateDrops + 1)
  }

  datatype Judged = Judged(state: State, verdict: Verdict)

  /** One packet of `ip` arriving at `now`. */
  function Accept(o: Options, s: State, ip: Ip, kind: Kind, now: real): (r: Judged)
    requires 0 < |s.sources|
    ensures |r.state.sources| == |s.sources|
    ensures r.state.duplicates == s.duplicates && r.state.cursor == s.cursor
  {
    if !o.enabled then Judged(s.(stats := Tally(s.stats, Accepted)), Accepted)
    else
      var found := GetSource(s.sources, ip, Sizes(o), o.sourceTtl, now);
      var d := Decide(o, s.global, found.table[found.index], kind, now);
      Judged(s.(sources := found.table[found.index := d.source], global := d.global,
                  stats := Tally(s.stats, d.verdict),
                  log := if d.verdict == Accepted then s.log else Warn(s.log, o.logInterval, now)),
               d.verdict)
  }

  /** The server reports a packet it could not decode. */
  function ReportMalformed(o: Options, s: State, ip: Ip, now: real): (r: State)
    requires 0 < |s.sources|
    ensures |r.sources| == |s.sources|
    ensures r.duplicates == s.duplicates && r.cursor == s.cursor && r.global == s.global
  {
    var found := GetSource(s.sources, ip, Sizes(o), o.sourceTtl, now);
    var x := found.table[found.index];
    s.(sources := found.table[found.index := x.(counters := x.counters.(malformed := x.counters.malformed + 1))],
       stats := s.stats.(malformed := s.stats.malformed + 1),
       log := Warn(s.log, o.logInterval, now))
  }

  function ReportOverflow(o: Options, s: State, now: real): State {
    s.(stats := s.stats.(queueOverflows := s.stats.queueOverflows + 1), log := Warn(s.log, o.logInterval, now))
  }

  /** Reading the statistics wipes every entry idle for too long. */
  function Sweep(o: Options, s: State, now: real): (r: State)
    ensures |r.sources| == |s.sources|
  {
    s.(sources := Swept(s.sources, |s.sources|, o.sourceTtl, now))
  }

  /** Resetting the statistics clears the counters and nothing else. */
  function ResetCounters(s: State): (r: State)
    ensures |r.sources| == |s.sources|
  {
    s.(stats := NO_STATS,
       sources := seq(|s.sources|, i requires 0 <= i < |s.sources| => s.sources[i].(counters := NO_COUNTS)))
  }

  /** The address bytes that go into a write fingerprint, low byte first. */
  function IpBytes(ip: Ip): seq<Byte> {
    [ip % 256, ip / 0x100 % 256, ip / 0x1_0000 % 256, ip / 0x100_0000]
  }

  function HashWrite(ip: Ip, apdu: seq<Byte>): Word {
    Hash(IpBytes(ip) + apdu)
  }

  predicate Matches(d: Duplicate, ip: Ip, hash: Word, now: real) {
    d.used && d.expires > now && d.ip == ip && d.hash == hash
  }

  predicate IsDuplicate(o: Options, s: State, ip: Ip, apdu: seq<Byte>, now: real) {
    o.enabled && exists i :: 0 <= i < |s.duplicates| && Matches(s.duplicates[i], ip, HashWrite(ip, apdu), now)
  }

  function Deduplicated(s: State): State {
    s.(stats := s.stats.(deduplicated := s.stats.deduplicated + 1))
  }

  /** A write that was executed is remembered in the next slot of the ring; the cursor is a 16-bit word. */
  function RecordWrite(o: Options, s: State, ip: Ip, apdu: seq<Byte>, now: real): (r: State)
    requires |s.duplicates| == RING
    ensures |r.duplicates| == RING
  {
    if !o.enabled then s
    else
      s.(duplicates := s.duplicates[s.cursor % RING :=
                         Duplicate(true, ip, HashWrite(ip, apdu), now + o.duplicateWindow)],
         cursor := (s.cursor + 1) % CURSOR_LIMIT)
  }
}
