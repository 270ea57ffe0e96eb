/** The server's security object: the state of `Admission` held in fields and arrays that are updated in place. */
module Security {
  import opened Cidr
  import opened Fnv
  import opened TokenBucket
  import opened FloodBlocker
  import opened SourceTable
  import opened Admission
  import opened Wrappers
  import Configuration

  class Security {
    var options: Options
    var stats: Stats
    var sources: array<Source>
    var sourceCount: nat
    var global: Bucket
    var lastLog: real
    var pendingWarnings: nat
    var duplicates: array<Duplicate>
    var duplicateCursor: nat
    /** The warnings raised since the last configuration. */
    ghost var reports: seq<Report>

    ghost predicate Valid()
      reads this, sources
    {
      && ValidOptions(options)
      && sources.Length == options.maxSources
      && sourceCount == Used(sources[..], sources.Length)
      && duplicates.Length == RING
      && duplicateCursor < CURSOR_LIMIT
    }

    ghost function View(): State
      reads this, sources, duplicates
    {
      State(sources[..], global, Log(lastLog, pendingWarnings, reports), stats, duplicates[..], duplicateCursor)
    }

    constructor (o: Options, now: real)
      requires ValidOptions(o)
      ensures Valid() && options == o && View() == Configured(o, NO_STATS, 0, now)
      ensures fresh(sources) && fresh(duplicates)
    {
      options := o;
      stats := NO_STATS;
      sources := new Source[o.maxSources](_ => EMPTY);
      sourceCount := 0;
      global := Bucket(o.globalBurst as real, now);
      lastLog := now;
      pendingWarnings := 0;
      duplicates := new Duplicate[RING](_ => NO_DUPLICATE);
      duplicateCursor := 0;
      reports := [];
      new;
      NoneUsed(sources[..], sources.Length);
    }

    /** Applies the overrides or, when they are refused, changes nothing at all. */
    method Configure(overrides: seq<Configuration.Override>, now: real) returns (ok: bool)
      requires Valid()
      modifies this, duplicates
      ensures Valid() && duplicates == old(duplicates)
      ensures ok == Configuration.Proposed(old(options), overrides).Some?
      ensures ok ==> Some(options) == Configuration.Proposed(old(options), overrides) && fresh(sources)
                     && View() == Configured(options, old(stats), old(duplicateCursor), now)
      ensures !ok ==> options == old(options) && sources == old(sources) && View() == old(View())
    {
      hide Configuration.Proposed;
      var proposed := Configuration.Propose(options, overrides);
      if proposed.None? {
        return false;
      }
      Install(proposed.value, now);
      return true;
    }

    /** Starts over under new options, keeping the statistics and the cursor of the ring. */
    method Install(proposed: Options, now: real)
      requires Valid() && ValidOptions(proposed)
      modifies this, duplicates
      ensures Valid() && duplicates == old(duplicates) && options == proposed && fresh(sources)
      ensures View() == Configured(proposed, old(stats), old(duplicateCursor), now)
    {
      hide Used;
      sources := new Source[proposed.maxSources](_ => EMPTY);
      options := proposed;
      sourceCount := 0;
      ForgetWrites();
      global := Bucket(proposed.globalBurst as real, now);
      lastLog := now;
      pendingWarnings := 0;
      reports := [];
      NoneUsed(sources[..], sources.Length);
    }

    method ForgetWrites()
      requires duplicates.Length == RING
      modifies duplicates
      ensures duplicates[..] == seq(RING, _ => NO_DUPLICATE)
    {
      forall i | 0 <= i < duplicates.Length {
        duplicates[i] := NO_DUPLICATE;
      }
    }

    /** Wipes slot `i`. */
    method Wipe(i: nat)
      requires Valid() && i < sources.Length && sources[i].used
      modifies this`sourceCount, sources
      ensures Valid() && sources[..] == old(sources[..])[i := EMPTY]
    {
      UsedAfterUpdate(sources[..], i, EMPTY, sources.Length);
      sources[i] := EMPTY;
      sourceCount := sourceCount - 1;
      assert sources[..] == old(sources[..])[i := EMPTY];
    }

    method WipeIfIdle(i: nat, now: real)
      requires Valid() && i < sources.Length
      modifies this`sourceCount, sources
      ensures Valid() && sources[..] == old(sources[..])[i := Expire(old(sources[i]), options.sourceTtl, now)]
    {
      if sources[i].used && now - sources[i].lastSeen > options.sourceTtl {
        Wipe(i);
      }
    }

    /** Drops idle entries; reports how many are left and how many of those are blocked. */
    method ActiveSources(now: real) returns (active: nat, blocked: nat)
      requires Valid()
      modifies this`sourceCount, sources
      ensures Valid() && View() == Sweep(options, old(View()), now)
      ensures active == sourceCount
      ensures blocked == Blocked(sources[..], sources.Length, now)
    {
      hide Swept;
      active, blocked := 0, 0;
      ghost var t := sources[..];
      SweptNothing(t, options.sourceTtl, now);
      ghost var swept := Swept(t, |t|, options.sourceTtl, now);
      for i := 0 to sources.Length
        invariant Valid()
        invariant sources[..] == Swept(t, i, options.sourceTtl, now)
        invariant active == Used(swept, i) && blocked == Blocked(swept, i, now)
      {
        if sources[i].used {
          if now - sources[i].lastSeen > options.sourceTtl {
            Wipe(i);
          } else {
            active := active + 1;
            if sources[i].flood.blockedUntil > now {
              blocked := blocked + 1;
            }
          }
        }
        SweptStep(t, i, options.sourceTtl, now);
      }
      assert sources[..] == swept;
    }

    /** Finds the entry of `ip`, or makes one, wiping idle entries on the way. */
    method FindSource(ip: Ip, now: real) returns (index: nat)
      requires Valid()
      modifies this`sourceCount, sources
      ensures Valid()
      ensures var r := GetSource(old(sources[..]), ip, Sizes(options), options.sourceTtl, now);
              index == r.index && sources[..] == r.table
    {
      hide Swept, GetSource, Used, Find, FirstFree, Oldest;
      var freeSlot, oldest := -1, -1;
      ghost var t := sources[..];
      SweptNothing(t, options.sourceTtl, now);
      ghost var swept := Swept(t, |t|, options.sourceTtl, now);
      ScanStart(t, swept, ip, options.sourceTtl, now);
      for i := 0 to sources.Length
        invariant Valid()
        invariant sources[..] == Swept(t, i, options.sourceTtl, now)
        invariant Find(t, i, ip, options.sourceTtl, now) == i
        invariant freeSlot == if FirstFree(swept, i) == i then -1 else FirstFree(swept, i)
        invariant oldest == Oldest(swept, i)
      {
        SweptStep(t, i, options.sourceTtl, now);
        ScanStep(t, swept, i, ip, options.sourceTtl, now);
        WipeIfIdle(i, now);
        if sources[i].used && sources[i].ip == ip {
          StopsAt(t, i, ip, Sizes(options), options.sourceTtl, now);
          Store(i, sources[i].(lastSeen := now));
          return i;
        }
        if !sources[i].used {
          if freeSlot < 0 {
            freeSlot := i;
          }
        }
        if sources[i].used && (oldest < 0 || sources[i].lastSeen < sources[oldest].lastSeen) {
          oldest := i;
        }
      }
      assert sources[..] == swept;
      RunsThrough(t, ip, Sizes(options), options.sourceTtl, now);
      index := if freeSlot >= 0 then freeSlot else oldest;
      Store(index, Fresh(ip, Sizes(options), now));
    }

    /** Writes an entry into slot `i`, counting the slot if it was free. */
    method Store(i: nat, x: Source)
      requires Valid() && i < sources.Length && x.used
      modifies this`sourceCount, sources
      ensures Valid() && sources[..] == old(sources[..])[i := x]
    {
      UsedAfterUpdate(sources[..], i, x, sources.Length);
      if !sources[i].used {
        sourceCount := sourceCount + 1;
      }
      sources[i] := x;
      assert sources[..] == old(sources[..])[i := x];
    }

    method WarnDrop(now: real)
      modifies this`pendingWarnings, this`lastLog, this`reports
      ensures Log(lastLog, pendingWarnings, reports) ==
              Warn(old(Log(lastLog, pendingWarnings, reports)), options.logInterval, now)
    {
      pendingWarnings := pendingWarnings + 1;
      if now - lastLog >= options.logInterval {
        reports := reports + [Report(now, pendingWarnings)];
        pendingWarnings := 0;
        lastLog := now;
      }
    }

    /** Books a drop of the packet of entry `i`, which is left as `x`. */
    method Drop(i: nat, x: Source, verdict: Verdict, now: real)
      requires Valid() && i < sources.Length && sources[i].used && x.used && verdict != Accepted
      modifies this`stats, this`sourceCount, this`pendingWarnings, this`lastLog, this`reports, sources
      ensures Valid()
      ensures View() == old(View()).(sources := old(sources[..])[i := x], stats := Tally(old(stats), verdict),
                                     log := Warn(old(View()).log, options.logInterval, now))
    {
      stats := Tally(stats, verdict);
      Store(i, x);
      WarnDrop(now);
    }

    /** Decides on one packet of `ip`. */
    method Accept(ip: Ip, pdu: seq<Byte>, npdu: Npdu, now: real) returns (ok: bool, ghost verdict: Verdict)
      requires Valid() && npdu.length <= |pdu|
      modifies this`stats, this`sourceCount, this`global, this`pendingWarnings, this`lastLog, this`reports, sources
      ensures Valid()
      ensures Judged(View(), verdict) ==
              Admission.Accept(options, old(View()), ip, Classify(pdu, npdu), now)
      ensures ok <==> verdict == Accepted
    {
      if !options.enabled {
        stats := stats.(accepted := stats.accepted + 1);
        return true, Accepted;
      }
      FoundHolds(sources[..], ip, Sizes(options), options.sourceTtl, now);
      var i := FindSource(ip, now);
      ok, verdict := Judge(i, pdu, npdu, now);
    }

    /** Decides on one packet of the source in slot `i`. */
    method Judge(i: nat, pdu: seq<Byte>, npdu: Npdu, now: real) returns (ok: bool, ghost verdict: Verdict)
      requires Valid() && npdu.length <= |pdu| && i < sources.Length && sources[i].used
      modifies this`stats, this`sourceCount, this`global, this`pendingWarnings, this`lastLog, this`reports, sources
      ensures Valid()
      ensures var d := Decide(options, old(global), old(sources[i]), Classify(pdu, npdu), now);
              verdict == d.verdict &&
              View() == old(View()).(sources := old(sources[..])[i := d.source], global := d.global,
                                     stats := Tally(old(stats), d.verdict),
                                     log := if d.verdict == Accepted then old(View()).log
                                            else Warn(old(View()).log, options.logInterval, now))
      ensures ok <==> verdict == Accepted
    {
      hide Limit, Classify, InAny, Warn, Used, ValidOptions;
      var x := sources[i];
      var isDenied := Match(x.ip, options.denied);
      var isAllowed := Match(x.ip, options.allowed);
      if isDenied || (options.allowed != [] && !isAllowed) {
        Drop(i, x.(counters := x.counters.(aclDrops := x.counters.aclDrops + 1)), AclDrop, now);
        return false, AclDrop;
      }
      if x.flood.blockedUntil > now {
        Drop(i, x.(counters := x.counters.(blockedDrops := x.counters.blockedDrops + 1)), BlockedDrop, now);
        return false, BlockedDrop;
      }
      var kind := Classify(pdu, npdu);
      if kind == Malformed {
        Drop(i, x.(counters := x.counters.(malformed := x.counters.malformed + 1)), MalformedDrop, now);
        return false, MalformedDrop;
      }
      ok, x := ApplyLimits(x, kind, now);
      if !ok {
        Drop(i, x, RateDrop, now);
        return false, RateDrop;
      }
      stats := stats.(accepted := stats.accepted + 1);
      Store(i, x);
      return true, Accepted;
    }

    /** Asks the token buckets in turn and books the outcome in the entry `x` of the source. */
    method ApplyLimits(x: Source, kind: Kind, now: real) returns (ok: bool, y: Source)
      modifies this`global
      ensures var d := Limit(options, old(global), x, kind, now);
              global == d.global && y == d.source && (ok <==> d.verdict == Accepted) && d.verdict in {Accepted, RateDrop}
              && y.used == x.used
    {
      var bucket;
      y := x;
      ok, bucket := TakeToken(global, options.globalRate, options.globalBurst as real, now);
      global := bucket;
      if ok {
        ok, bucket := TakeToken(x.packets, options.perSourceRate, options.perSourceBurst as real, now);
        y := y.(packets := bucket);
      }
      if ok && kind == WhoIs {
        ok, bucket := TakeToken(y.whoIs, options.whoIsRate, options.whoIsBurst as real, now);
        y := y.(whoIs := bucket);
      }
      if ok && kind == Write {
        ok, bucket := TakeToken(y.writes, options.writeRate, options.writeBurst as real, now);
        y := y.(writes := bucket);
      }
      if !ok {
        var flood := CountViolation(y.flood, FloodPolicy(options), now);
        y := y.(counters := y.counters.(rateDrops := y.counters.rateDrops + 1), flood := flood);
      } else {
        y := y.(counters := y.counters.(accepted := y.counters.accepted + 1));
      }
    }

    method NoteMalformed(ip: Ip, now: real)
      requires Valid()
      modifies this`stats, this`sourceCount, this`pendingWarnings, this`lastLog, this`reports, sources
      ensures Valid() && View() == ReportMalformed(options, old(View()), ip, now)
    {
      hide Used, GetSource, Warn;
      FoundHolds(sources[..], ip, Sizes(options), options.sourceTtl, now);
      var i := FindSource(ip, now);
      stats := stats.(malformed := stats.malformed + 1);
      Store(i, sources[i].(counters := sources[i].counters.(malformed := sources[i].counters.malformed + 1)));
      WarnDrop(now);
    }

    method QueueOverflow(now: real)
      requires Valid()
      modifies this`stats, this`pendingWarnings, this`lastLog, this`reports
      ensures Valid() && View() == ReportOverflow(options, old(View()), now)
    {
      stats := stats.(queueOverflows := stats.queueOverflows + 1);
      WarnDrop(now);
    }

    method ResetStats()
      requires Valid()
      modifies this`stats, sources
      ensures Valid() && View() == ResetCounters(old(View()))
    {
      stats := NO_STATS;
      ghost var t := sources[..];
      forall i | 0 <= i < sources.Length {
        sources[i] := sources[i].(counters := NO_COUNTS);
      }
      UsedAgrees(t, sources[..], sources.Length);
    }

    /** Has this write been executed within the duplicate window? */
    method IsDuplicateWrite(ip: Ip, apdu: seq<Byte>, now: real) returns (duplicate: bool)
      requires Valid()
      modifies this`stats
      ensures Valid() && duplicate == IsDuplicate(options, old(View()), ip, apdu, now)
      ensures View() == if duplicate then Deduplicated(old(View())) else old(View())
    {
      if !options.enabled {
        return false;
      }
      var hash := HashBytes(IpBytes(ip) + apdu);
      for i := 0 to duplicates.Length
        invariant forall k :: 0 <= k < i ==> !Matches(duplicates[k], ip, hash, now)
      {
        if Matches(duplicates[i], ip, hash, now) {
          stats := stats.(deduplicated := stats.deduplicated + 1);
          return true;
        }
      }
      return false;
    }

    /** Remembers a write that has been executed. */
    method RecordWrite(ip: Ip, apdu: seq<Byte>, now: real)
      requires Valid()
      modifies this`duplicateCursor, duplicates
      ensures Valid() && View() == Admission.RecordWrite(options, old(View()), ip, apdu, now)
    {
      if !options.enabled {
        return;
      }
      var hash := HashBytes(IpBytes(ip) + apdu);
      duplicates[duplicateCursor % RING] := Duplicate(true, ip, hash, now + options.duplicateWindow);
      duplicateCursor := (duplicateCursor + 1) % CURSOR_LIMIT;
    }
  }

  lemma FoundHolds(t: seq<Source>, ip: Ip, bursts: Bursts, ttl: real, now: real)
    requires 0 < |t|
    ensures var r := GetSource(t, ip, bursts, ttl, now); Holds(r.table[r.index], ip)
  {
  }

  function Blocked(t: seq<Source>, n: nat, now: real): nat
    requires n <= |t|
  {
    if n == 0 then 0
    else Blocked(t, n - 1, now) + if t[n - 1].used && t[n - 1].flood.blockedUntil > now then 1 else 0
  }

  lemma {:induction false} NoneUsed(t: seq<Source>, n: nat)
    requires n <= |t| && forall i :: 0 <= i < n ==> !t[i].used
    ensures Used(t, n) == 0
  {
    if n > 0 {
      NoneUsed(t, n - 1);
    }
  }

  lemma StopsAt(t: seq<Source>, i: nat, ip: Ip, bursts: Bursts, ttl: real, now: real)
    requires i < |t| && Find(t, i, ip, ttl, now) == i && Holds(t[i], ip) && !Expired(t[i], ttl, now)
    ensures GetSource(t, ip, bursts, ttl, now) == Lookup(Swept(t, i, ttl, now)[i := t[i].(lastSeen := now)], i)
  {
    assert Find(t, |t|, ip, ttl, now) == i;
  }

  lemma ScanStart(t: seq<Source>, swept: seq<Source>, ip: Ip, ttl: real, now: real)
    ensures Find(t, 0, ip, ttl, now) == 0 && FirstFree(swept, 0) == 0 && Oldest(swept, 0) == -1
  {
  }

  /** What one more slot does to everything the scan keeps. */
  lemma ScanStep(t: seq<Source>, swept: seq<Source>, i: nat, ip: Ip, ttl: real, now: real)
    requires i < |t| == |swept| && Find(t, i, ip, ttl, now) == i
    ensures Find(t, i + 1, ip, ttl, now) == if Holds(t[i], ip) && !Expired(t[i], ttl, now) then i else i + 1
    ensures FirstFree(swept, i + 1) == if FirstFree(swept, i) < i then FirstFree(swept, i) else if !swept[i].used then i else i + 1
    ensures Oldest(swept, i + 1) ==
            var k := Oldest(swept, i);
            if swept[i].used && (k < 0 || swept[i].lastSeen < swept[k].lastSeen) then i else k
  {
  }

  lemma RunsThrough(t: seq<Source>, ip: Ip, bursts: Bursts, ttl: real, now: real)
    requires 0 < |t| && Find(t, |t|, ip, ttl, now) == |t|
    ensures var swept := Swept(t, |t|, ttl, now);
            GetSource(t, ip, bursts, ttl, now)
            == Lookup(swept[Place(swept) := Fresh(ip, bursts, now)], Place(swept))
  {
  }

  /** Sweeping one slot further. */
  lemma SweptStep(t: seq<Source>, i: nat, ttl: real, now: real)
    requires i < |t|
    ensures Swept(t, i, ttl, now)[i] == t[i]
    ensures Swept(t, i + 1, ttl, now) == Swept(t, i, ttl, now)[i := Expire(t[i], ttl, now)]
    ensures Swept(t, |t|, ttl, now)[i] == Expire(t[i], ttl, now)
    ensures forall k :: 0 <= k < i ==> Swept(t, i, ttl, now)[k] == Swept(t, |t|, ttl, now)[k]
  {
  }

  lemma SweptNothing(t: seq<Source>, ttl: real, now: real)
    ensures Swept(t, 0, ttl, now) == t
  {
  }
}
