/** Exactly which writes reach the write callback: those that have not been executed within the duplicate window, as far as
    the last 4096 executions can tell. */
module WriteExecution {
  import opened Cidr
  import opened Fnv
  import opened Admission
  import opened RateBounds
  import opened WriteOnce
  import opened SourceTable
  import ObjectList

  /** Every fingerprint in the ring is that of one of the last `RING` executions. */
  ghost predicate OnlyExecuted(o: Options, srv: Server) {
    forall d :: d in srv.security.duplicates && d.used ==>
      exists i :: 0 <= i < |srv.log| && |srv.log| - i <= RING && d == Fingerprint(o, srv.log[i])
  }

  ghost predicate RingIsLog(o: Options, cursor: nat, srv: Server) {
    Kept(o, cursor, srv) && OnlyExecuted(o, srv)
  }

  /** Recording an execution overwrites the fingerprint of the one `RING` executions ago, if any. */
  lemma RecordIsLog(o: Options, cursor: nat, srv: Server, x: Execution)
    requires o.enabled && RingIsLog(o, cursor, srv)
    ensures RingIsLog(o, cursor, srv.(security := RecordWrite(o, srv.security, x.ip, x.apdu, x.end), log := srv.log + [x]))
  {
    hide HashWrite;
    var end := srv.(security := RecordWrite(o, srv.security, x.ip, x.apdu, x.end), log := srv.log + [x]);
    var n, slot := |srv.log|, srv.security.cursor % RING;
    RecordKeeps(o, cursor, srv, x);
    CursorWraps(cursor + n);
    forall d | d in end.security.duplicates && d.used
      ensures exists i :: 0 <= i < |end.log| && |end.log| - i <= RING && d == Fingerprint(o, end.log[i])
    {
      if d == Fingerprint(o, x) {
        assert end.log[n] == x;
      } else {
        var k :| 0 <= k < RING && end.security.duplicates[k] == d;
        assert k != slot && srv.security.duplicates[k] == d && d in srv.security.duplicates;
        var i :| 0 <= i < n && n - i <= RING && d == Fingerprint(o, srv.log[i]);
        assert end.log[i] == srv.log[i];
        if n - i == RING {
          HitsSlot(cursor, n, i);
          var j := Elsewhere(o, cursor, srv, k, i);
          assert end.log[j] == srv.log[j];
        }
      }
    }
  }

  lemma HitsSlot(cursor: nat, n: nat, i: nat)
    requires i < n && n - i == RING
    ensures (cursor + i) % RING == (cursor + n) % RING
  {
  }

  /** A fingerprint found in a slot belongs to the execution that was recorded there last. */
  lemma Elsewhere(o: Options, cursor: nat, srv: Server, k: nat, i: nat) returns (j: nat)
    requires Kept(o, cursor, srv) && k < RING && i < |srv.log| && |srv.log| - i == RING && k != (cursor + i) % RING
    ensures i < j < |srv.log| && (cursor + j) % RING == k && srv.security.duplicates[k] == Fingerprint(o, srv.log[j])
  {
    j := i + (k - cursor - i) % RING;
    Residue(cursor, k, i);
    assert srv.security.duplicates[(cursor + j) % RING] == Fingerprint(o, srv.log[j]);
  }

  lemma Residue(cursor: nat, k: nat, i: nat)
    requires k < RING && k != (cursor + i) % RING
    ensures var j := i + (k - cursor - i) % RING;
            i < j < i + RING && (cursor + j) % RING == k
  {
  }

  /** Every act keeps the ring equal to the tail of the log. */
  lemma ActIsLogged(o: Options, capacity: nat, cursor: nat, srv: Server, a: Act)
    requires o.enabled && RingIsLog(o, cursor, srv) && Possible(srv, a) && 0 < |srv.security.sources|
    ensures RingIsLog(o, cursor, Do(o, capacity, srv, a))
  {
    hide Accept, ReportMalformed, Sweep, IsDuplicate, RecordWrite, Fingerprint;
    var end := Do(o, capacity, srv, a);
    if a.Finish? && a.ok {
      var x := Execution(srv.phase.ip, srv.phase.apdu, srv.phase.start, a.at);
      RecordIsLog(o, cursor, srv, x);
      SameTail(o, cursor, srv.(security := end.security, log := end.log), end);
    } else {
      RingUntouched(o, capacity, srv, a);
      SameTail(o, cursor, srv, end);
    }
  }

  lemma SameTail(o: Options, cursor: nat, srv: Server, end: Server)
    requires RingIsLog(o, cursor, srv) && end.log == srv.log
    requires end.security.duplicates == srv.security.duplicates && end.security.cursor == srv.security.cursor
    ensures RingIsLog(o, cursor, end)
  {
    SameRing(o, cursor, srv, end);
  }

  lemma QuietActs(o: Options, s: State, a: Act)
    requires 0 < |s.sources|
    ensures var r := Sweep(o, s, a.at); r.duplicates == s.duplicates && r.cursor == s.cursor
  {
  }

  lemma RingUntouched(o: Options, capacity: nat, srv: Server, a: Act)
    requires Possible(srv, a) && 0 < |srv.security.sources| && |srv.security.duplicates| == RING && !(a.Finish? && a.ok)
    ensures var end := Do(o, capacity, srv, a);
            && end.log == srv.log && end.security.duplicates == srv.security.duplicates
            && end.security.cursor == srv.security.cursor
  {
    hide Accept, ReportMalformed, Sweep, IsDuplicate, RecordWrite;
    QuietActs(o, srv.security, a);
  }

  lemma {:induction false} RunIsLogged(o: Options, capacity: nat, cursor: nat, srv: Server, acts: seq<Act>)
    requires o.enabled && RingIsLog(o, cursor, srv) && PossibleRun(o, capacity, srv, acts)
    ensures RingIsLog(o, cursor, Play(o, capacity, srv, acts))
    decreases acts
  {
    hide RingIsLog, Do;
    if acts != [] {
      ActIsLogged(o, capacity, cursor, srv, acts[0]);
      RunIsLogged(o, capacity, cursor, Do(o, capacity, srv, acts[0]), acts[1..]);
    }
  }

  /** One of the last 4096 executions was of this address and this fingerprint, and its window has not passed. */
  ghost predicate RecentlyExecuted(o: Options, log: seq<Execution>, p: Pdu, now: real) {
    exists i :: 0 <= i < |log| && |log| - i <= RING
                && log[i].ip == p.ip && HashWrite(log[i].ip, log[i].apdu) == HashWrite(p.ip, p.apdu)
                && log[i].end + o.duplicateWindow > now
  }

  lemma DuplicateIffRecent(o: Options, cursor: nat, srv: Server, p: Pdu, now: real)
    requires o.enabled && RingIsLog(o, cursor, srv)
    ensures IsDuplicate(o, srv.security, p.ip, p.apdu, now) <==> RecentlyExecuted(o, srv.log, p, now)
  {
    hide HashWrite;
    if IsDuplicate(o, srv.security, p.ip, p.apdu, now) {
      var k :| 0 <= k < RING && Matches(srv.security.duplicates[k], p.ip, HashWrite(p.ip, p.apdu), now);
      assert srv.security.duplicates[k] in srv.security.duplicates;
    }
    if RecentlyExecuted(o, srv.log, p, now) {
      var i :| 0 <= i < |srv.log| && |srv.log| - i <= RING && srv.log[i].ip == p.ip
               && HashWrite(srv.log[i].ip, srv.log[i].apdu) == HashWrite(p.ip, p.apdu)
               && srv.log[i].end + o.duplicateWindow > now;
      assert Matches(srv.security.duplicates[(cursor + i) % RING], p.ip, HashWrite(p.ip, p.apdu), now);
    }
  }

  /** What taking up a packet does, told from the log: garbled packets are reported; a write that was executed recently is
      acknowledged and counted as deduplicated; any other executable write reaches the callback; nothing else happens. */
  lemma TakenUpIff(o: Options, cursor: nat, srv: Server, p: Pdu, check: real, body: Body)
    requires o.enabled && RingIsLog(o, cursor, srv) && srv.phase.Idle? && 0 < |srv.security.sources|
    ensures var r, recent := Handle(o, srv, p, check, body), p.kind == Write && RecentlyExecuted(o, srv.log, p, check);
            && (r.phase == Running(p.ip, p.apdu, check) <==> p.kind == Write && body == Executable && !recent)
            && (r.phase.Running? ==> r.phase == Running(p.ip, p.apdu, check))
            && r.security == (if body == Garbled then ReportMalformed(o, srv.security, p.ip, check)
                              else if recent then
                                srv.security.(stats := srv.security.stats.(deduplicated := srv.security.stats.deduplicated + 1))
                              else srv.security)
            && r.log == srv.log && r.queue == srv.queue
  {
    hide HashWrite, RecentlyExecuted, RingIsLog, IsDuplicate, ReportMalformed;
    DuplicateIffRecent(o, cursor, srv, p, check);
    assert RingIsLog(o, cursor, srv) ==> |srv.security.duplicates| == RING by {
      RingSize(o, cursor, srv);
    }
  }

  /** A packet the service decoder refuses counts as malformed, and reading the statistics forgets exactly the sources idle
      for longer than the time to live; neither touches the queue, the callback, the ring or the global bucket. */
  lemma ReportsAndReadings(o: Options, capacity: nat, srv: Server, a: Act)
    requires Possible(srv, a) && (a.NoteBad? || a.Read?) && 0 < |srv.security.sources| && |srv.security.duplicates| == RING
    ensures var r := Do(o, capacity, srv, a);
            && r.queue == srv.queue && r.phase == srv.phase && r.log == srv.log
            && r.security.duplicates == srv.security.duplicates && r.security.cursor == srv.security.cursor
            && r.security.global == srv.security.global
            && (a.NoteBad? ==> r.security.stats == srv.security.stats.(malformed := srv.security.stats.malformed + 1))
            && (a.Read? ==> r.security.stats == srv.security.stats && r.security.log == srv.security.log)
    ensures var t := srv.security.sources;
            a.Read? ==> forall i :: 0 <= i < |t| ==>
              Do(o, capacity, srv, a).security.sources[i] ==
              if t[i].used && t[i].lastSeen + o.sourceTtl < a.at then EMPTY else t[i]
  {
  }

  lemma RingSize(o: Options, cursor: nat, srv: Server)
    requires RingIsLog(o, cursor, srv)
    ensures |srv.security.duplicates| == RING
  {
  }

  lemma StartIsLogged(o: Options, stats: Stats, cursor: nat, start: real)
    requires ValidOptions(o) && cursor < CURSOR_LIMIT
    ensures RingIsLog(o, cursor, Started(o, stats, cursor, start))
  {
  }

  /** Main theorem: in every run, an executable write of the queue or an admitted one of the socket reaches the callback if
      and only if none of the last 4096 executions was of its address and fingerprint within the duplicate window. */
  lemma WriteRunsIffNotRecent(o: Options, capacity: nat, stats: Stats, cursor: nat, start: real, acts: seq<Act>, a: Act)
    requires ValidOptions(o) && o.enabled && cursor < CURSOR_LIMIT
    requires PossibleRun(o, capacity, Started(o, stats, cursor, start), acts)
    requires var srv := Play(o, capacity, Started(o, stats, cursor, start), acts);
             && Possible(srv, a) && a.Poll? && a.body == Executable && 0 < |srv.security.sources|
             && |srv.security.duplicates| == RING
             && (srv.queue == [] ==> Accept(o, srv.security, a.pdu.ip, a.pdu.kind, a.at).verdict == Accepted)
             && (if srv.queue != [] then srv.queue[0] else a.pdu).kind == Write
    ensures var srv := Play(o, capacity, Started(o, stats, cursor, start), acts);
            var p := if srv.queue != [] then srv.queue[0] else a.pdu;
            Do(o, capacity, srv, a).phase == Running(p.ip, p.apdu, a.check) <==> !RecentlyExecuted(o, srv.log, p, a.check)
  {
    hide Started, Play, PossibleRun, Accept, RecentlyExecuted, Handle, RingIsLog;
    var srv := Play(o, capacity, Started(o, stats, cursor, start), acts);
    StartIsLogged(o, stats, cursor, start);
    RunIsLogged(o, capacity, cursor, Started(o, stats, cursor, start), acts);
    if srv.queue != [] {
      var mid := srv.(queue := srv.queue[1..]);
      SameTail(o, cursor, srv, mid);
      TakenUpIff(o, cursor, mid, srv.queue[0], a.check, a.body);
    } else {
      var mid := srv.(security := Accept(o, srv.security, a.pdu.ip, a.pdu.kind, a.at).state);
      SameTail(o, cursor, srv, mid);
      TakenUpIff(o, cursor, mid, a.pdu, a.check, a.body);
    }
  }

  /** The two writes have the same length and differ in exactly one byte. */
  ghost predicate OneByteApart(a: seq<Byte>, b: seq<Byte>) {
    |a| == |b| && exists i :: 0 <= i < |a| && a[i] != b[i] && b == a[i := b[i]]
  }

  /** A write is no recent one if each execution of its source is a window ago or one byte away from it. */
  lemma DifferentWriteIsNotRecent(o: Options, log: seq<Execution>, p: Pdu, now: real)
    requires forall i :: 0 <= i < |log| && |log| - i <= RING && log[i].ip == p.ip ==>
               log[i].end + o.duplicateWindow <= now || OneByteApart(log[i].apdu, p.apdu)
    ensures !RecentlyExecuted(o, log, p, now)
  {
    hide HashWrite;
    forall i | 0 <= i < |log| && |log| - i <= RING && log[i].ip == p.ip
      ensures log[i].end + o.duplicateWindow <= now || HashWrite(log[i].ip, log[i].apdu) != HashWrite(p.ip, p.apdu)
    {
      if log[i].end + o.duplicateWindow > now {
        var was := log[i].apdu;
        var k :| 0 <= k < |was| && was[k] != p.apdu[k] && p.apdu == was[k := p.apdu[k]];
        OneByteIsNoDuplicate(p.ip, was, k, p.apdu[k]);
      }
    }
  }

  /** So two different writes of one source, one byte apart, are both executed however soon one follows the other; and a
      write is executed again once a window has passed since the executions of its source. */
  lemma DifferentWriteRuns(o: Options, capacity: nat, stats: Stats, cursor: nat, start: real, acts: seq<Act>, a: Act)
    requires ValidOptions(o) && o.enabled && cursor < CURSOR_LIMIT
    requires PossibleRun(o, capacity, Started(o, stats, cursor, start), acts)
    requires var srv := Play(o, capacity, Started(o, stats, cursor, start), acts);
             && Possible(srv, a) && a.Poll? && a.body == Executable && 0 < |srv.security.sources|
             && |srv.security.duplicates| == RING && srv.queue == [] && a.pdu.kind == Write
             && Accept(o, srv.security, a.pdu.ip, Write, a.at).verdict == Accepted
             && forall i :: 0 <= i < |srv.log| && |srv.log| - i <= RING && srv.log[i].ip == a.pdu.ip ==>
                  srv.log[i].end + o.duplicateWindow <= a.check || OneByteApart(srv.log[i].apdu, a.pdu.apdu)
    ensures Do(o, capacity, Play(o, capacity, Started(o, stats, cursor, start), acts), a).phase
            == Running(a.pdu.ip, a.pdu.apdu, a.check)
  {
    hide Started, Play, PossibleRun, Accept, RecentlyExecuted, Do, OneByteApart;
    DifferentWriteIsNotRecent(o, Play(o, capacity, Started(o, stats, cursor, start), acts).log, a.pdu, a.check);
    WriteRunsIffNotRecent(o, capacity, stats, cursor, start, acts, a);
  }

  /** The fingerprint covers the address: two addresses that differ in one octet give one request different ones. */
  lemma AddressIsCovered(ip: Ip, other: Ip, apdu: seq<Byte>, i: nat)
    requires i < 4 && IpBytes(other)[i] != IpBytes(ip)[i]
    requires forall k :: 0 <= k < 4 && k != i ==> IpBytes(other)[k] == IpBytes(ip)[k]
    ensures HashWrite(ip, apdu) != HashWrite(other, apdu)
  {
    var data := IpBytes(ip) + apdu;
    assert IpBytes(other) == IpBytes(ip)[i := IpBytes(other)[i]];
    assert data[i := IpBytes(other)[i]] == IpBytes(other) + apdu;
    OneByteChanges(OFFSET_BASIS, data, i, IpBytes(other)[i]);
  }

  /** The octets of the address, least significant first. */
  lemma AddressFromBytes(ip: Ip)
    ensures var b := IpBytes(ip);
            |b| == 4 && ip == ObjectList.Word32(b[3], b[2], b[1], b[0])
  {
    ObjectList.OctetsAddUp(ip);
  }
}
