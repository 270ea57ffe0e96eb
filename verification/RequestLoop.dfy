/** The synchronous request: send, then receive until the answer with the expected invoke identifier arrives, handing
    every other packet on. The sockets are a script of rounds. */
module RequestLoop {
  import opened Fnv
  import opened Admission
  import opened PduQueue

  const SIMPLE_ACK: nat := 0x20
  const COMPLEX_ACK: nat := 0x30
  const ERROR: nat := 0x50
  const REJECT: nat := 0x60
  const ABORT: nat := 0x70

  /** A received packet with what the network-layer decoder makes of it. */
  datatype Received = Received(frame: Frame, npdu: Npdu)

  predicate Decoded(f: Received) {
    f.npdu.length <= |f.frame.data|
  }

  /** One turn of the loop: the two clock readings, what is received and when, and whether the handler of unsolicited
      packets would return normally. An empty packet means nothing came in time. */
  datatype Round = Round(before: nat, again: nat, packet: Received, at: real, handled: bool)

  datatype Action = Ignore | Forward | Return(kind: nat)

  function Apdu(f: Received): seq<Byte>
    requires Decoded(f)
  {
    if f.npdu.length < 0 then [] else f.frame.data[f.npdu.length..]
  }

  /** What a packet is to the waiting request. */
  function ActionOn(f: Received, expected: Byte): Action
    requires Decoded(f)
  {
    if f.npdu.length < 0 || f.npdu.networkMessage then Ignore
    else
      var apdu := Apdu(f);
      if |apdu| < 3 then Forward
      else
        var kind := PduType(apdu[0]);
        if kind in {SIMPLE_ACK, COMPLEX_ACK, ERROR, REJECT, ABORT} && apdu[1] == expected then Return(kind) else Forward
  }

  /** The loop goes on to receive in this round. */
  predicate InTime(r: Round, deadline: nat) {
    r.before < deadline && r.again != deadline
  }

  /** The rounds whose packets are handed on, in order. */
  function Forwarded(rounds: seq<Round>, expected: Byte): seq<Round>
    requires forall r :: r in rounds ==> Decoded(r.packet)
  {
    if rounds == [] then []
    else
      var r := rounds[|rounds| - 1];
      assert forall s :: s in rounds[..|rounds| - 1] ==> s in rounds;
      Forwarded(rounds[..|rounds| - 1], expected) + if ActionOn(r.packet, expected) == Forward then [r] else []
  }

  datatype Status = Answered(kind: nat, apdu: seq<Byte>) | TimedOut | HandlerFailed

  /** A round the loop passes through: something arrives in time that is not the answer, and is handled. */
  predicate Passes(r: Round, deadline: nat, expected: Byte)
    requires Decoded(r.packet)
  {
    InTime(r, deadline) && r.packet.frame.data != [] && !ActionOn(r.packet, expected).Return?
    && (ActionOn(r.packet, expected) == Forward ==> r.handled)
  }

  /** Waits for the answer. `stop` is the round in which the wait ends; the rounds before it are all passed through,
      and their foreign packets have been handed on exactly once, in order. */
  method SendAndWait(rounds: seq<Round>, deadline: nat, expected: Byte, maxApdu: nat)
    returns (status: Status, forwarded: seq<Round>, stop: nat)
    requires forall r :: r in rounds ==> Decoded(r.packet)
    ensures stop <= |rounds|
    ensures forall i :: 0 <= i < stop ==> Passes(rounds[i], deadline, expected)
    ensures forall i :: 0 <= i < stop ==> rounds[i].before < deadline && rounds[i].again != deadline
    ensures stop < |rounds| ==> !Passes(rounds[stop], deadline, expected)
    ensures match status
            case TimedOut =>
              (stop < |rounds| ==>
                 rounds[stop].before >= deadline || rounds[stop].again == deadline || rounds[stop].packet.frame.data == [])
              && forwarded == Forwarded(rounds[..stop], expected)
            case HandlerFailed =>
              stop < |rounds| && ActionOn(rounds[stop].packet, expected) == Forward && !rounds[stop].handled
              && forwarded == Forwarded(rounds[..stop + 1], expected)
            case Answered(kind, apdu) =>
              stop < |rounds| && ActionOn(rounds[stop].packet, expected) == Return(kind)
              && apdu <= Apdu(rounds[stop].packet)
              && |apdu| == (if |Apdu(rounds[stop].packet)| > maxApdu then maxApdu else |Apdu(rounds[stop].packet)|)
              && forwarded == Forwarded(rounds[..stop], expected)
  {
    forwarded, stop := [], 0;
    while stop < |rounds| && rounds[stop].before < deadline
      invariant stop <= |rounds|
      invariant forall i :: 0 <= i < stop ==> Passes(rounds[i], deadline, expected)
      invariant forall r :: r in rounds[..stop] ==> Decoded(r.packet)
      invariant forwarded == Forwarded(rounds[..stop], expected)
      decreases |rounds| - stop
    {
      var r := rounds[stop];
      if r.again == deadline || r.packet.frame.data == [] {
        return TimedOut, forwarded, stop;
      }
      Through(rounds, stop, expected);
      if r.packet.npdu.length < 0 || r.packet.npdu.networkMessage {
        stop := stop + 1;
        continue;
      }
      var apdu := r.packet.frame.data[r.packet.npdu.length..];
      if |apdu| >= 3 {
        var kind := PduType(apdu[0]);
        if (kind == SIMPLE_ACK || kind == COMPLEX_ACK || kind == ERROR || kind == REJECT || kind == ABORT)
           && apdu[1] == expected {
          var length := if |apdu| > maxApdu then maxApdu else |apdu|;
          return Answered(kind, apdu[..length]), forwarded, stop;
        }
      }
      forwarded := forwarded + [r];
      if !r.handled {
        return HandlerFailed, forwarded, stop;
      }
      stop := stop + 1;
    }
    return TimedOut, forwarded, stop;
  }

  lemma Through(rounds: seq<Round>, i: nat, expected: Byte)
    requires i < |rounds| && forall r :: r in rounds ==> Decoded(r.packet)
    ensures forall r :: r in rounds[..i] || r in rounds[..i + 1] ==> Decoded(r.packet)
    ensures Forwarded(rounds[..i + 1], expected) ==
            Forwarded(rounds[..i], expected) + if ActionOn(rounds[i].packet, expected) == Forward then [rounds[i]] else []
  {
    assert rounds[..i + 1][..i] == rounds[..i];
  }

  const MAX_DEVICES: nat := 64

  /** A device as it announces itself. */
  datatype Device = Device(id: nat, maxApdu: nat, vendor: nat, address: seq<Byte>)

  /** One turn of device discovery; `announced` is what the service decoder makes of an I-Am. */
  datatype Heard = Heard(round: Round, announced: seq<Device>)

  const UNCONFIRMED: nat := 0x10
  const I_AM: nat := 0

  /** What a packet is to device discovery: nothing, a packet for the server side, or an announcement. */
  datatype Sighting = Nothing | Foreign | Announced(device: Device)

  function Sight(h: Heard): Sighting
    requires Decoded(h.round.packet)
  {
    if h.round.packet.npdu.length < 0 || h.round.packet.npdu.networkMessage then Nothing
    else
      var apdu := Apdu(h.round.packet);
      if |apdu| < 2 then Nothing
      else if PduType(apdu[0]) != UNCONFIRMED || apdu[1] != I_AM then Foreign
      else if h.announced == [] then Nothing
      else Announced(h.announced[0])
  }

  predicate Known(devices: seq<Device>, id: nat) {
    exists i :: 0 <= i < |devices| && devices[i].id == id
  }

  /** The devices announced, each at its first announcement, `own` left out. */
  function Collected(hs: seq<Heard>, own: int): seq<Device>
    requires forall h :: h in hs ==> Decoded(h.round.packet)
  {
    if hs == [] then []
    else
      var last := hs[|hs| - 1];
      assert forall h :: h in hs[..|hs| - 1] ==> h in hs;
      var devices := Collected(hs[..|hs| - 1], own);
      match Sight(last)
      case Announced(d) => if d.id == own || Known(devices, d.id) then devices else devices + [d]
      case _ => devices
  }

  /** The rounds whose packets are handed on, in order. */
  function Foreigners(hs: seq<Heard>): (rounds: seq<Round>)
    requires forall h :: h in hs ==> Decoded(h.round.packet)
  {
    if hs == [] then []
    else
      var last := hs[|hs| - 1];
      assert forall h :: h in hs[..|hs| - 1] ==> h in hs;
      Foreigners(hs[..|hs| - 1]) + if Sight(last) == Foreign then [last.round] else []
  }

  /** A round that discovery passes through. */
  predicate HeardOut(h: Heard, deadline: nat)
    requires Decoded(h.round.packet)
  {
    InTime(h.round, deadline) && h.round.packet.frame.data != [] && (Sight(h) == Foreign ==> h.round.handled)
  }

  /** Collects announcements until the deadline, a silent round, or a full list; every other packet for the application
      is handed on exactly once, in order. */
  method Collect(hs: seq<Heard>, deadline: nat, own: int)
    returns (devices: seq<Device>, forwarded: seq<Round>, stop: nat, failed: bool)
    requires forall h :: h in hs ==> Decoded(h.round.packet)
    ensures stop <= |hs| && devices == Collected(hs[..stop], own) && |devices| <= MAX_DEVICES
    ensures forall i :: 0 <= i < stop ==> HeardOut(hs[i], deadline)
    ensures if failed then stop < |hs| && forwarded == Foreigners(hs[..stop + 1]) else forwarded == Foreigners(hs[..stop])
    ensures failed ==> stop < |hs| && Sight(hs[stop]) == Foreign && !hs[stop].round.handled
    ensures !failed && stop < |hs| ==>
              hs[stop].round.before >= deadline || hs[stop].round.again == deadline || hs[stop].round.packet.frame.data == [] || |devices| == MAX_DEVICES
  {
    hide Sight, Collected, Foreigners, Known;
    devices, forwarded, stop, failed := [], [], 0, false;
    NothingHeard(own);
    while stop < |hs| && hs[stop].round.before < deadline && |devices| < MAX_DEVICES
      invariant stop <= |hs| && |devices| <= MAX_DEVICES && !failed
      invariant forall h :: h in hs[..stop] ==> Decoded(h.round.packet)
      invariant forall i :: 0 <= i < stop ==> HeardOut(hs[i], deadline)
      invariant devices == Collected(hs[..stop], own) && forwarded == Foreigners(hs[..stop])
    {
      var h := hs[stop];
      if h.round.again == deadline || h.round.packet.frame.data == [] {
        return;
      }
      HeardStep(hs, stop, own);
      match Sight(h) {
        case Nothing =>
        case Foreign =>
          forwarded := forwarded + [h.round];
          if !h.round.handled {
            failed := true;
            return;
          }
        case Announced(d) =>
          var known := IsKnown(devices, d.id);
          if d.id != own && !known {
            devices := devices + [d];
          }
      }
      stop := stop + 1;
    }
  }

  method IsKnown(devices: seq<Device>, id: nat) returns (found: bool)
    ensures found == Known(devices, id)
  {
    for i := 0 to |devices|
      invariant forall k :: 0 <= k < i ==> devices[k].id != id
    {
      if devices[i].id == id {
        return true;
      }
    }
    return false;
  }

  lemma NothingHeard(own: int)
    ensures Collected([], own) == [] && Foreigners([]) == []
  {
  }

  /** What one more round adds. */
  lemma HeardStep(hs: seq<Heard>, i: nat, own: int)
    requires i < |hs| && forall h :: h in hs ==> Decoded(h.round.packet)
    ensures forall h :: h in hs[..i] || h in hs[..i + 1] ==> Decoded(h.round.packet)
    ensures Foreigners(hs[..i + 1]) == Foreigners(hs[..i]) + if Sight(hs[i]) == Foreign then [hs[i].round] else []
    ensures var devices := Collected(hs[..i], own);
            Collected(hs[..i + 1], own) ==
            match Sight(hs[i])
            case Announced(d) => if d.id == own || Known(devices, d.id) then devices else devices + [d]
            case _ => devices
  {
    hide Sight, Known;
    assert hs[..i + 1][..i] == hs[..i];
  }

  predicate WasAnnounced(hs: seq<Heard>, d: Device)
    requires forall h :: h in hs ==> Decoded(h.round.packet)
  {
    exists k :: 0 <= k < |hs| && Sight(hs[k]) == Announced(d)
  }

  ghost predicate DistinctIds(devices: seq<Device>) {
    forall i, j :: 0 <= i < j < |devices| ==> devices[i].id != devices[j].id
  }

  /** No device is listed twice, and the own one never. */
  lemma {:induction false} CollectedOnce(hs: seq<Heard>, own: int)
    requires forall h :: h in hs ==> Decoded(h.round.packet)
    ensures DistinctIds(Collected(hs, own))
    ensures own >= 0 ==> !Known(Collected(hs, own), own)
  {
    hide Sight;
    if hs != [] {
      var front := hs[..|hs| - 1];
      assert forall h :: h in front ==> h in hs;
      CollectedOnce(front, own);
    }
  }

  /** Every device announced is listed, the own one aside, and only devices announced are. */
  lemma {:induction false} CollectedAll(hs: seq<Heard>, own: int, d: Device)
    requires forall h :: h in hs ==> Decoded(h.round.packet)
    ensures WasAnnounced(hs, d) && d.id != own ==> Known(Collected(hs, own), d.id)
    ensures d in Collected(hs, own) ==> WasAnnounced(hs, d)
  {
    hide Sight;
    if hs != [] {
      var front, last := hs[..|hs| - 1], hs[|hs| - 1];
      assert forall h :: h in front ==> h in hs;
      CollectedAll(front, own, d);
      var before, devices := Collected(front, own), Collected(hs, own);
      AnnouncedGrows(front, last, d);
      assert hs == front + [last];
      if Known(before, d.id) {
        var i :| 0 <= i < |before| && before[i].id == d.id;
        assert devices[i].id == d.id;
      }
      if devices != before {
        assert devices[|before|] == Sight(last).device;
      }
    }
  }

  lemma AnnouncedGrows(front: seq<Heard>, last: Heard, d: Device)
    requires forall h :: h in front + [last] ==> Decoded(h.round.packet)
    ensures (forall h :: h in front ==> h in front + [last]) && last in front + [last]
    ensures WasAnnounced(front + [last], d) <==> WasAnnounced(front, d) || Sight(last) == Announced(d)
  {
    hide Sight;
    var hs := front + [last];
    assert forall k :: 0 <= k < |front| ==> hs[k] == front[k];
    assert hs[|front|] == last;
    if WasAnnounced(front, d) {
      var k :| 0 <= k < |front| && Sight(front[k]) == Announced(d);
      assert Sight(hs[k]) == Announced(d);
    }
  }

  /** The replies that end the wait, told by their bytes: simple and complex acknowledgements, errors, rejects and aborts
      that carry the expected invoke identifier. Undecodable packets and network messages are ignored, and everything else
      is handed on. */
  lemma RepliesByBytes(f: Received, expected: Byte)
    requires Decoded(f)
    ensures var n, data := f.npdu.length, f.frame.data;
            var reply := 0 <= n <= |data| - 3 && !f.npdu.networkMessage && data[n + 1] == expected
                         && (data[n] / 16 == 2 || data[n] / 16 == 3 || data[n] / 16 == 5 || data[n] / 16 == 6 || data[n] / 16 == 7);
            && (ActionOn(f, expected) == Ignore <==> n < 0 || f.npdu.networkMessage)
            && (ActionOn(f, expected).Return? <==> reply)
            && (reply ==> ActionOn(f, expected) == Return(16 * (data[n] / 16)))
  {
  }

  /** What discovery does with a packet, told by its bytes: unconfirmed requests of service 0 that decode announce a device;
      those that do not, packets without application data and network messages are nothing; the rest is handed on. */
  lemma SightsByBytes(h: Heard)
    requires Decoded(h.round.packet)
    ensures var n, data := h.round.packet.npdu.length, h.round.packet.frame.data;
            var apdu := 0 <= n <= |data| - 2 && !h.round.packet.npdu.networkMessage;
            var iAm := apdu && data[n] / 16 == 1 && data[n + 1] == 0;
            && (Sight(h) == Foreign <==> apdu && !iAm)
            && (Sight(h).Announced? <==> iAm && h.announced != [])
            && (Sight(h).Announced? ==> Sight(h) == Announced(h.announced[0]))
  {
  }
}
