/** Every poll does a bounded amount of work, and its round-robin maintenance starves no slot. */
module TransportFairness {
  import opened Options
  import opened Numbers
  import opened Transport
  import opened TransportSafety

  // ----- Bounds

  lemma AdmitEventBound(h: HostState, lim: Limits, a: Addr, connectTime: int, number: nat, now: nat, replaced: bool)
    requires CountsOk(h, lim) && FreeOk(h.slots, h.free)
    ensures
      var o := Admit(h, lim, a, connectTime, number, now, replaced);
      |o.events| <= 1 && o.host.cursor == h.cursor
  {
    hide AddIp, RecordMark;
    RecordMarkFrame(AllocateSlot(h, lim).0, lim, a, connectTime, now);
  }

  lemma ConnectEventBound(h: HostState, lim: Limits, a: Addr, connectTime: int, number: nat, now: nat)
    requires Valid(h, lim)
    ensures
      var o := HandleConnect(h, lim, a, connectTime, number, now);
      |o.events| <= 2 && o.host.cursor == h.cursor
  {
    hide LiveOk, FreeOk, IpsOk, ConnsOk, OrderOk, MarksOk, Admit, DropIp;
    if a in h.peers {
      RemoveValid(h, lim, a);
      AdmitEventBound(RemovePeerAt(h, a), lim, a, connectTime, number, now, true);
    } else {
      var h1 := if a in h.marks then h.(marks := h.marks[a := h.marks[a].(connectTime := connectTime)]) else h;
      AdmitEventBound(h1, lim, a, connectTime, number, now, false);
    }
  }

  lemma PacketEventBound(h: HostState, lim: Limits, a: Addr, packet: Packet, now: nat)
    requires Valid(h, lim)
    ensures
      var o := HandlePacket(h, lim, a, packet, now);
      |o.events| <= 2 && o.host.cursor == h.cursor
  {
    hide LiveOk, FreeOk, IpsOk, ConnsOk, OrderOk, MarksOk, HandleConnect, DropIp;
    if packet.ConnectRequest? { ConnectEventBound(h, lim, a, packet.connectTime, packet.connectionNumber, now); }
  }

  /** What one more consumed datagram adds to the account of a drain. */
  ghost predicate Accounted(d: Drained, queue: seq<Recv>, packets: nat, bytes: nat, cursor: nat) {
    && packets <= d.packets <= MAX_POLL_PACKETS
    && bytes <= d.bytes <= MAX_POLL_BYTES
    && |d.events| <= 2 * (d.packets - packets)
    && d.packets - packets <= |queue|
    && d.rest == queue[d.packets - packets..]
    && d.host.cursor == cursor
  }

  lemma AccountedMore(d: Drained, events: seq<Event>, queue: seq<Recv>, packets: nat, bytes: nat, n: nat, cursor: nat)
    requires queue != [] && |events| <= 2 && Accounted(d, queue[1..], packets + 1, bytes + n, cursor)
    ensures Accounted(d.(events := events + d.events), queue, packets, bytes, cursor)
  {
    assert queue[1..][d.packets - packets - 1..] == queue[d.packets - packets..];
  }

  /**
    * A drain consumes a prefix of the socket within both ceilings, and each consumed datagram reports at
    * most a disconnect and its replacement.
    */
  lemma {:induction false} DrainBounds(h: HostState, lim: Limits, queue: seq<Recv>, now: nat, packets: nat, bytes: nat)
    requires Valid(h, lim) && packets <= MAX_POLL_PACKETS && bytes <= MAX_POLL_BYTES
    ensures Accounted(Drain(h, lim, queue, now, packets, bytes), queue, packets, bytes, h.cursor)
    decreases |queue|
  {
    hide Valid, HandlePacket, Accounted;
    var d := Drain(h, lim, queue, now, packets, bytes);
    if packets >= MAX_POLL_PACKETS || bytes >= MAX_POLL_BYTES || |queue| == 0 || queue[0].Fault?
       || (queue[0].Datagram? && queue[0].size > MAX_POLL_BYTES - bytes) {
      NothingConsumed(h, queue, packets, bytes);
    } else {
      var n := if queue[0].Datagram? then queue[0].size else 0;
      if queue[0].ConnectionReset? || n > MTU {
        DrainBounds(h, lim, queue[1..], now, packets + 1, bytes + n);
        AccountedMore(d, [], queue, packets, bytes, n, h.cursor);
        assert [] + d.events == d.events;
      } else {
        var o := HandlePacket(h, lim, queue[0].addr, queue[0].packet, now);
        HandlePacketValid(h, lim, queue[0].addr, queue[0].packet, now);
        PacketEventBound(h, lim, queue[0].addr, queue[0].packet, now);
        DrainBounds(o.host, lim, queue[1..], now, packets + 1, bytes + n);
        AccountedMore(Drain(o.host, lim, queue[1..], now, packets + 1, bytes + n), o.events, queue, packets, bytes, n, h.cursor);
      }
    }
  }

  lemma NothingConsumed(h: HostState, queue: seq<Recv>, packets: nat, bytes: nat)
    requires packets <= MAX_POLL_PACKETS && bytes <= MAX_POLL_BYTES
    ensures Accounted(Drained(h, [], packets, bytes, queue), queue, packets, bytes, h.cursor)
  {
  }

  lemma MaintainOneBounds(h: HostState, lim: Limits, now: nat, timeouts: nat, keepalives: nat)
    requires Valid(h, lim) && |h.slots| > 0
    requires timeouts <= MAX_POLL_TIMEOUT_EVENTS && keepalives <= MAX_POLL_KEEPALIVE_SENDS
    ensures
      var m := MaintainOne(h, lim, now, timeouts, keepalives);
      && timeouts <= m.timeouts <= MAX_POLL_TIMEOUT_EVENTS
      && |m.events| == m.timeouts - timeouts
      && m.keepalives <= keepalives + 1 && m.keepalives <= MAX_POLL_KEEPALIVE_SENDS
      && m.host.cursor == NextSlot(h) + 1
  {
    hide LiveOk, FreeOk, IpsOk, ConnsOk, OrderOk, MarksOk, Since;
  }

  lemma {:induction false} MaintainBounds(h: HostState, lim: Limits, now: nat, scans: nat, timeouts: nat, keepalives: nat)
    requires Valid(h, lim) && |h.slots| > 0
    requires timeouts <= MAX_POLL_TIMEOUT_EVENTS && keepalives <= MAX_POLL_KEEPALIVE_SENDS
    ensures
      var m := Maintain(h, lim, now, scans, timeouts, keepalives);
      && timeouts <= m.timeouts <= MAX_POLL_TIMEOUT_EVENTS
      && |m.events| == m.timeouts - timeouts
      && m.keepalives <= MAX_POLL_KEEPALIVE_SENDS
    decreases scans
  {
    hide LiveOk, FreeOk, IpsOk, ConnsOk, OrderOk, MarksOk, CountsOk, MaintainOne;
    if scans > 0 {
      MaintainOneValid(h, lim, now, timeouts, keepalives);
      MaintainOneBounds(h, lim, now, timeouts, keepalives);
      var m := MaintainOne(h, lim, now, timeouts, keepalives);
      MaintainBounds(m.host, lim, now, scans - 1, m.timeouts, m.keepalives);
    }
  }

  /** One poll consumes at most 128 datagrams and 262144 bytes, and reports at most 2 events each plus 64 timeouts. */
  lemma PollBounds(h: HostState, lim: Limits, queue: seq<Recv>, now: nat)
    requires Valid(h, lim)
    ensures
      var r := Poll(h, lim, queue, now);
      && r.drained.packets <= MAX_POLL_PACKETS && r.drained.packets <= |queue|
      && r.drained.rest == queue[r.drained.packets..]
      && r.drained.bytes <= MAX_POLL_BYTES
      && |r.drained.events| <= 2 * r.drained.packets
      && |r.maintained.events| == r.maintained.timeouts <= MAX_POLL_TIMEOUT_EVENTS
      && |r.events| <= 2 * MAX_POLL_PACKETS + MAX_POLL_TIMEOUT_EVENTS
  {
    hide LiveOk, FreeOk, IpsOk, ConnsOk, OrderOk, MarksOk, CountsOk, Drain, Maintain, Opened;
    OpenedValid(h, lim, now);
    DrainValid(Opened(h, now), lim, queue, now, 0, 0);
    DrainBounds(Opened(h, now), lim, queue, now, 0, 0);
    var d := Drain(Opened(h, now), lim, queue, now, 0, 0);
    if |d.host.slots| > 0 {
      MaintainBounds(d.host, lim, now, Min(|d.host.slots|, MAX_POLL_MAINTENANCE_SCANS), 0, 0);
    }
  }

  // ----- Fairness

  /** How many slots the round-robin cursor passes before it reaches `slot`. */
  function Distance(from: nat, slot: nat, count: nat): nat
    requires from < count && slot < count
  {
    if slot >= from then slot - from else slot + count - from
  }

  lemma MaintainOneAdvances(h: HostState, lim: Limits, now: nat, timeouts: nat, keepalives: nat, slot: nat)
    requires Valid(h, lim) && slot < |h.slots|
    ensures
      var m := MaintainOne(h, lim, now, timeouts, keepalives);
      && |m.host.slots| == |h.slots|
      && (slot != NextSlot(h) ==>
            && m.host.slots[slot] == h.slots[slot]
            && Distance(NextSlot(m.host), slot, |h.slots|) == Distance(NextSlot(h), slot, |h.slots|) - 1)
      && (slot == NextSlot(h) ==> Distance(NextSlot(m.host), slot, |h.slots|) == |h.slots| - 1)
      && (forall a :: a in h.peers && h.slots[slot] == Some(a) && slot != NextSlot(h) ==>
            a in m.host.peers && m.host.peers[a] == h.peers[a])
  {
    hide FreeOk, IpsOk, ConnsOk, OrderOk, MarksOk, DropIp, Since;
  }

  /** A slot within the scan's reach is scanned: an expired peer there goes, unless the timeout budget is spent. */
  lemma {:induction false} ScanRemovesExpired(h: HostState, lim: Limits, now: nat, scans: nat, timeouts: nat,
                                              keepalives: nat, slot: nat)
    requires Valid(h, lim) && slot < |h.slots| && timeouts <= MAX_POLL_TIMEOUT_EVENTS
    requires keepalives <= MAX_POLL_KEEPALIVE_SENDS
    requires Distance(NextSlot(h), slot, |h.slots|) < scans
    requires h.slots[slot].Some? && h.slots[slot].value in h.peers
    requires IsExpired(h.peers[h.slots[slot].value], lim, now)
    ensures
      var m := Maintain(h, lim, now, scans, timeouts, keepalives);
      || m.timeouts == MAX_POLL_TIMEOUT_EVENTS
      || Departed(m.events, slot + 1, h.peers[h.slots[slot].value].conn)
    decreases scans
  {
    hide LiveOk, FreeOk, IpsOk, ConnsOk, OrderOk, MarksOk, CountsOk, MaintainOne, IsExpired, Departed;
    MaintainOneValid(h, lim, now, timeouts, keepalives);
    MaintainOneBounds(h, lim, now, timeouts, keepalives);
    MaintainOneAdvances(h, lim, now, timeouts, keepalives, slot);
    var m := MaintainOne(h, lim, now, timeouts, keepalives);
    MaintainBounds(m.host, lim, now, scans - 1, m.timeouts, m.keepalives);
    var r := Maintain(m.host, lim, now, scans - 1, m.timeouts, m.keepalives);
    if slot == NextSlot(h) {
      if timeouts < MAX_POLL_TIMEOUT_EVENTS { ScanHere(h, lim, now, timeouts, keepalives); }
    } else {
      ScanRemovesExpired(m.host, lim, now, scans - 1, m.timeouts, m.keepalives, slot);
    }
    DepartedEither(m.events, r.events, slot + 1, h.peers[h.slots[slot].value].conn);
  }

  lemma ScanHere(h: HostState, lim: Limits, now: nat, timeouts: nat, keepalives: nat)
    requires Valid(h, lim) && |h.slots| > 0 && h.slots[NextSlot(h)].Some?
    requires h.slots[NextSlot(h)].value in h.peers
    requires IsExpired(h.peers[h.slots[NextSlot(h)].value], lim, now) && timeouts < MAX_POLL_TIMEOUT_EVENTS
    ensures
      MaintainOne(h, lim, now, timeouts, keepalives).events ==
      [Disconnected(NextSlot(h) + 1, h.peers[h.slots[NextSlot(h)].value].conn, Timeout)]
    ensures
      Departed(MaintainOne(h, lim, now, timeouts, keepalives).events, NextSlot(h) + 1,
               h.peers[h.slots[NextSlot(h)].value].conn)
  {
    hide FreeOk, IpsOk, ConnsOk, OrderOk, MarksOk, IsExpired;
    assert MaintainOne(h, lim, now, timeouts, keepalives).events[0].Disconnected?;
  }

  lemma DepartedEither(e1: seq<Event>, e2: seq<Event>, id: nat, conn: Conn)
    ensures Departed(e1, id, conn) || Departed(e2, id, conn) ==> Departed(e1 + e2, id, conn)
  {
    if Departed(e1, id, conn) {
      var i :| 0 <= i < |e1| && e1[i].Disconnected? && e1[i].id == id && e1[i].conn == conn;
      assert (e1 + e2)[i] == e1[i];
    } else if Departed(e2, id, conn) {
      var i :| 0 <= i < |e2| && e2[i].Disconnected? && e2[i].id == id && e2[i].conn == conn;
      assert (e1 + e2)[|e1| + i] == e2[i];
    }
  }

  lemma {:induction false} MaintainAdvances(h: HostState, lim: Limits, now: nat, scans: nat, timeouts: nat,
                                            keepalives: nat, slot: nat)
    requires Valid(h, lim) && slot < |h.slots|
    requires scans <= Distance(NextSlot(h), slot, |h.slots|)
    ensures
      var m := Maintain(h, lim, now, scans, timeouts, keepalives);
      && |m.host.slots| == |h.slots|
      && Distance(NextSlot(m.host), slot, |h.slots|) == Distance(NextSlot(h), slot, |h.slots|) - scans
    decreases scans
  {
    hide LiveOk, FreeOk, IpsOk, ConnsOk, OrderOk, MarksOk, CountsOk, MaintainOne;
    if scans > 0 {
      MaintainOneValid(h, lim, now, timeouts, keepalives);
      MaintainOneAdvances(h, lim, now, timeouts, keepalives, slot);
      var m := MaintainOne(h, lim, now, timeouts, keepalives);
      MaintainAdvances(m.host, lim, now, scans - 1, m.timeouts, m.keepalives, slot);
    }
  }

  /** One round of the server loop: a poll, then whatever local disconnects its batch led to. */
  datatype Round = Round(queue: seq<Recv>, now: nat, evicted: seq<nat>)

  ghost function AfterRound(h: HostState, lim: Limits, round: Round): (r: HostState)
    requires Valid(h, lim)
    ensures Valid(r, lim)
  {
    hide LiveOk, FreeOk, IpsOk, ConnsOk, OrderOk, MarksOk, Poll, Disconnects;
    PollValid(h, lim, round.queue, round.now);
    DisconnectsValid(Poll(h, lim, round.queue, round.now).host, lim, round.evicted);
    Disconnects(Poll(h, lim, round.queue, round.now).host, lim, round.evicted)
  }

  ghost function AfterRounds(h: HostState, lim: Limits, rounds: seq<Round>): (r: HostState)
    requires Valid(h, lim)
    ensures Valid(r, lim)
    decreases |rounds|
  {
    hide Valid, AfterRound;
    if rounds == [] then h else AfterRounds(AfterRound(h, lim, rounds[0]), lim, rounds[1..])
  }

  /** The host that the `k`-th poll hands to its maintenance scan. */
  ghost function Scanning(h: HostState, lim: Limits, rounds: seq<Round>, k: nat): (r: HostState)
    requires Valid(h, lim) && k < |rounds|
    ensures Valid(r, lim)
  {
    hide Valid, Drain, Opened, AfterRounds;
    var h1 := AfterRounds(h, lim, rounds[..k]);
    OpenedValid(h1, lim, rounds[k].now);
    DrainValid(Opened(h1, rounds[k].now), lim, rounds[k].queue, rounds[k].now, 0, 0);
    Drain(Opened(h1, rounds[k].now), lim, rounds[k].queue, rounds[k].now, 0, 0).host
  }

  lemma DisconnectKeepsCursor(h: HostState, lim: Limits, id: nat)
    requires Valid(h, lim)
    ensures LocalDisconnect(h, id).cursor == h.cursor && |LocalDisconnect(h, id).slots| == |h.slots|
  {
    hide FreeOk, IpsOk, ConnsOk, OrderOk, MarksOk, DropIp;
  }

  lemma {:induction false} DisconnectsKeepCursor(h: HostState, lim: Limits, ids: seq<nat>)
    requires Valid(h, lim)
    ensures Disconnects(h, lim, ids).cursor == h.cursor && |Disconnects(h, lim, ids).slots| == |h.slots|
    decreases |ids|
  {
    hide LiveOk, FreeOk, IpsOk, ConnsOk, OrderOk, MarksOk, LocalDisconnect;
    if ids != [] {
      LocalDisconnectValid(h, lim, ids[0]);
      DisconnectKeepsCursor(h, lim, ids[0]);
      DisconnectsKeepCursor(LocalDisconnect(h, ids[0]), lim, ids[1..]);
    }
  }

  lemma OpenKeepsCursor(h: HostState, lim: Limits, queue: seq<Recv>, now: nat)
    requires Valid(h, lim)
    ensures Valid(Opened(h, now), lim)
    ensures Drain(Opened(h, now), lim, queue, now, 0, 0).host.cursor == h.cursor
  {
    hide Valid, Drain, Expire;
    OpenedValid(h, lim, now);
    ExpireFrame(h.(avail := |h.free|), now, 0);
    DrainBounds(Opened(h, now), lim, queue, now, 0, 0);
  }

  /**
    * Fairness: with an unchanged slot count, any run of polls that together scan at least as many slots
    * as there are scans every slot, so ceil(S / 512) polls suffice.
    */
  lemma {:induction false} EverySlotIsScanned(h: HostState, lim: Limits, rounds: seq<Round>, count: nat, slot: nat)
    returns (k: nat)
    requires Valid(h, lim) && slot < count
    requires forall j :: 0 <= j < |rounds| ==> |Scanning(h, lim, rounds, j).slots| == count
    requires count == |h.slots|
    requires Distance(NextSlot(h), slot, count) < |rounds| * Min(count, MAX_POLL_MAINTENANCE_SCANS)
    ensures k < |rounds|
    ensures Distance(NextSlot(Scanning(h, lim, rounds, k)), slot, count) < Min(count, MAX_POLL_MAINTENANCE_SCANS)
    decreases |rounds|
  {
    hide LiveOk, FreeOk, IpsOk, ConnsOk, OrderOk, MarksOk, CountsOk, Drain, Maintain, Opened, Disconnects;
    assert rounds[..0] == [];
    assert |Scanning(h, lim, rounds, 0).slots| == count;
    var round := rounds[0];
    var s := Scanning(h, lim, rounds, 0);
    OpenKeepsCursor(h, lim, round.queue, round.now);
    var scans := Min(count, MAX_POLL_MAINTENANCE_SCANS);
    if Distance(NextSlot(s), slot, count) < scans {
      k := 0;
    } else {
      MaintainAdvances(s, lim, round.now, scans, 0, 0, slot);
      MaintainValid(s, lim, round.now, scans, 0, 0);
      var m := Maintain(s, lim, round.now, scans, 0, 0).host;
      assert m == Poll(h, lim, round.queue, round.now).host;
      DisconnectsKeepCursor(m, lim, round.evicted);
      var h1 := AfterRound(h, lim, round);
      forall j | 0 <= j < |rounds| - 1
        ensures Scanning(h1, lim, rounds[1..], j) == Scanning(h, lim, rounds, j + 1)
      {
        assert rounds[..j + 1][0] == round && rounds[..j + 1][1..] == rounds[1..][..j];
      }
      assert forall j :: 0 <= j < |rounds[1..]| ==> |Scanning(h1, lim, rounds[1..], j).slots| == count by {
        forall j | 0 <= j < |rounds[1..]| ensures |Scanning(h1, lim, rounds[1..], j).slots| == count {
          assert |Scanning(h, lim, rounds, j + 1).slots| == count;
        }
      }
      var k1 := EverySlotIsScanned(h1, lim, rounds[1..], count, slot);
      k := k1 + 1;
    }
  }

  /**
    * So an expired peer is not kept for long: over ceil(S / 512) polls with S slots, some poll scans its
    * slot, and if the peer is then expired its departure is reported or that poll spent its timeout budget.
    */
  lemma ExpiredPeersLeave(h: HostState, lim: Limits, rounds: seq<Round>, slot: nat) returns (k: nat)
    requires Valid(h, lim) && slot < |h.slots|
    requires forall j :: 0 <= j < |rounds| ==> |Scanning(h, lim, rounds, j).slots| == |h.slots|
    requires |rounds| == (|h.slots| + MAX_POLL_MAINTENANCE_SCANS - 1) / MAX_POLL_MAINTENANCE_SCANS
    ensures k < |rounds|
    ensures
      var s := Scanning(h, lim, rounds, k);
      var m := Maintenance(s, lim, rounds[k].now);
      s.slots[slot].Some? && s.slots[slot].value in s.peers && IsExpired(s.peers[s.slots[slot].value], lim, rounds[k].now) ==>
        || m.timeouts == MAX_POLL_TIMEOUT_EVENTS
        || Departed(m.events, slot + 1, s.peers[s.slots[slot].value].conn)
  {
    hide Valid, Scanning, Maintain, IsExpired, Departed;
    var count := |h.slots|;
    assert Distance(NextSlot(h), slot, count) < |rounds| * Min(count, MAX_POLL_MAINTENANCE_SCANS);
    k := EverySlotIsScanned(h, lim, rounds, count, slot);
    var s := Scanning(h, lim, rounds, k);
    assert |s.slots| == count;
    if s.slots[slot].Some? && s.slots[slot].value in s.peers && IsExpired(s.peers[s.slots[slot].value], lim, rounds[k].now) {
      ScanRemovesExpired(s, lim, rounds[k].now, Min(count, MAX_POLL_MAINTENANCE_SCANS), 0, 0, slot);
    }
  }
}
