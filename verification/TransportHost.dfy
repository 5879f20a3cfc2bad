/** The imperative host: the source's fields, updated in place, proved against the functions of `Transport`. */
module TransportHost {
  import opened Options
  import opened Numbers
  import opened Transport

  class Host {
    const lim: Limits
    var peers: map<Addr, Peer>
    var slots: seq<Option<Addr>>
    var free: seq<nat>
    var avail: nat
    var perIp: map<nat, nat>
    var marks: map<Addr, Watermark>
    var order: seq<(Addr, nat)>
    var nextGen: nat
    var cursor: nat
    var nextConn: nat

    ghost function View(): HostState
      reads this
    {
      HostState(peers, slots, free, avail, perIp, marks, order, nextGen, cursor, nextConn)
    }

    ghost predicate Ok()
      reads this
    {
      Valid(View(), lim)
    }

    constructor (limits: Limits)
      requires LimitsOk(limits)
      ensures lim == limits && View() == EMPTY_HOST && Ok()
    {
      lim := limits;
      peers, slots, free, avail := map[], [], [], 0;
      perIp, marks, order := map[], map[], [];
      nextGen, cursor, nextConn := 0, 0, 0;
    }

    /** Bind with hard ceilings, refusing the ones the source refuses. */
    static method BindWithLimits(maxPeers: nat, maxPerIp: nat, timeout: nat) returns (host: Option<Host>)
      ensures host.Some? <==> 0 < maxPeers <= 65535 && 0 < maxPerIp <= maxPeers
      ensures host.Some? ==>
        fresh(host.value) && host.value.lim == Limits(maxPeers, maxPerIp, timeout) && host.value.View() == EMPTY_HOST
    {
      if maxPeers == 0 || maxPeers > 65535 || maxPerIp == 0 || maxPerIp > maxPeers {
        return None;
      }
      var h := new Host(Limits(maxPeers, maxPerIp, timeout));
      host := Some(h);
    }

    method LookUp(id: nat) returns (a: Option<Addr>)
      ensures a == PeerAddr(View(), id)
    {
      if id == 0 || id > |slots| { return None; }
      match slots[id - 1]
      case None => a := None;
      case Some(addr) =>
        a := if addr in peers && peers[addr].id == id then Some(addr) else None;
    }

    method RemovePeer(a: Addr) returns (removed: Option<Peer>)
      requires LiveOk(peers, slots)
      modifies this
      ensures a in old(peers) ==> removed == Some(old(peers[a])) && View() == RemovePeerAt(old(View()), a)
      ensures a !in old(peers) ==> removed.None? && View() == old(View())
    {
      if a !in peers { return None; }
      var peer := peers[a];
      if a.ip in perIp && perIp[a.ip] > 1 {
        perIp := perIp[a.ip := perIp[a.ip] - 1];
      } else {
        perIp := perIp - {a.ip};
      }
      peers := peers - {a};
      slots := slots[peer.slot := None];
      free := free + [peer.slot];
      removed := Some(peer);
    }

    method AllocatePeerSlot() returns (slot: Option<nat>)
      requires avail <= |free|
      modifies this
      ensures (View(), slot) == AllocateSlot(old(View()), lim)
    {
      if |slots| < lim.maxPeers {
        slot := Some(|slots|);
        slots := slots + [None];
      } else if avail > 0 {
        avail := avail - 1;
        slot := Some(free[0]);
        free := free[1..];
      } else {
        slot := None;
      }
    }

    method Insert(a: Addr, p: Peer)
      requires p.slot < |slots|
      modifies this
      ensures View() == InsertPeer(old(View()), a, p)
    {
      var count := if a.ip in perIp then perIp[a.ip] else 0;
      perIp := perIp[a.ip := count + 1];
      peers := peers[a := p];
      slots := slots[p.slot := Some(a)];
      nextConn := nextConn + 1;
    }

    method RecordReconnectWatermark(a: Addr, connectTime: int, now: nat)
      modifies this
      ensures View() == RecordMark(old(View()), lim, a, connectTime, now)
    {
      if nextGen == U64_MAX {
        marks, order, nextGen := map[], [], 0;
      }
      nextGen := nextGen + 1;
      var generation := nextGen;
      if |order| == lim.maxPeers && |order| > 0 {
        var (oldest, g) := order[0];
        order := order[1..];
        if oldest in marks && marks[oldest].generation == g {
          marks := marks - {oldest};
        }
      }
      var expiresAt := now + lim.timeout;
      if a in marks {
        var time := if connectTime > marks[a].connectTime then connectTime else marks[a].connectTime;
        marks := marks[a := Watermark(time, expiresAt, generation)];
      } else {
        marks := marks[a := Watermark(connectTime, expiresAt, generation)];
      }
      order := order + [(a, generation)];
    }

    method ExpireReconnectWatermarks(now: nat) returns (cleanups: nat)
      modifies this
      ensures Expired(View(), cleanups) == Expire(old(View()), now, 0)
    {
      cleanups := 0;
      while cleanups < MAX_POLL_WATERMARK_CLEANUPS && |order| > 0
        invariant cleanups <= MAX_POLL_WATERMARK_CLEANUPS
        invariant Expire(View(), now, cleanups) == Expire(old(View()), now, 0)
        decreases |order|
      {
        var (a, g) := order[0];
        if a in marks && marks[a].generation == g {
          if marks[a].expiresAt > now { return; }
          marks := marks - {a};
        }
        order := order[1..];
        cleanups := cleanups + 1;
      }
    }

    /** Accept a request into a slot, or watermark the address if a live peer had to go and no slot is left. */
    method AdmitRequest(a: Addr, connectTime: int, number: nat, now: nat, replaced: bool) returns (events: seq<Event>)
      requires avail <= |free| && FreeOk(slots, free)
      modifies this
      ensures Outcome(View(), events) == Admit(old(View()), lim, a, connectTime, number, now, replaced)
    {
      var slot := AllocatePeerSlot();
      if slot.None? {
        if replaced { RecordReconnectWatermark(a, connectTime, now); }
        return [];
      }
      var peer := NewPeer(slot.value, a, connectTime, number, now, nextConn);
      Insert(a, peer);
      marks := marks - {a};
      events := [Connected(peer.id, peer.conn)];
    }

    method HandleConnectRequest(a: Addr, connectTime: int, number: nat, now: nat) returns (events: seq<Event>)
      requires Ok()
      modifies this
      ensures Outcome(View(), events) == HandleConnect(old(View()), lim, a, connectTime, number, now)
      ensures Ok()
    {
      hide LiveOk, FreeOk, IpsOk, ConnsOk, OrderOk, MarksOk, Transport.Admit, Transport.RemovePeerAt;
      HandleConnectValid(View(), lim, a, connectTime, number, now);
      if a in peers {
        var existing := peers[a];
        if connectTime <= existing.connectTime { return []; }
        RemoveValid(View(), lim, a);
        var _ := RemovePeer(a);
        var accepted := AdmitRequest(a, connectTime, number, now, true);
        return [Disconnected(existing.id, existing.conn, Remote)] + accepted;
      }
      if a in marks {
        if connectTime < marks[a].connectTime { return []; }
        marks := marks[a := marks[a].(connectTime := connectTime)];
      }
      if |peers| >= lim.maxPeers || (a.ip in perIp && perIp[a.ip] >= lim.maxPerIp) { return []; }
      events := AdmitRequest(a, connectTime, number, now, false);
    }

    method HandleDatagram(a: Addr, packet: Packet, now: nat) returns (events: seq<Event>)
      requires Ok()
      modifies this
      ensures Outcome(View(), events) == HandlePacket(old(View()), lim, a, packet, now)
      ensures Ok()
    {
      hide LiveOk, FreeOk, IpsOk, ConnsOk, OrderOk, MarksOk, HandleConnect, Transport.RemovePeerAt;
      HandlePacketValid(View(), lim, a, packet, now);
      events := [];
      if packet.Malformed? { return; }
      if packet.ConnectRequest? {
        if packet.acceptable {
          events := HandleConnectRequest(a, packet.connectTime, packet.connectionNumber, now);
        }
        return;
      }
      if a !in peers || packet.connectionNumber != peers[a].connectionNumber { return; }
      var peer := peers[a];
      match packet
      case Unreliable(_, m) =>
        peers := peers[a := Heard(peer, now, None)];
        events := [Data(peer.id, peer.conn, m)];
      case Ping(_, sequence) =>
        if sequence.Some? { peers := peers[a := Heard(peer, now, None)]; }
      case Pong(_, sequence) =>
        if sequence.Some? { peers := peers[a := Heard(peer, now, sequence)]; }
      case Disconnect(_, time) =>
        if time == Some(peer.connectTime) {
          var _ := RemovePeer(a);
          events := [Disconnected(peer.id, peer.conn, Remote)];
        }
      case _ =>
    }

    method DrainSocket(queue: seq<Recv>, now: nat) returns (events: seq<Event>, packets: nat, bytes: nat, rest: seq<Recv>)
      requires Ok()
      modifies this
      ensures Drained(View(), events, packets, bytes, rest) == Drain(old(View()), lim, queue, now, 0, 0)
      ensures Ok()
    {
      hide Valid, HandlePacket;
      events, packets, bytes, rest := [], 0, 0, queue;
      ghost var all := Drain(View(), lim, queue, now, 0, 0);
      while packets < MAX_POLL_PACKETS && bytes < MAX_POLL_BYTES && |rest| > 0
        invariant Ok()
        invariant
          var d := Drain(View(), lim, rest, now, packets, bytes);
          all == d.(events := events + d.events)
        decreases |rest|
      {
        match rest[0]
        case Fault => break;
        case ConnectionReset => packets, rest := packets + 1, rest[1..];
        case Datagram(a, n, packet) =>
          if n > MAX_POLL_BYTES - bytes { break; }
          packets, bytes, rest := packets + 1, bytes + n, rest[1..];
          if n <= MTU {
            var reported := HandleDatagram(a, packet, now);
            events := events + reported;
          }
      }
    }

    /** Look at the slot under the cursor: drop its peer if expired, else ping it if a ping is due. */
    method MaintainSlot(now: nat, timeouts: nat, keepalives: nat)
      returns (events: seq<Event>, timeouts': nat, keepalives': nat)
      requires LiveOk(peers, slots) && |slots| > 0
      modifies this
      ensures Maintained(View(), events, timeouts', keepalives') == MaintainOne(old(View()), lim, now, timeouts, keepalives)
    {
      hide LiveOk, Transport.RemovePeerAt, Since;
      events, timeouts', keepalives' := [], timeouts, keepalives;
      if cursor >= |slots| { cursor := 0; }
      var slot := cursor;
      cursor := cursor + 1;
      if slots[slot].None? { return; }
      var a := slots[slot].value;
      LiveAt(peers, slots, slot);
      var peer := peers[a];
      if IsExpired(peer, lim, now) {
        if timeouts < MAX_POLL_TIMEOUT_EVENTS {
          var _ := RemovePeer(a);
          events, timeouts' := [Disconnected(peer.id, peer.conn, Timeout)], timeouts + 1;
        }
        return;
      }
      if keepalives >= MAX_POLL_KEEPALIVE_SENDS || Since(now, peer.lastPing) < PING_INTERVAL { return; }
      peers := peers[a := Pinged(peer, now)];
      keepalives' := keepalives + 1;
    }

    method ProcessPeerMaintenance(now: nat) returns (events: seq<Event>, timeouts: nat, keepalives: nat)
      requires Ok()
      modifies this
      ensures Maintained(View(), events, timeouts, keepalives) == Maintenance(old(View()), lim, now)
      ensures Ok()
    {
      hide LiveOk, FreeOk, IpsOk, ConnsOk, OrderOk, MarksOk, MaintainOne;
      events, timeouts, keepalives := [], 0, 0;
      var slotCount := |slots|;
      if slotCount == 0 {
        cursor := 0;
        return;
      }
      var scanCount := Min(slotCount, MAX_POLL_MAINTENANCE_SCANS);
      ghost var all := Maintain(View(), lim, now, scanCount, 0, 0);
      for scan := 0 to scanCount
        invariant Ok() && |slots| == slotCount
        invariant
          var m := Maintain(View(), lim, now, scanCount - scan, timeouts, keepalives);
          all == m.(events := events + m.events)
      {
        MaintainOneValid(View(), lim, now, timeouts, keepalives);
        var reported;
        reported, timeouts, keepalives := MaintainSlot(now, timeouts, keepalives);
        events := events + reported;
      }
    }

    /** Pump the socket and the timers once; what is left on the socket waits for the next poll. */
    method Pump(queue: seq<Recv>, now: nat) returns (events: seq<Event>, rest: seq<Recv>)
      requires Ok()
      modifies this
      ensures
        var r := Poll(old(View()), lim, queue, now);
        View() == r.host && events == r.events && rest == r.drained.rest
      ensures Ok()
    {
      hide LiveOk, FreeOk, IpsOk, ConnsOk, OrderOk, MarksOk, Drain, Maintenance, Expire;
      OpenedValid(View(), lim, now);
      avail := |free|;
      var _ := ExpireReconnectWatermarks(now);
      var drained, _, _, left := DrainSocket(queue, now);
      var maintained, _, _ := ProcessPeerMaintenance(now);
      events, rest := drained + maintained, left;
    }

    /** Remove one peer at once; the caller owns the session clean-up, so no event is reported. */
    method DisconnectPeer(id: nat) returns (done: bool)
      requires Ok()
      modifies this
      ensures View() == LocalDisconnect(old(View()), id)
      ensures done == PeerAddr(old(View()), id).Some?
      ensures Ok()
    {
      hide LiveOk, FreeOk, IpsOk, ConnsOk, OrderOk, MarksOk, Transport.RemovePeerAt;
      LocalDisconnectValid(View(), lim, id);
      var a := LookUp(id);
      if a.None? { return false; }
      var peer := RemovePeer(a.value);
      done := peer.Some?;
    }

    method Close() returns (events: set<Event>)
      requires Ok()
      modifies this
      ensures events == set a | a in old(peers) :: Disconnected(old(peers)[a].id, old(peers)[a].conn, Shutdown)
      ensures View() == ShutDown(old(View()))
      ensures Ok()
    {
      hide LiveOk, FreeOk, IpsOk, ConnsOk, OrderOk, MarksOk;
      ShutDownValid(View(), lim);
      events := set a | a in peers :: Disconnected(peers[a].id, peers[a].conn, Shutdown);
      peers, slots, free, avail := map[], [], [], 0;
      perIp, marks, order := map[], map[], [];
      nextGen, cursor := 0, 0;
    }
  }
}
