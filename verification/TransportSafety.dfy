/**
  * Peer ids never alias within a batch: during a poll, and until the next one, each id denotes one connection
  * at most, whatever peers come, go, time out or are disconnected locally.
  */
module TransportSafety {
  import opened Options
  import opened Numbers
  import opened Wire
  import opened Transport

  // ----- Batch non-aliasing

  /** Which connection each peer id has denoted since the current poll began. */
  type Owners = map<nat, Conn>

  ghost predicate OwnsLive(peers: map<Addr, Peer>, owner: Owners) {
    forall a :: a in peers ==> peers[a].id in owner && owner[peers[a].id] == peers[a].conn
  }

  /** No slot in the allocatable prefix of the free list has been used since the poll began. */
  ghost predicate PrefixUnused(free: seq<nat>, avail: nat, owner: Owners) {
    forall k :: 0 <= k < avail && k < |free| ==> free[k] + 1 !in owner
  }

  ghost predicate OwnersInRange(owner: Owners, slots: nat) {
    forall id :: id in owner ==> 1 <= id <= slots
  }

  ghost predicate Epoch(h: HostState, owner: Owners) {
    OwnsLive(h.peers, owner) && PrefixUnused(h.free, h.avail, owner) && OwnersInRange(owner, |h.slots|)
  }

  ghost predicate Extends(before: Owners, after: Owners) {
    forall id :: id in before ==> id in after && after[id] == before[id]
  }

  ghost predicate EventsOwned(events: seq<Event>, owner: Owners) {
    forall i :: 0 <= i < |events| ==> events[i].id in owner && owner[events[i].id] == events[i].conn
  }

  ghost predicate Departed(events: seq<Event>, id: nat, conn: Conn) {
    exists i :: 0 <= i < |events| && events[i].Disconnected? && events[i].id == id && events[i].conn == conn
  }

  /** Every connection live before is still live at the same address, or its departure was announced. */
  ghost predicate Announced(before: map<Addr, Peer>, after: map<Addr, Peer>, events: seq<Event>) {
    forall a :: a in before ==>
      || (a in after && after[a].id == before[a].id && after[a].conn == before[a].conn)
      || Departed(events, before[a].id, before[a].conn)
  }

  /** One step of a poll: the id-to-connection map only grows, and covers what is live and what was reported. */
  ghost predicate Epochal(h: HostState, r: HostState, events: seq<Event>, owner: Owners, owner': Owners) {
    && Extends(owner, owner')
    && Epoch(r, owner')
    && EventsOwned(events, owner')
    && Announced(h.peers, r.peers, events)
  }

  lemma EpochalThen(h0: HostState, h1: HostState, h2: HostState, e1: seq<Event>, e2: seq<Event>,
                    o0: Owners, o1: Owners, o2: Owners)
    requires Epochal(h0, h1, e1, o0, o1) && Epochal(h1, h2, e2, o1, o2)
    ensures Epochal(h0, h2, e1 + e2, o0, o2)
  {
    hide Epoch;
    var es := e1 + e2;
    forall a | a in h0.peers
      ensures (a in h2.peers && h2.peers[a].id == h0.peers[a].id && h2.peers[a].conn == h0.peers[a].conn)
           || Departed(es, h0.peers[a].id, h0.peers[a].conn)
    {
      var p := h0.peers[a];
      if Departed(e1, p.id, p.conn) {
        var i :| 0 <= i < |e1| && e1[i].Disconnected? && e1[i].id == p.id && e1[i].conn == p.conn;
        assert es[i] == e1[i];
      } else if Departed(e2, p.id, p.conn) {
        var i :| 0 <= i < |e2| && e2[i].Disconnected? && e2[i].id == p.id && e2[i].conn == p.conn;
        assert es[|e1| + i] == e2[i];
      }
    }
  }

  lemma EpochalIdle(h: HostState, r: HostState, owner: Owners)
    requires Epoch(h, owner)
    requires r.peers.Keys == h.peers.Keys && r.slots == h.slots && r.free == h.free && r.avail == h.avail
    requires forall a :: a in h.peers ==> r.peers[a].id == h.peers[a].id && r.peers[a].conn == h.peers[a].conn
    ensures Epochal(h, r, [], owner, owner)
  {
    assert forall a :: a in r.peers ==> a in h.peers;
  }

  lemma RemoveEpochal(h: HostState, lim: Limits, owner: Owners, a: Addr, reason: Reason)
    requires Valid(h, lim) && Epoch(h, owner) && a in h.peers
    ensures Epoch(RemovePeerAt(h, a), owner)
    ensures Epochal(h, RemovePeerAt(h, a), [Disconnected(h.peers[a].id, h.peers[a].conn, reason)], owner, owner)
  {
    hide FreeOk, IpsOk, ConnsOk, OrderOk, MarksOk, DropIp;
    var p := h.peers[a];
    var es := [Disconnected(p.id, p.conn, reason)];
    assert es[0].Disconnected?;
    assert Departed(es, p.id, p.conn);
  }

  /** A slot the allocator hands out has not been used since the poll began. */
  lemma AllocatedUnused(h: HostState, lim: Limits, owner: Owners, slot: nat, conn: Conn)
    requires forall j, k :: 0 <= j < k < |h.free| ==> h.free[j] != h.free[k]
    requires forall k :: 0 <= k < |h.free| ==> h.free[k] < |h.slots|
    requires h.avail <= |h.free|
    requires PrefixUnused(h.free, h.avail, owner) && OwnersInRange(owner, |h.slots|)
    requires AllocateSlot(h, lim).1 == Some(slot)
    ensures slot + 1 !in owner
    ensures
      var h1 := AllocateSlot(h, lim).0;
      var owner' := owner[slot + 1 := conn];
      PrefixUnused(h1.free, h1.avail, owner') && OwnersInRange(owner', |h1.slots|)
  {
  }

  lemma FreeFacts(slots: seq<Option<Addr>>, free: seq<nat>)
    requires FreeOk(slots, free)
    ensures forall j, k :: 0 <= j < k < |free| ==> free[j] != free[k]
    ensures forall k :: 0 <= k < |free| ==> free[k] < |slots|
  {
  }

  lemma OwnsInsert(peers: map<Addr, Peer>, owner: Owners, a: Addr, p: Peer)
    requires OwnsLive(peers, owner) && p.id !in owner
    ensures OwnsLive(peers[a := p], owner[p.id := p.conn])
    ensures Extends(owner, owner[p.id := p.conn])
    ensures a !in peers ==> Announced(peers, peers[a := p], [Connected(p.id, p.conn)])
  {
  }

  /** Taking a slot and a peer into it extends the id-to-connection map by that one connection. */
  lemma InsertEpochal(h: HostState, lim: Limits, owner: Owners, a: Addr, p: Peer, slot: nat)
    requires h.avail <= |h.free| && FreeOk(h.slots, h.free) && Epoch(h, owner) && a !in h.peers
    requires AllocateSlot(h, lim).1 == Some(slot) && p.slot == slot && p.id == slot + 1
    ensures slot < |AllocateSlot(h, lim).0.slots|
    ensures
      var r := InsertPeer(AllocateSlot(h, lim).0, a, p);
      Epochal(h, r.(marks := r.marks - {a}), [Connected(p.id, p.conn)], owner, owner[p.id := p.conn])
  {
    hide FreeOk, AddIp, PrefixUnused, OwnersInRange, OwnsLive, Extends, Announced;
    FreeFacts(h.slots, h.free);
    AllocatedUnused(h, lim, owner, slot, p.conn);
    OwnsInsert(h.peers, owner, a, p);
  }

  lemma AdmitEpochal(h: HostState, lim: Limits, owner: Owners, a: Addr, connectTime: int, number: nat, now: nat,
                     replaced: bool) returns (owner': Owners)
    requires Valid(h, lim) && Epoch(h, owner) && a !in h.peers
    ensures
      var o := Admit(h, lim, a, connectTime, number, now, replaced);
      Epochal(h, o.host, o.events, owner, owner')
  {
    hide LiveOk, FreeOk, IpsOk, ConnsOk, OrderOk, MarksOk, InsertPeer, RecordMark, Epoch, Epochal;
    var (h1, slot) := AllocateSlot(h, lim);
    if slot.None? {
      owner' := owner;
      RecordMarkFrame(h1, lim, a, connectTime, now);
      EpochalIdle(h, Admit(h, lim, a, connectTime, number, now, replaced).host, owner);
    } else {
      var p := NewPeer(slot.value, a, connectTime, number, now, h.nextConn);
      owner' := owner[p.id := p.conn];
      InsertEpochal(h, lim, owner, a, p, slot.value);
    }
  }

  lemma RecordMarkFrame(h: HostState, lim: Limits, a: Addr, connectTime: int, now: nat)
    ensures
      var r := RecordMark(h, lim, a, connectTime, now);
      r.peers == h.peers && r.slots == h.slots && r.free == h.free && r.avail == h.avail && r.cursor == h.cursor
  {
  }

  lemma ConnectEpochal(h: HostState, lim: Limits, owner: Owners, a: Addr, connectTime: int, number: nat, now: nat)
    returns (owner': Owners)
    requires Valid(h, lim) && Epoch(h, owner)
    ensures
      var o := HandleConnect(h, lim, a, connectTime, number, now);
      Epochal(h, o.host, o.events, owner, owner')
  {
    hide LiveOk, FreeOk, IpsOk, ConnsOk, OrderOk, MarksOk, Epochal, Epoch, Admit, RemovePeerAt;
    owner' := owner;
    EpochalIdle(h, h, owner);
    if a in h.peers {
      if connectTime > h.peers[a].connectTime {
        var p := h.peers[a];
        var h1 := RemovePeerAt(h, a);
        RemoveValid(h, lim, a);
        RemoveEpochal(h, lim, owner, a, Remote);
        owner' := AdmitEpochal(h1, lim, owner, a, connectTime, number, now, true);
        var o := Admit(h1, lim, a, connectTime, number, now, true);
        EpochalThen(h, h1, o.host, [Disconnected(p.id, p.conn, Remote)], o.events, owner, owner, owner');
      }
    } else if !(a in h.marks && connectTime < h.marks[a].connectTime) {
      if a in h.marks { RaiseMarkOk(h, a, connectTime); }
      var h1 := if a in h.marks then h.(marks := h.marks[a := h.marks[a].(connectTime := connectTime)]) else h;
      EpochalIdle(h, h1, owner);
      if !(|h1.peers| >= lim.maxPeers || (a.ip in h1.perIp && h1.perIp[a.ip] >= lim.maxPerIp)) {
        owner' := AdmitEpochal(h1, lim, owner, a, connectTime, number, now, false);
        var o := Admit(h1, lim, a, connectTime, number, now, false);
        EpochalThen(h, h1, o.host, [], o.events, owner, owner, owner');
        assert [] + o.events == o.events;
      }
    }
  }

  lemma DataEpochal(h: HostState, r: HostState, owner: Owners, a: Addr, m: Message)
    requires Epoch(h, owner) && a in h.peers
    requires r.peers.Keys == h.peers.Keys && r.slots == h.slots && r.free == h.free && r.avail == h.avail
    requires forall b :: b in h.peers ==> r.peers[b].id == h.peers[b].id && r.peers[b].conn == h.peers[b].conn
    ensures Epochal(h, r, [Data(h.peers[a].id, h.peers[a].conn, m)], owner, owner)
  {
    assert forall b :: b in r.peers ==> b in h.peers;
  }

  lemma LivePacketEpochal(h: HostState, lim: Limits, owner: Owners, a: Addr, packet: Packet, now: nat)
    requires Valid(h, lim) && Epoch(h, owner) && a in h.peers
    ensures
      var o := HandleLive(h, a, packet, now);
      Epochal(h, o.host, o.events, owner, owner)
  {
    hide LiveOk, FreeOk, IpsOk, ConnsOk, OrderOk, MarksOk, CountsOk, RemovePeerAt, Epochal, Epoch, Heard;
    var o := HandleLive(h, a, packet, now);
    if o.events == [] {
      HeardKeepsIdentity(h.peers[a], now);
      EpochalIdle(h, o.host, owner);
    } else if packet.Unreliable? {
      HeardKeepsIdentity(h.peers[a], now);
      DataEpochal(h, o.host, owner, a, packet.message);
    } else {
      RemoveEpochal(h, lim, owner, a, Remote);
    }
  }

  lemma HeardKeepsIdentity(p: Peer, now: nat)
    ensures forall pong :: Heard(p, now, pong).id == p.id && Heard(p, now, pong).conn == p.conn
  {
  }

  lemma PacketEpochal(h: HostState, lim: Limits, owner: Owners, a: Addr, packet: Packet, now: nat)
    returns (owner': Owners)
    requires Valid(h, lim) && Epoch(h, owner)
    ensures
      var o := HandlePacket(h, lim, a, packet, now);
      Epochal(h, o.host, o.events, owner, owner')
  {
    hide LiveOk, FreeOk, IpsOk, ConnsOk, OrderOk, MarksOk, HandleConnect, HandleLive, Epochal, Epoch;
    owner' := owner;
    EpochalIdle(h, h, owner);
    if packet.ConnectRequest? {
      if packet.acceptable {
        owner' := ConnectEpochal(h, lim, owner, a, packet.connectTime, packet.connectionNumber, now);
      }
    } else if a in h.peers {
      LivePacketEpochal(h, lim, owner, a, packet, now);
    }
  }

  lemma {:induction false} DrainEpochal(h: HostState, lim: Limits, owner: Owners, queue: seq<Recv>, now: nat,
                                        packets: nat, bytes: nat) returns (owner': Owners)
    requires Valid(h, lim) && Epoch(h, owner)
    ensures
      var d := Drain(h, lim, queue, now, packets, bytes);
      Epochal(h, d.host, d.events, owner, owner')
    decreases |queue|
  {
    hide Valid, Epoch, HandlePacket;
    owner' := owner;
    EpochalIdle(h, h, owner);
    if !(packets >= MAX_POLL_PACKETS || bytes >= MAX_POLL_BYTES || |queue| == 0) {
      match queue[0]
      case Fault =>
      case ConnectionReset => owner' := DrainEpochal(h, lim, owner, queue[1..], now, packets + 1, bytes);
      case Datagram(a, n, packet) =>
        if n <= MAX_POLL_BYTES - bytes {
          if n > MTU {
            owner' := DrainEpochal(h, lim, owner, queue[1..], now, packets + 1, bytes + n);
          } else {
            var o := HandlePacket(h, lim, a, packet, now);
            HandlePacketValid(h, lim, a, packet, now);
            var mid := PacketEpochal(h, lim, owner, a, packet, now);
            owner' := DrainEpochal(o.host, lim, mid, queue[1..], now, packets + 1, bytes + n);
            var d := Drain(o.host, lim, queue[1..], now, packets + 1, bytes + n);
            EpochalThen(h, o.host, d.host, o.events, d.events, owner, mid, owner');
          }
        }
    }
  }

  lemma MaintainOneEpochal(h: HostState, lim: Limits, owner: Owners, now: nat, timeouts: nat, keepalives: nat)
    requires Valid(h, lim) && |h.slots| > 0 && Epoch(h, owner)
    ensures
      var m := MaintainOne(h, lim, now, timeouts, keepalives);
      Epochal(h, m.host, m.events, owner, owner)
  {
    hide LiveOk, FreeOk, IpsOk, ConnsOk, OrderOk, MarksOk, Since, RemovePeerAt, Epoch, Epochal;
    var slot := NextSlot(h);
    var h1 := h.(cursor := slot + 1);
    EpochalIdle(h, h1, owner);
    if h.slots[slot].Some? {
      var a := h.slots[slot].value;
      LiveAt(h.peers, h.slots, slot);
      var es := [Disconnected(h.peers[a].id, h.peers[a].conn, Timeout)];
      RemoveEpochal(h1, lim, owner, a, Timeout);
      EpochalThen(h, h1, RemovePeerAt(h1, a), [], es, owner, owner, owner);
      assert [] + es == es;
      EpochalIdle(h, h1.(peers := h1.peers[a := Pinged(h.peers[a], now)]), owner);
    }
  }

  lemma {:induction false} MaintainEpochal(h: HostState, lim: Limits, owner: Owners, now: nat, scans: nat,
                                           timeouts: nat, keepalives: nat)
    requires Valid(h, lim) && |h.slots| > 0 && Epoch(h, owner)
    ensures
      var m := Maintain(h, lim, now, scans, timeouts, keepalives);
      Epochal(h, m.host, m.events, owner, owner)
    decreases scans
  {
    hide LiveOk, FreeOk, IpsOk, ConnsOk, OrderOk, MarksOk, CountsOk, Epoch, MaintainOne;
    EpochalIdle(h, h, owner);
    if scans > 0 {
      MaintainOneValid(h, lim, now, timeouts, keepalives);
      MaintainOneEpochal(h, lim, owner, now, timeouts, keepalives);
      var m := MaintainOne(h, lim, now, timeouts, keepalives);
      MaintainEpochal(m.host, lim, owner, now, scans - 1, m.timeouts, m.keepalives);
      var r := Maintain(m.host, lim, now, scans - 1, m.timeouts, m.keepalives);
      EpochalThen(h, m.host, r.host, m.events, r.events, owner, owner, owner);
    }
  }

  lemma {:induction false} ExpireFrame(h: HostState, now: nat, cleanups: nat)
    requires cleanups <= MAX_POLL_WATERMARK_CLEANUPS
    ensures
      var r := Expire(h, now, cleanups).host;
      && r.peers == h.peers && r.slots == h.slots && r.free == h.free && r.avail == h.avail
      && r.cursor == h.cursor && r.perIp == h.perIp && r.nextConn == h.nextConn
    decreases |h.order|
  {
    if Expire(h, now, cleanups) != Expired(h, cleanups) { ExpireFrame(PopMark(h), now, cleanups + 1); }
  }

  predicate IsLive(slots: seq<Option<Addr>>, id: nat) {
    1 <= id <= |slots| && slots[id - 1].Some?
  }

  ghost function LiveOwners(slots: seq<Option<Addr>>, peers: map<Addr, Peer>): Owners
    requires LiveOk(peers, slots)
  {
    map id: nat | 1 <= id <= |slots| && IsLive(slots, id) :: peers[slots[id - 1].value].conn
  }

  lemma LiveOwnersEpoch(h: HostState)
    requires LiveOk(h.peers, h.slots) && FreeOk(h.slots, h.free)
    ensures Epoch(h, LiveOwners(h.slots, h.peers))
  {
    var owner := LiveOwners(h.slots, h.peers);
    forall a | a in h.peers ensures h.peers[a].id in owner && owner[h.peers[a].id] == h.peers[a].conn {
      assert IsLive(h.slots, h.peers[a].id);
    }
  }

  /** The live peers, read as an id-to-connection map, open an epoch when a poll opens. */
  lemma OpenEpoch(h: HostState, lim: Limits, now: nat)
    requires Valid(h, lim)
    ensures Epoch(Opened(h, now), LiveOwners(h.slots, h.peers))
    ensures Opened(h, now).peers == h.peers
  {
    hide LiveOk, FreeOk, IpsOk, ConnsOk, OrderOk, MarksOk, Expire, OwnsLive, PrefixUnused, OwnersInRange, LiveOwners;
    ExpireFrame(h.(avail := |h.free|), now, 0);
    LiveOwnersEpoch(Opened(h, now));
  }

  lemma PollEpochal(h: HostState, lim: Limits, queue: seq<Recv>, now: nat) returns (owner: Owners)
    requires Valid(h, lim)
    ensures
      var r := Poll(h, lim, queue, now);
      && Extends(LiveOwners(h.slots, h.peers), owner)
      && Epoch(r.host, owner)
      && EventsOwned(r.events, owner)
      && Announced(h.peers, r.host.peers, r.events)
  {
    hide LiveOk, FreeOk, IpsOk, ConnsOk, OrderOk, MarksOk, Epoch, Drain, Maintain, Opened, LiveOwners;
    OpenedValid(h, lim, now);
    OpenEpoch(h, lim, now);
    var o := Opened(h, now);
    DrainValid(o, lim, queue, now, 0, 0);
    var d := Drain(o, lim, queue, now, 0, 0);
    owner := DrainEpochal(o, lim, LiveOwners(h.slots, h.peers), queue, now, 0, 0);
    var m := Maintenance(d.host, lim, now);
    if |d.host.slots| == 0 {
      EpochalIdle(d.host, m.host, owner);
    } else {
      MaintainEpochal(d.host, lim, owner, now, Min(|d.host.slots|, MAX_POLL_MAINTENANCE_SCANS), 0, 0);
    }
    EpochalThen(o, d.host, m.host, d.events, m.events, LiveOwners(h.slots, h.peers), owner, owner);
  }

  ghost function Disconnects(h: HostState, lim: Limits, ids: seq<nat>): HostState
    requires Valid(h, lim)
    decreases |ids|
  {
    if ids == [] then h
    else
      LocalDisconnectValid(h, lim, ids[0]);
      Disconnects(LocalDisconnect(h, ids[0]), lim, ids[1..])
  }

  lemma DisconnectEpoch(h: HostState, lim: Limits, owner: Owners, id: nat)
    requires Valid(h, lim) && Epoch(h, owner)
    ensures Valid(LocalDisconnect(h, id), lim) && Epoch(LocalDisconnect(h, id), owner)
  {
    hide FreeOk, IpsOk, ConnsOk, OrderOk, MarksOk, Epoch, RemovePeerAt;
    LocalDisconnectValid(h, lim, id);
    var a := PeerAddr(h, id);
    if a.Some? { RemoveEpochal(h, lim, owner, a.value, Remote); }
  }

  lemma {:induction false} DisconnectsEpoch(h: HostState, lim: Limits, owner: Owners, ids: seq<nat>)
    requires Valid(h, lim) && Epoch(h, owner)
    ensures Epoch(Disconnects(h, lim, ids), owner)
    decreases |ids|
  {
    hide LiveOk, FreeOk, IpsOk, ConnsOk, OrderOk, MarksOk, Epoch, RemovePeerAt;
    if ids != [] {
      DisconnectEpoch(h, lim, owner, ids[0]);
      DisconnectsEpoch(LocalDisconnect(h, ids[0]), lim, owner, ids[1..]);
    }
  }

  lemma PeerAddrOwned(h: HostState, owner: Owners, id: nat, conn: Conn)
    requires ConnsOk(h.peers, h.nextConn) && OwnsLive(h.peers, owner) && id in owner && owner[id] == conn
    ensures PeerAddr(h, id) in {None, Some(conn.addr)}
  {
  }

  lemma {:induction false} DisconnectsValid(h: HostState, lim: Limits, ids: seq<nat>)
    requires Valid(h, lim)
    ensures Valid(Disconnects(h, lim, ids), lim)
    decreases |ids|
  {
    hide LiveOk, FreeOk, IpsOk, ConnsOk, OrderOk, MarksOk, RemovePeerAt;
    if ids != [] {
      LocalDisconnectValid(h, lim, ids[0]);
      DisconnectsValid(LocalDisconnect(h, ids[0]), lim, ids[1..]);
    }
  }

  /**
    * Batch non-aliasing: within one poll's batch a peer id denotes at most one connection, and until the
    * next poll, whatever peers the caller disconnects, looking the id up yields that connection or nothing.
    */
  lemma BatchNonAliasing(h: HostState, lim: Limits, queue: seq<Recv>, now: nat, evicted: seq<nat>)
    requires Valid(h, lim)
    ensures Valid(Poll(h, lim, queue, now).host, lim)
    ensures
      var r := Poll(h, lim, queue, now);
      && (forall i, j :: 0 <= i < |r.events| && 0 <= j < |r.events| && r.events[i].id == r.events[j].id ==>
            r.events[i].conn == r.events[j].conn)
      && (forall i :: 0 <= i < |r.events| ==>
            PeerAddr(Disconnects(r.host, lim, evicted), r.events[i].id) in {None, Some(r.events[i].conn.addr)})
  {
    hide LiveOk, FreeOk, IpsOk, ConnsOk, OrderOk, MarksOk, Poll, PeerAddr, OwnsLive, PrefixUnused, OwnersInRange, Disconnects, LiveOwners;
    PollValid(h, lim, queue, now);
    var owner := PollEpochal(h, lim, queue, now);
    var r := Poll(h, lim, queue, now);
    DisconnectsEpoch(r.host, lim, owner, evicted);
    DisconnectsValid(r.host, lim, evicted);
    forall i | 0 <= i < |r.events|
      ensures PeerAddr(Disconnects(r.host, lim, evicted), r.events[i].id) in {None, Some(r.events[i].conn.addr)}
    {
      PeerAddrOwned(Disconnects(r.host, lim, evicted), owner, r.events[i].id, r.events[i].conn);
    }
  }
}
