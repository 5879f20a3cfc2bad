/**
  * The transport host of `sw-net`: a bounded peer-slot allocator behind a poll-driven UDP socket.
  *
  * This module is the specification: the host's fields as one value, and every operation as a
  * function on it. `TransportHost.dfy` holds the imperative host that is proved against it.
  * Time is a natural number, a datagram is already parsed and the socket is a queue.
  *
  * Every accepted connection is given a `Conn`, which the source does not have: it is the identity
  * that peer ids, being reused, fail to be.
  */
module Transport {
  import opened Options
  import opened Numbers
  import opened Wire
  import OrderedSets

  const MTU := 1024
  const MAX_POLL_PACKETS := 128
  const MAX_POLL_BYTES := 262144
  const MAX_POLL_TIMEOUT_EVENTS := 64
  const MAX_POLL_MAINTENANCE_SCANS := 512
  const MAX_POLL_KEEPALIVE_SENDS := 512
  const MAX_POLL_WATERMARK_CLEANUPS := 512
  const PING_INTERVAL := 1000

  datatype Addr = Addr(ip: nat, port: nat)

  datatype Conn = Conn(serial: nat, addr: Addr)

  datatype Peer = Peer(
    id: nat, slot: nat, connectTime: int, connectionNumber: nat,
    lastRecv: nat, lastPing: nat, pingSeq: nat, pingSentAt: Option<nat>, rtt: Option<nat>, conn: Conn)

  datatype Watermark = Watermark(connectTime: int, expiresAt: nat, generation: nat)

  datatype Limits = Limits(maxPeers: nat, maxPerIp: nat, timeout: nat)

  datatype Reason = Remote | Timeout | Shutdown

  datatype Event =
    | Connected(id: nat, conn: Conn)
    | Data(id: nat, conn: Conn, message: Message)
    | Disconnected(id: nat, conn: Conn, reason: Reason)

  /** `acceptable` says that the request parses, speaks the protocol and presents the connect key. */
  datatype Packet =
    | Malformed
    | ConnectRequest(acceptable: bool, connectTime: int, connectionNumber: nat)
    | Unreliable(connectionNumber: nat, message: Message)
    | Ping(connectionNumber: nat, sequence: Option<nat>)
    | Pong(connectionNumber: nat, sequence: Option<nat>)
    | Disconnect(connectionNumber: nat, time: Option<int>)
    | Unused(connectionNumber: nat)

  /** What one peek-and-receive on the socket yields; an empty queue is `WouldBlock`. */
  datatype Recv = Datagram(addr: Addr, size: nat, packet: Packet) | ConnectionReset | Fault

  datatype HostState = HostState(
    peers: map<Addr, Peer>,
    slots: seq<Option<Addr>>,
    free: seq<nat>,
    avail: nat,
    perIp: map<nat, nat>,
    marks: map<Addr, Watermark>,
    order: seq<(Addr, nat)>,
    nextGen: nat,
    cursor: nat,
    nextConn: nat)

  const EMPTY_HOST := HostState(map[], [], [], 0, map[], map[], [], 0, 0, 0)

  datatype Outcome = Outcome(host: HostState, events: seq<Event>)

  // ----- Invariants

  /** The configured ceilings, as `bind_with_limits` admits them. */
  predicate LimitsOk(lim: Limits) {
    0 < lim.maxPerIp <= lim.maxPeers <= 65535
  }

  /** The live slots are in bijection with the peer map, and a peer's id is its slot plus one. */
  ghost predicate LiveOk(peers: map<Addr, Peer>, slots: seq<Option<Addr>>) {
    && (forall a :: a in peers ==>
          && peers[a].slot < |slots|
          && slots[peers[a].slot] == Some(a)
          && peers[a].id == peers[a].slot + 1)
    && (forall i :: 0 <= i < |slots| && slots[i].Some? ==>
          slots[i].value in peers && peers[slots[i].value].slot == i)
  }

  /** The free list holds each empty slot exactly once. */
  ghost predicate FreeOk(slots: seq<Option<Addr>>, free: seq<nat>) {
    && (forall k :: 0 <= k < |free| ==> free[k] < |slots| && slots[free[k]].None?)
    && (forall j, k :: 0 <= j < k < |free| ==> free[j] != free[k])
    && (forall i :: 0 <= i < |slots| && slots[i].None? ==> i in free)
  }

  ghost predicate CountsOk(h: HostState, lim: Limits) {
    && |h.slots| <= lim.maxPeers
    && |h.peers| + |h.free| == |h.slots|
    && h.avail <= |h.free|
    && h.cursor <= |h.slots|
  }

  ghost function AtIp(live: set<Addr>, ip: nat): set<Addr> {
    set a | a in live && a.ip == ip
  }

  /** Each counter is the number of live peers on its address, never zero and never above its ceiling. */
  ghost predicate IpsOk(live: set<Addr>, perIp: map<nat, nat>, maxPerIp: nat) {
    && (forall a :: a in live ==> a.ip in perIp)
    && (forall ip :: ip in perIp ==> 0 < perIp[ip] == |AtIp(live, ip)| <= maxPerIp)
  }

  ghost predicate ConnsOk(peers: map<Addr, Peer>, nextConn: nat) {
    && (forall a :: a in peers ==> peers[a].conn.addr == a && peers[a].conn.serial < nextConn)
    && (forall a, b :: a in peers && b in peers && a != b ==> peers[a].conn.serial != peers[b].conn.serial)
  }

  /** The watermark queue is bounded, with strictly rising generations. */
  ghost predicate OrderOk(order: seq<(Addr, nat)>, nextGen: nat, bound: nat) {
    && |order| <= bound
    && nextGen <= U64_MAX
    && (forall i :: 0 <= i < |order| ==> 1 <= order[i].1 <= nextGen)
    && (forall i, j :: 0 <= i < j < |order| ==> order[i].1 < order[j].1)
  }

  /** Watermarks guard dead addresses only, and each is backed by its queue entry. */
  ghost predicate MarksOk(marks: map<Addr, Watermark>, order: seq<(Addr, nat)>, live: set<Addr>) {
    forall a :: a in marks ==> a !in live && (a, marks[a].generation) in order
  }

  ghost predicate Valid(h: HostState, lim: Limits) {
    && LimitsOk(lim)
    && CountsOk(h, lim)
    && LiveOk(h.peers, h.slots)
    && FreeOk(h.slots, h.free)
    && IpsOk(h.peers.Keys, h.perIp, lim.maxPerIp)
    && ConnsOk(h.peers, h.nextConn)
    && OrderOk(h.order, h.nextGen, lim.maxPeers)
    && MarksOk(h.marks, h.order, h.peers.Keys)
  }

  // ----- Slot allocator

  function PeerAddr(h: HostState, id: nat): (r: Option<Addr>)
    ensures r.Some? ==> r.value in h.peers && h.peers[r.value].id == id
  {
    if id == 0 || id > |h.slots| || h.slots[id - 1].None? then None
    else
      var a := h.slots[id - 1].value;
      if a in h.peers && h.peers[a].id == id then Some(a) else None
  }

  function DropIp(perIp: map<nat, nat>, ip: nat): map<nat, nat> {
    if ip in perIp && perIp[ip] > 1 then perIp[ip := perIp[ip] - 1] else perIp - {ip}
  }

  function AddIp(perIp: map<nat, nat>, ip: nat): map<nat, nat> {
    perIp[ip := (if ip in perIp then perIp[ip] else 0) + 1]
  }

  function RemovePeerAt(h: HostState, a: Addr): HostState
    requires a in h.peers && LiveOk(h.peers, h.slots)
  {
    var slot := h.peers[a].slot;
    h.(peers := h.peers - {a}, slots := h.slots[slot := None], free := h.free + [slot],
       perIp := DropIp(h.perIp, a.ip))
  }

  /** The slot the allocator would hand out, with the host as it then stands. */
  function AllocateSlot(h: HostState, lim: Limits): (HostState, Option<nat>)
    requires h.avail <= |h.free|
  {
    if |h.slots| < lim.maxPeers then (h.(slots := h.slots + [None]), Some(|h.slots|))
    else if h.avail > 0 then (h.(avail := h.avail - 1, free := h.free[1..]), Some(h.free[0]))
    else (h, None)
  }

  function NewPeer(slot: nat, a: Addr, connectTime: int, number: nat, now: nat, serial: nat): Peer {
    Peer(slot + 1, slot, connectTime, number, now, now, 0, None, None, Conn(serial, a))
  }

  function InsertPeer(h: HostState, a: Addr, p: Peer): HostState
    requires p.slot < |h.slots|
  {
    h.(peers := h.peers[a := p], slots := h.slots[p.slot := Some(a)],
       perIp := AddIp(h.perIp, a.ip), nextConn := h.nextConn + 1)
  }

  // ----- Reconnect watermarks

  function EvictOldest(h: HostState, lim: Limits): HostState {
    if |h.order| == lim.maxPeers && |h.order| > 0 then PopMark(h) else h
  }

  function RecordMark(h: HostState, lim: Limits, a: Addr, connectTime: int, now: nat): HostState {
    var h0 := if h.nextGen == U64_MAX then h.(marks := map[], order := [], nextGen := 0) else h;
    var g := h0.nextGen + 1;
    var h1 := EvictOldest(h0.(nextGen := g), lim);
    var time := if a in h1.marks && h1.marks[a].connectTime > connectTime
                then h1.marks[a].connectTime else connectTime;
    h1.(marks := h1.marks[a := Watermark(time, now + lim.timeout, g)], order := h1.order + [(a, g)])
  }

  /** Drop the front of the watermark queue, and its watermark unless the entry is stale. */
  function PopMark(h: HostState): HostState
    requires |h.order| > 0
  {
    var (a, g) := h.order[0];
    h.(order := h.order[1..],
       marks := if a in h.marks && h.marks[a].generation == g then h.marks - {a} else h.marks)
  }

  datatype Expired = Expired(host: HostState, cleanups: nat)

  /** Pop expired or stale watermarks from the front of the queue, up to the poll's budget. */
  function Expire(h: HostState, now: nat, cleanups: nat): (r: Expired)
    requires cleanups <= MAX_POLL_WATERMARK_CLEANUPS
    ensures r.cleanups <= MAX_POLL_WATERMARK_CLEANUPS
    decreases |h.order|
  {
    if cleanups >= MAX_POLL_WATERMARK_CLEANUPS || |h.order| == 0 then Expired(h, cleanups)
    else
      var (a, g) := h.order[0];
      if a in h.marks && h.marks[a].generation == g && h.marks[a].expiresAt > now then Expired(h, cleanups)
      else Expire(PopMark(h), now, cleanups + 1)
  }

  // ----- Datagrams

  /** The tail of an accepted request: take a slot, or leave a watermark if a live peer was replaced. */
  function Admit(h: HostState, lim: Limits, a: Addr, connectTime: int, number: nat, now: nat,
                 replaced: bool): Outcome
    requires h.avail <= |h.free| && FreeOk(h.slots, h.free)
  {
    var (h1, slot) := AllocateSlot(h, lim);
    if slot.None? then Outcome(if replaced then RecordMark(h1, lim, a, connectTime, now) else h1, [])
    else
      var p := NewPeer(slot.value, a, connectTime, number, now, h1.nextConn);
      var h2 := InsertPeer(h1, a, p);
      Outcome(h2.(marks := h2.marks - {a}), [Connected(p.id, p.conn)])
  }

  function HandleConnect(h: HostState, lim: Limits, a: Addr, connectTime: int, number: nat, now: nat): Outcome
    requires Valid(h, lim)
  {
    hide LiveOk, FreeOk, IpsOk, ConnsOk, OrderOk, MarksOk, RemovePeerAt;
    if a in h.peers then
      var prior := h.peers[a];
      if connectTime <= prior.connectTime then Outcome(h, [])
      else
        RemoveValid(h, lim, a);
        var o := Admit(RemovePeerAt(h, a), lim, a, connectTime, number, now, true);
        Outcome(o.host, [Disconnected(prior.id, prior.conn, Remote)] + o.events)
    else if a in h.marks && connectTime < h.marks[a].connectTime then Outcome(h, [])
    else
      var h1 := if a in h.marks then h.(marks := h.marks[a := h.marks[a].(connectTime := connectTime)]) else h;
      if |h1.peers| >= lim.maxPeers || (a.ip in h1.perIp && h1.perIp[a.ip] >= lim.maxPerIp) then Outcome(h1, [])
      else Admit(h1, lim, a, connectTime, number, now, false)
  }

  function Since(now: nat, then_: nat): nat {
    if now >= then_ then now - then_ else 0
  }

  /** Note that a peer was heard from, settling the outstanding ping if this is its pong. */
  function Heard(p: Peer, now: nat, pong: Option<nat>): Peer {
    if pong.Some? && pong.value == p.pingSeq && p.pingSentAt.Some?
    then p.(lastRecv := now, pingSentAt := None, rtt := Some(Since(now, p.pingSentAt.value)))
    else p.(lastRecv := now)
  }

  /** A packet from a live peer that carries the peer's current connection number. */
  function HandleLive(h: HostState, a: Addr, packet: Packet, now: nat): Outcome
    requires a in h.peers && LiveOk(h.peers, h.slots)
  {
    var p := h.peers[a];
    match packet
    case Unreliable(_, m) => Outcome(h.(peers := h.peers[a := Heard(p, now, None)]), [Data(p.id, p.conn, m)])
    case Ping(_, s) => Outcome(if s.Some? then h.(peers := h.peers[a := Heard(p, now, None)]) else h, [])
    case Pong(_, s) => Outcome(if s.Some? then h.(peers := h.peers[a := Heard(p, now, s)]) else h, [])
    case Disconnect(_, t) =>
      if t == Some(p.connectTime) then Outcome(RemovePeerAt(h, a), [Disconnected(p.id, p.conn, Remote)])
      else Outcome(h, [])
    case _ => Outcome(h, [])
  }

  function HandlePacket(h: HostState, lim: Limits, a: Addr, packet: Packet, now: nat): Outcome
    requires Valid(h, lim)
  {
    match packet
    case Malformed => Outcome(h, [])
    case ConnectRequest(acceptable, time, number) =>
      if acceptable then HandleConnect(h, lim, a, time, number, now) else Outcome(h, [])
    case _ =>
      if a in h.peers && packet.connectionNumber == h.peers[a].connectionNumber
      then HandleLive(h, a, packet, now) else Outcome(h, [])
  }

  datatype Drained = Drained(host: HostState, events: seq<Event>, packets: nat, bytes: nat, rest: seq<Recv>)

  function Drain(h: HostState, lim: Limits, queue: seq<Recv>, now: nat, packets: nat, bytes: nat): Drained
    requires Valid(h, lim)
    decreases |queue|
  {
    if packets >= MAX_POLL_PACKETS || bytes >= MAX_POLL_BYTES || |queue| == 0
    then Drained(h, [], packets, bytes, queue)
    else match queue[0]
      case Fault => Drained(h, [], packets, bytes, queue)
      case ConnectionReset => Drain(h, lim, queue[1..], now, packets + 1, bytes)
      case Datagram(a, n, packet) =>
        if n > MAX_POLL_BYTES - bytes then Drained(h, [], packets, bytes, queue)
        else if n > MTU then Drain(h, lim, queue[1..], now, packets + 1, bytes + n)
        else
          var o := HandlePacket(h, lim, a, packet, now);
          HandlePacketValid(h, lim, a, packet, now);
          var d := Drain(o.host, lim, queue[1..], now, packets + 1, bytes + n);
          d.(events := o.events + d.events)
  }

  // ----- Maintenance

  datatype Maintained = Maintained(host: HostState, events: seq<Event>, timeouts: nat, keepalives: nat)

  predicate IsExpired(p: Peer, lim: Limits, now: nat) {
    Since(now, p.lastRecv) > lim.timeout
  }

  /** The slot the round-robin cursor points at next. */
  function NextSlot(h: HostState): nat {
    if h.cursor >= |h.slots| then 0 else h.cursor
  }

  function Pinged(p: Peer, now: nat): Peer {
    p.(pingSeq := (p.pingSeq + 1) % 65536, lastPing := now, pingSentAt := Some(now))
  }

  function MaintainOne(h: HostState, lim: Limits, now: nat, timeouts: nat, keepalives: nat): Maintained
    requires LiveOk(h.peers, h.slots) && |h.slots| > 0
  {
    var slot := NextSlot(h);
    var h1 := h.(cursor := slot + 1);
    if h.slots[slot].None? then Maintained(h1, [], timeouts, keepalives)
    else
      var a := h.slots[slot].value;
      var p := h.peers[a];
      if IsExpired(p, lim, now) then
        if timeouts < MAX_POLL_TIMEOUT_EVENTS
        then Maintained(RemovePeerAt(h1, a), [Disconnected(p.id, p.conn, Timeout)], timeouts + 1, keepalives)
        else Maintained(h1, [], timeouts, keepalives)
      else if keepalives >= MAX_POLL_KEEPALIVE_SENDS || Since(now, p.lastPing) < PING_INTERVAL
      then Maintained(h1, [], timeouts, keepalives)
      else Maintained(h1.(peers := h1.peers[a := Pinged(p, now)]), [], timeouts, keepalives + 1)
  }

  function Maintain(h: HostState, lim: Limits, now: nat, scans: nat, timeouts: nat, keepalives: nat): Maintained
    requires Valid(h, lim) && |h.slots| > 0
    decreases scans
  {
    if scans == 0 then Maintained(h, [], timeouts, keepalives)
    else
      var m := MaintainOne(h, lim, now, timeouts, keepalives);
      MaintainOneValid(h, lim, now, timeouts, keepalives);
      var r := Maintain(m.host, lim, now, scans - 1, m.timeouts, m.keepalives);
      r.(events := m.events + r.events)
  }

  function Maintenance(h: HostState, lim: Limits, now: nat): Maintained
    requires Valid(h, lim)
  {
    if |h.slots| == 0 then Maintained(h.(cursor := 0), [], 0, 0)
    else Maintain(h, lim, now, Min(|h.slots|, MAX_POLL_MAINTENANCE_SCANS), 0, 0)
  }

  // ----- The host's four entry points

  /** The host once a poll has opened its free-slot window and cleaned its watermarks. */
  function Opened(h: HostState, now: nat): HostState {
    Expire(h.(avail := |h.free|), now, 0).host
  }

  datatype Polled = Polled(host: HostState, events: seq<Event>, drained: Drained, maintained: Maintained)

  function Poll(h: HostState, lim: Limits, queue: seq<Recv>, now: nat): Polled
    requires Valid(h, lim)
  {
    OpenedValid(h, lim, now);
    var d := Drain(Opened(h, now), lim, queue, now, 0, 0);
    DrainValid(Opened(h, now), lim, queue, now, 0, 0);
    var m := Maintenance(d.host, lim, now);
    Polled(m.host, d.events + m.events, d, m)
  }

  function LocalDisconnect(h: HostState, id: nat): HostState
    requires LiveOk(h.peers, h.slots)
  {
    var a := PeerAddr(h, id);
    if a.Some? then RemovePeerAt(h, a.value) else h
  }

  function ShutDown(h: HostState): HostState {
    EMPTY_HOST.(nextConn := h.nextConn)
  }

  // ----- Every operation keeps the invariant

  lemma DropIpOk(live: set<Addr>, perIp: map<nat, nat>, maxPerIp: nat, a: Addr)
    requires IpsOk(live, perIp, maxPerIp) && a in live
    ensures IpsOk(live - {a}, DropIp(perIp, a.ip), maxPerIp)
    ensures |AtIp(live - {a}, a.ip)| < maxPerIp
  {
    var r := DropIp(perIp, a.ip);
    assert AtIp(live - {a}, a.ip) == AtIp(live, a.ip) - {a};
    forall b | b in live - {a} ensures b.ip in r {
      if b.ip == a.ip { OrderedSets.SubsetSize({a, b}, AtIp(live, a.ip)); }
    }
    forall ip | ip in r ensures 0 < r[ip] == |AtIp(live - {a}, ip)| <= maxPerIp {
      if ip != a.ip { assert AtIp(live - {a}, ip) == AtIp(live, ip); }
    }
  }

  lemma AddIpOk(live: set<Addr>, perIp: map<nat, nat>, maxPerIp: nat, a: Addr)
    requires IpsOk(live, perIp, maxPerIp) && a !in live
    requires |AtIp(live, a.ip)| < maxPerIp
    ensures IpsOk(live + {a}, AddIp(perIp, a.ip), maxPerIp)
  {
    var r := AddIp(perIp, a.ip);
    assert AtIp(live + {a}, a.ip) == AtIp(live, a.ip) + {a};
    if a.ip !in perIp { assert AtIp(live, a.ip) == {}; }
    forall ip | ip in r ensures 0 < r[ip] == |AtIp(live + {a}, ip)| <= maxPerIp {
      if ip != a.ip { assert AtIp(live + {a}, ip) == AtIp(live, ip); }
    }
  }

  lemma IpRoom(live: set<Addr>, perIp: map<nat, nat>, maxPerIp: nat, ip: nat)
    requires IpsOk(live, perIp, maxPerIp)
    ensures |AtIp(live, ip)| == (if ip in perIp then perIp[ip] else 0) <= maxPerIp
  {
    if ip !in perIp { assert AtIp(live, ip) == {}; }
  }

  /** Freeing a slot appends it to a free list that did not hold it. */
  lemma FreeAppend(slots: seq<Option<Addr>>, free: seq<nat>, slot: nat)
    requires FreeOk(slots, free) && slot < |slots| && slots[slot].Some?
    ensures FreeOk(slots[slot := None], free + [slot])
  {
    var s, f := slots[slot := None], free + [slot];
    forall i | 0 <= i < |s| && s[i].None? ensures i in f {
      if i == slot { assert f[|free|] == slot; } else { assert i in free; }
    }
  }

  /** Taking the front of the free list leaves exactly the other empty slots on it. */
  lemma FreePop(slots: seq<Option<Addr>>, free: seq<nat>, a: Addr)
    requires FreeOk(slots, free) && |free| > 0
    ensures FreeOk(slots[free[0] := Some(a)], free[1..])
  {
    var s, f := slots[free[0] := Some(a)], free[1..];
    forall i | 0 <= i < |s| && s[i].None? ensures i in f {
      var k :| 0 <= k < |free| && free[k] == i;
      assert f[k - 1] == i;
    }
  }

  lemma LiveRemove(peers: map<Addr, Peer>, slots: seq<Option<Addr>>, a: Addr)
    requires LiveOk(peers, slots) && a in peers
    ensures peers[a].slot < |slots| && slots[peers[a].slot].Some?
    ensures LiveOk(peers - {a}, slots[peers[a].slot := None])
  {
  }

  lemma LiveAt(peers: map<Addr, Peer>, slots: seq<Option<Addr>>, slot: nat)
    requires LiveOk(peers, slots) && slot < |slots| && slots[slot].Some?
    ensures slots[slot].value in peers && peers[slots[slot].value].slot == slot
  {
  }

  lemma LiveInsert(peers: map<Addr, Peer>, slots: seq<Option<Addr>>, a: Addr, p: Peer)
    requires LiveOk(peers, slots) && a !in peers
    requires p.slot < |slots| && slots[p.slot].None? && p.id == p.slot + 1
    ensures LiveOk(peers[a := p], slots[p.slot := Some(a)])
  {
  }

  lemma LiveGrow(peers: map<Addr, Peer>, slots: seq<Option<Addr>>)
    requires LiveOk(peers, slots)
    ensures LiveOk(peers, slots + [None])
  {
  }

  lemma ConnsRemove(peers: map<Addr, Peer>, nextConn: nat, a: Addr)
    requires ConnsOk(peers, nextConn)
    ensures ConnsOk(peers - {a}, nextConn)
  {
  }

  lemma ConnsInsert(peers: map<Addr, Peer>, nextConn: nat, a: Addr, p: Peer)
    requires ConnsOk(peers, nextConn) && a !in peers && p.conn == Conn(nextConn, a)
    ensures ConnsOk(peers[a := p], nextConn + 1)
  {
  }

  lemma MarksInsert(marks: map<Addr, Watermark>, order: seq<(Addr, nat)>, live: set<Addr>, a: Addr)
    requires MarksOk(marks, order, live)
    ensures MarksOk(marks - {a}, order, live + {a})
    ensures MarksOk(marks, order, live - {a})
  {
  }

  lemma RemoveValid(h: HostState, lim: Limits, a: Addr)
    requires Valid(h, lim) && a in h.peers
    ensures Valid(RemovePeerAt(h, a), lim)
    ensures RemovePeerAt(h, a).peers == h.peers - {a}
    ensures |AtIp(RemovePeerAt(h, a).peers.Keys, a.ip)| < lim.maxPerIp
  {
    hide LiveOk, FreeOk, IpsOk, ConnsOk, OrderOk, MarksOk, DropIp, AtIp;
    LiveRemove(h.peers, h.slots, a);
    FreeAppend(h.slots, h.free, h.peers[a].slot);
    assert (h.peers - {a}).Keys == h.peers.Keys - {a};
    DropIpOk(h.peers.Keys, h.perIp, lim.maxPerIp, a);
    ConnsRemove(h.peers, h.nextConn, a);
    MarksInsert(h.marks, h.order, h.peers.Keys, a);
    assert |h.peers - {a}| == |h.peers| - 1;
  }

  /** Claiming a slot and filling it at once keeps both halves of the partition. */
  lemma ClaimSlot(h: HostState, lim: Limits, a: Addr, p: Peer)
    requires LiveOk(h.peers, h.slots) && FreeOk(h.slots, h.free) && h.avail <= |h.free|
    requires a !in h.peers && AllocateSlot(h, lim).1 == Some(p.slot) && p.id == p.slot + 1
    ensures
      var h1 := AllocateSlot(h, lim).0;
      && p.slot < |h1.slots|
      && LiveOk(h1.peers[a := p], h1.slots[p.slot := Some(a)])
      && FreeOk(h1.slots[p.slot := Some(a)], h1.free)
  {
    var h1 := AllocateSlot(h, lim).0;
    if |h.slots| < lim.maxPeers {
      LiveGrow(h.peers, h.slots);
      LiveInsert(h.peers, h1.slots, a, p);
      var s := h1.slots[p.slot := Some(a)];
      forall i | 0 <= i < |s| && s[i].None? ensures i in h.free { assert h.slots[i].None?; }
    } else {
      assert h.slots[h.free[0]].None?;
      LiveInsert(h.peers, h.slots, a, p);
      FreePop(h.slots, h.free, a);
    }
  }

  lemma InsertCounts(h: HostState, lim: Limits, a: Addr, p: Peer)
    requires CountsOk(h, lim) && a !in h.peers && AllocateSlot(h, lim).1 == Some(p.slot)
    requires p.slot < |AllocateSlot(h, lim).0.slots|
    ensures CountsOk(InsertPeer(AllocateSlot(h, lim).0, a, p), lim)
  {
    hide AddIp;
    assert |h.peers[a := p]| == |h.peers| + 1;
  }

  lemma AllocateFrame(h: HostState, lim: Limits)
    requires h.avail <= |h.free|
    ensures
      var r := AllocateSlot(h, lim).0;
      r == h.(slots := r.slots, free := r.free, avail := r.avail)
  {
  }

  lemma InsertValid(h: HostState, lim: Limits, a: Addr, connectTime: int, number: nat, now: nat, slot: nat)
    requires Valid(h, lim) && a !in h.peers
    requires |AtIp(h.peers.Keys, a.ip)| < lim.maxPerIp
    requires AllocateSlot(h, lim).1 == Some(slot)
    ensures slot < |AllocateSlot(h, lim).0.slots|
    ensures
      var h1 := AllocateSlot(h, lim).0;
      var h2 := InsertPeer(h1, a, NewPeer(slot, a, connectTime, number, now, h1.nextConn));
      Valid(h2.(marks := h2.marks - {a}), lim)
  {
    hide LiveOk, FreeOk, IpsOk, ConnsOk, OrderOk, MarksOk, AddIp, AtIp, AllocateSlot;
    var h1 := AllocateSlot(h, lim).0;
    var p := NewPeer(slot, a, connectTime, number, now, h1.nextConn);
    AllocateFrame(h, lim);
    ClaimSlot(h, lim, a, p);
    InsertCounts(h, lim, a, p);
    assert h.peers[a := p].Keys == h.peers.Keys + {a};
    AddIpOk(h.peers.Keys, h.perIp, lim.maxPerIp, a);
    ConnsInsert(h.peers, h.nextConn, a, p);
    MarksInsert(h.marks, h.order, h.peers.Keys, a);
  }

  /** Appending a fresh generation to the queue, over watermarks the queue already backs. */
  lemma AppendMarkOk(marks: map<Addr, Watermark>, order: seq<(Addr, nat)>, g: nat, bound: nat, live: set<Addr>,
                     a: Addr, w: Watermark)
    requires 1 <= g <= U64_MAX && OrderOk(order, g - 1, bound) && |order| < bound
    requires MarksOk(marks, order, live) && a !in live && w.generation == g
    ensures OrderOk(order + [(a, g)], g, bound)
    ensures MarksOk(marks[a := w], order + [(a, g)], live)
  {
    var o, m := order + [(a, g)], marks[a := w];
    forall b | b in m ensures (b, m[b].generation) in o {
      if b == a { assert o[|order|] == (a, g); }
    }
  }

  lemma RecordMarkOk(h: HostState, lim: Limits, a: Addr, connectTime: int, now: nat)
    requires OrderOk(h.order, h.nextGen, lim.maxPeers) && lim.maxPeers > 0
    requires MarksOk(h.marks, h.order, h.peers.Keys) && a !in h.peers
    ensures
      var r := RecordMark(h, lim, a, connectTime, now);
      && OrderOk(r.order, r.nextGen, lim.maxPeers)
      && MarksOk(r.marks, r.order, h.peers.Keys)
  {
    var h0 := if h.nextGen == U64_MAX then h.(marks := map[], order := [], nextGen := 0) else h;
    var g := h0.nextGen + 1;
    var h1 := EvictOldest(h0.(nextGen := g), lim);
    var r := RecordMark(h, lim, a, connectTime, now);
    assert g <= U64_MAX && |h1.order| < lim.maxPeers;
    assert OrderOk(h0.order, g - 1, lim.maxPeers) && MarksOk(h0.marks, h0.order, h.peers.Keys);
    hide OrderOk, MarksOk;
    if |h0.order| == lim.maxPeers { PopMarkOk(h0.marks, h0.order, g - 1, lim.maxPeers, h.peers.Keys); }
    AppendMarkOk(h1.marks, h1.order, g, lim.maxPeers, h.peers.Keys, a, r.marks[a]);
  }

  lemma AdmitValid(h: HostState, lim: Limits, a: Addr, connectTime: int, number: nat, now: nat, replaced: bool)
    requires Valid(h, lim) && a !in h.peers
    requires |AtIp(h.peers.Keys, a.ip)| < lim.maxPerIp
    ensures Valid(Admit(h, lim, a, connectTime, number, now, replaced).host, lim)
  {
    hide LiveOk, FreeOk, IpsOk, ConnsOk, OrderOk, MarksOk;
    var (h1, slot) := AllocateSlot(h, lim);
    if slot.None? {
      RecordMarkOk(h, lim, a, connectTime, now);
    } else {
      InsertValid(h, lim, a, connectTime, number, now, slot.value);
    }
  }

  lemma RaiseMarkOk(h: HostState, a: Addr, connectTime: int)
    requires MarksOk(h.marks, h.order, h.peers.Keys) && a in h.marks
    ensures MarksOk(h.marks[a := h.marks[a].(connectTime := connectTime)], h.order, h.peers.Keys)
  {
  }

  lemma HandleConnectValid(h: HostState, lim: Limits, a: Addr, connectTime: int, number: nat, now: nat)
    requires Valid(h, lim)
    ensures Valid(HandleConnect(h, lim, a, connectTime, number, now).host, lim)
  {
    hide LiveOk, FreeOk, IpsOk, ConnsOk, OrderOk, MarksOk, Admit;
    IpRoom(h.peers.Keys, h.perIp, lim.maxPerIp, a.ip);
    if a in h.peers {
      if connectTime > h.peers[a].connectTime {
        RemoveValid(h, lim, a);
        AdmitValid(RemovePeerAt(h, a), lim, a, connectTime, number, now, true);
      }
    } else if !(a in h.marks && connectTime < h.marks[a].connectTime) {
      if a in h.marks { RaiseMarkOk(h, a, connectTime); }
      var h1 := if a in h.marks then h.(marks := h.marks[a := h.marks[a].(connectTime := connectTime)]) else h;
      if !(|h1.peers| >= lim.maxPeers || (a.ip in h1.perIp && h1.perIp[a.ip] >= lim.maxPerIp)) {
        AdmitValid(h1, lim, a, connectTime, number, now, false);
      }
    }
  }

  lemma LiveTouch(peers: map<Addr, Peer>, slots: seq<Option<Addr>>, nextConn: nat, a: Addr, p: Peer)
    requires LiveOk(peers, slots) && ConnsOk(peers, nextConn) && a in peers
    requires p.id == peers[a].id && p.slot == peers[a].slot && p.conn == peers[a].conn
    ensures LiveOk(peers[a := p], slots) && ConnsOk(peers[a := p], nextConn)
  {
  }

  /** Refreshing a live peer in place keeps the invariant. */
  lemma TouchValid(h: HostState, lim: Limits, a: Addr, p: Peer)
    requires Valid(h, lim) && a in h.peers
    requires p.id == h.peers[a].id && p.slot == h.peers[a].slot && p.conn == h.peers[a].conn
    ensures Valid(h.(peers := h.peers[a := p]), lim)
  {
    hide LiveOk, FreeOk, IpsOk, ConnsOk, OrderOk, MarksOk;
    LiveTouch(h.peers, h.slots, h.nextConn, a, p);
    assert h.peers[a := p].Keys == h.peers.Keys;
    assert |h.peers[a := p]| == |h.peers[a := p].Keys| == |h.peers.Keys| == |h.peers|;
  }

  lemma HandleLiveValid(h: HostState, lim: Limits, a: Addr, packet: Packet, now: nat)
    requires Valid(h, lim) && a in h.peers
    ensures Valid(HandleLive(h, a, packet, now).host, lim)
  {
    hide LiveOk, FreeOk, IpsOk, ConnsOk, OrderOk, MarksOk, RemovePeerAt;
    RemoveValid(h, lim, a);
    TouchValid(h, lim, a, Heard(h.peers[a], now, None));
    if packet.Pong? { TouchValid(h, lim, a, Heard(h.peers[a], now, packet.sequence)); }
  }

  lemma HandlePacketValid(h: HostState, lim: Limits, a: Addr, packet: Packet, now: nat)
    requires Valid(h, lim)
    ensures Valid(HandlePacket(h, lim, a, packet, now).host, lim)
  {
    hide LiveOk, FreeOk, IpsOk, ConnsOk, OrderOk, MarksOk, HandleConnect, HandleLive;
    if packet.ConnectRequest? {
      HandleConnectValid(h, lim, a, packet.connectTime, packet.connectionNumber, now);
    } else if a in h.peers {
      HandleLiveValid(h, lim, a, packet, now);
    }
  }

  lemma {:induction false} DrainValid(h: HostState, lim: Limits, queue: seq<Recv>, now: nat, packets: nat, bytes: nat)
    requires Valid(h, lim)
    ensures Valid(Drain(h, lim, queue, now, packets, bytes).host, lim)
    decreases |queue|
  {
    hide Valid, HandlePacket;
    if !(packets >= MAX_POLL_PACKETS || bytes >= MAX_POLL_BYTES || |queue| == 0) {
      match queue[0]
      case Fault =>
      case ConnectionReset => DrainValid(h, lim, queue[1..], now, packets + 1, bytes);
      case Datagram(a, n, packet) =>
        if n <= MAX_POLL_BYTES - bytes {
          if n > MTU {
            DrainValid(h, lim, queue[1..], now, packets + 1, bytes + n);
          } else {
            HandlePacketValid(h, lim, a, packet, now);
            DrainValid(HandlePacket(h, lim, a, packet, now).host, lim, queue[1..], now, packets + 1, bytes + n);
          }
        }
    }
  }

  /** Dropping the front of the queue, with its watermark if it still has one. */
  lemma PopMarkOk(marks: map<Addr, Watermark>, order: seq<(Addr, nat)>, nextGen: nat, bound: nat, live: set<Addr>)
    requires OrderOk(order, nextGen, bound) && MarksOk(marks, order, live) && |order| > 0
    ensures OrderOk(order[1..], nextGen, bound)
    ensures
      var (a, g) := order[0];
      MarksOk(if a in marks && marks[a].generation == g then marks - {a} else marks, order[1..], live)
  {
    forall b | b in marks && (b, marks[b].generation) != order[0]
      ensures (b, marks[b].generation) in order[1..]
    {
      var i :| 0 <= i < |order| && order[i] == (b, marks[b].generation);
      assert order[1..][i - 1] == order[i];
    }
  }

  lemma PopMarkValid(h: HostState, lim: Limits)
    requires Valid(h, lim) && |h.order| > 0
    ensures Valid(PopMark(h), lim)
  {
    hide LiveOk, FreeOk, IpsOk, ConnsOk, OrderOk, MarksOk;
    PopMarkOk(h.marks, h.order, h.nextGen, lim.maxPeers, h.peers.Keys);
  }

  lemma {:induction false} ExpireValid(h: HostState, lim: Limits, now: nat, cleanups: nat)
    requires Valid(h, lim) && cleanups <= MAX_POLL_WATERMARK_CLEANUPS
    ensures Valid(Expire(h, now, cleanups).host, lim)
    decreases |h.order|
  {
    hide Valid;
    if cleanups < MAX_POLL_WATERMARK_CLEANUPS && |h.order| > 0 {
      PopMarkValid(h, lim);
      if Expire(h, now, cleanups) != Expired(h, cleanups) { ExpireValid(PopMark(h), lim, now, cleanups + 1); }
    }
  }

  lemma OpenedValid(h: HostState, lim: Limits, now: nat)
    requires Valid(h, lim)
    ensures Valid(Opened(h, now), lim)
  {
    hide LiveOk, FreeOk, IpsOk, ConnsOk, OrderOk, MarksOk, Expire;
    ExpireValid(h.(avail := |h.free|), lim, now, 0);
  }

  lemma CursorValid(h: HostState, lim: Limits, cursor: nat)
    requires Valid(h, lim) && cursor <= |h.slots|
    ensures LiveOk(h.peers, h.slots) && Valid(h.(cursor := cursor), lim)
  {
    hide LiveOk, FreeOk, IpsOk, ConnsOk, OrderOk, MarksOk;
  }

  lemma RemoveKeepsSlots(h: HostState, a: Addr)
    requires a in h.peers && LiveOk(h.peers, h.slots)
    ensures |RemovePeerAt(h, a).slots| == |h.slots|
  {
  }

  lemma MaintainOneValid(h: HostState, lim: Limits, now: nat, timeouts: nat, keepalives: nat)
    requires Valid(h, lim) && |h.slots| > 0
    ensures Valid(MaintainOne(h, lim, now, timeouts, keepalives).host, lim)
    ensures |MaintainOne(h, lim, now, timeouts, keepalives).host.slots| == |h.slots|
  {
    hide Valid, LiveOk, Since, RemovePeerAt;
    var slot := NextSlot(h);
    var h1 := h.(cursor := slot + 1);
    CursorValid(h, lim, slot + 1);
    if h.slots[slot].Some? {
      LiveAt(h.peers, h.slots, slot);
      RemoveKeepsSlots(h1, h.slots[slot].value);
      RemoveValid(h1, lim, h.slots[slot].value);
      TouchValid(h1, lim, h.slots[slot].value, Pinged(h.peers[h.slots[slot].value], now));
    }
  }

  lemma {:induction false} MaintainValid(h: HostState, lim: Limits, now: nat, scans: nat, timeouts: nat, keepalives: nat)
    requires Valid(h, lim) && |h.slots| > 0
    ensures Valid(Maintain(h, lim, now, scans, timeouts, keepalives).host, lim)
    decreases scans
  {
    hide LiveOk, FreeOk, IpsOk, ConnsOk, OrderOk, MarksOk, MaintainOne;
    if scans > 0 {
      MaintainOneValid(h, lim, now, timeouts, keepalives);
      var m := MaintainOne(h, lim, now, timeouts, keepalives);
      MaintainValid(m.host, lim, now, scans - 1, m.timeouts, m.keepalives);
    }
  }

  lemma PollValid(h: HostState, lim: Limits, queue: seq<Recv>, now: nat)
    requires Valid(h, lim)
    ensures Valid(Poll(h, lim, queue, now).host, lim)
  {
    hide LiveOk, FreeOk, IpsOk, ConnsOk, OrderOk, MarksOk, Drain, Maintain, Opened;
    OpenedValid(h, lim, now);
    DrainValid(Opened(h, now), lim, queue, now, 0, 0);
    var d := Drain(Opened(h, now), lim, queue, now, 0, 0);
    if |d.host.slots| > 0 {
      MaintainValid(d.host, lim, now, Min(|d.host.slots|, MAX_POLL_MAINTENANCE_SCANS), 0, 0);
    }
  }

  lemma LocalDisconnectValid(h: HostState, lim: Limits, id: nat)
    requires Valid(h, lim)
    ensures Valid(LocalDisconnect(h, id), lim)
  {
    if PeerAddr(h, id).Some? { RemoveValid(h, lim, PeerAddr(h, id).value); }
  }

  // ----- Whole runs

  datatype Op = PollOp(queue: seq<Recv>, now: nat) | DisconnectOp(id: nat) | ShutdownOp

  function Apply(h: HostState, lim: Limits, op: Op): HostState
    requires Valid(h, lim)
  {
    match op
    case PollOp(queue, now) => Poll(h, lim, queue, now).host
    case DisconnectOp(id) => LocalDisconnect(h, id)
    case ShutdownOp => ShutDown(h)
  }

  lemma ApplyValid(h: HostState, lim: Limits, op: Op)
    requires Valid(h, lim)
    ensures Valid(Apply(h, lim, op), lim)
  {
    match op
    case PollOp(queue, now) => PollValid(h, lim, queue, now);
    case DisconnectOp(id) => LocalDisconnectValid(h, lim, id);
    case ShutdownOp => ShutDownValid(h, lim);
  }

  function Run(h: HostState, lim: Limits, ops: seq<Op>): HostState
    requires Valid(h, lim)
    decreases |ops|
  {
    if ops == [] then h
    else
      ApplyValid(h, lim, ops[0]);
      Run(Apply(h, lim, ops[0]), lim, ops[1..])
  }

  /**
    * The allocator partition, over every run from an empty host: slots are exactly the live peers and
    * the free list, ids are slots plus one, counters count, and both ceilings hold.
    */
  lemma {:induction false} RunValid(h: HostState, lim: Limits, ops: seq<Op>)
    requires Valid(h, lim)
    ensures Valid(Run(h, lim, ops), lim)
    ensures |Run(h, lim, ops).peers| <= lim.maxPeers
    ensures forall ip :: |AtIp(Run(h, lim, ops).peers.Keys, ip)| <= lim.maxPerIp
    ensures |Run(h, lim, ops).marks| <= |Run(h, lim, ops).order| <= lim.maxPeers
    decreases |ops|
  {
    hide LiveOk, FreeOk, IpsOk, ConnsOk, MarksOk, Apply;
    if ops == [] {
      forall ip ensures |AtIp(h.peers.Keys, ip)| <= lim.maxPerIp { IpRoom(h.peers.Keys, h.perIp, lim.maxPerIp, ip); }
      MarksFitOrder(h, lim);
    } else {
      ApplyValid(h, lim, ops[0]);
      RunValid(Apply(h, lim, ops[0]), lim, ops[1..]);
    }
  }

  lemma ShutDownValid(h: HostState, lim: Limits)
    requires LimitsOk(lim)
    ensures Valid(ShutDown(h), lim) && ShutDown(h).peers == map[] && ShutDown(h).nextConn == h.nextConn
  {
  }

  lemma EmptyHostValid(lim: Limits)
    requires LimitsOk(lim)
    ensures Valid(EMPTY_HOST, lim)
  {
  }

  function Firsts(order: seq<(Addr, nat)>): set<Addr> {
    set i | 0 <= i < |order| :: order[i].0
  }

  lemma {:induction false} FirstsSize(order: seq<(Addr, nat)>)
    ensures |Firsts(order)| <= |order|
  {
    if |order| > 0 {
      var k := |order| - 1;
      FirstsSize(order[..k]);
      assert Firsts(order) <= Firsts(order[..k]) + {order[k].0} by {
        forall a | a in Firsts(order) ensures a in Firsts(order[..k]) + {order[k].0} {
          var i :| 0 <= i < |order| && order[i].0 == a;
          if i < k { assert order[..k][i].0 == a; }
        }
      }
      OrderedSets.SubsetSize(Firsts(order), Firsts(order[..k]) + {order[k].0});
    } else {
      assert Firsts(order) == {};
    }
  }

  lemma MarksFitOrder(h: HostState, lim: Limits)
    requires Valid(h, lim)
    ensures |h.marks| <= |h.order|
  {
    assert h.marks.Keys <= Firsts(h.order) by {
      forall a | a in h.marks ensures a in Firsts(h.order) {
        var i :| 0 <= i < |h.order| && h.order[i] == (a, h.marks[a].generation);
        assert h.order[i].0 == a;
      }
    }
    OrderedSets.SubsetSize(h.marks.Keys, Firsts(h.order));
    FirstsSize(h.order);
  }
}
