/** What becomes of each packet, exactly: who is admitted, who is ignored and who is timed out. */
module TransportOutcomes {
  import opened Numbers
  import opened Wire
  import opened Transport
  import opened TransportSafety
  import opened TransportFences

  /** A slot can be handed out now: the table may grow, or a slot that was free when the poll began is left. */
  predicate SlotLeft(h: HostState, lim: Limits) {
    |h.slots| < lim.maxPeers || h.avail > 0
  }

  /** The request is newer than the live peer, or not older than the watermark and within both ceilings. */
  ghost predicate MayConnect(h: HostState, lim: Limits, a: Addr, connectTime: int) {
    if a in h.peers then connectTime > h.peers[a].connectTime
    else
      && (a in h.marks ==> connectTime >= h.marks[a].connectTime)
      && |h.peers| < lim.maxPeers
      && |AtIp(h.peers.Keys, a.ip)| < lim.maxPerIp
  }

  ghost predicate OthersKept(before: map<Addr, Peer>, after: map<Addr, Peer>, a: Addr) {
    before - {a} == after - {a}
  }

  lemma InsertedOthers(peers: map<Addr, Peer>, a: Addr, p: Peer)
    ensures OthersKept(peers, peers[a := p], a)
  {
  }

  /** A peer as its accepted request made it: heard from and pinged just now, with no ping outstanding. */
  predicate Newborn(p: Peer, connectTime: int, number: nat, now: nat) {
    && p.connectTime == connectTime && p.connectionNumber == number
    && p.lastRecv == p.lastPing == now && p.pingSeq == 0 && p.pingSentAt.None? && p.rtt.None?
  }

  /** The slot a newcomer gets: a new one while the table may grow, and then the one that has been free the longest. */
  function SlotFor(h: HostState, lim: Limits): nat
    requires SlotLeft(h, lim) && h.avail <= |h.free|
  {
    if |h.slots| < lim.maxPeers then |h.slots| else h.free[0]
  }

  lemma AdmitWithSlot(h: HostState, lim: Limits, a: Addr, connectTime: int, number: nat, now: nat, replaced: bool)
    requires CountsOk(h, lim) && FreeOk(h.slots, h.free) && a !in h.peers && SlotLeft(h, lim)
    ensures
      var o := Admit(h, lim, a, connectTime, number, now, replaced);
      && OthersKept(h.peers, o.host.peers, a)
      && a in o.host.peers && o.host.peers[a].conn == Conn(h.nextConn, a) && o.host.peers[a].slot == SlotFor(h, lim)
      && Newborn(o.host.peers[a], connectTime, number, now)
      && o.events == [Connected(o.host.peers[a].id, o.host.peers[a].conn)]
  {
    hide AddIp, RecordMark, FreeOk, OthersKept;
    InsertedOthers(h.peers, a, NewPeer(AllocateSlot(h, lim).1.value, a, connectTime, number, now, h.nextConn));
  }

  /** The watermark refuses older requests until it expires. */
  predicate Fences(w: Watermark, connectTime: int, until: nat) {
    w.connectTime == connectTime && w.expiresAt == until
  }

  lemma AdmitWithoutSlot(h: HostState, lim: Limits, a: Addr, connectTime: int, number: nat, now: nat, replaced: bool)
    requires CountsOk(h, lim) && FreeOk(h.slots, h.free) && a !in h.peers && !SlotLeft(h, lim)
    ensures
      var o := Admit(h, lim, a, connectTime, number, now, replaced);
      && o.host.peers == h.peers && o.events == []
      && (replaced && a !in h.marks ==> a in o.host.marks && Fences(o.host.marks[a], connectTime, now + lim.timeout))
      && (!replaced ==> o.host.marks == h.marks)
  {
    hide AddIp, RecordMark;
    RecordMarkFrame(h, lim, a, connectTime, now);
    if a !in h.marks { FreshMark(h, lim, a, connectTime, now); }
  }

  lemma FreshMark(h: HostState, lim: Limits, a: Addr, connectTime: int, now: nat)
    requires a !in h.marks
    ensures
      var r := RecordMark(h, lim, a, connectTime, now);
      a in r.marks && Fences(r.marks[a], connectTime, now + lim.timeout)
  {
  }

  lemma CounterIsCount(h: HostState, lim: Limits, ip: nat)
    requires Valid(h, lim)
    ensures (ip in h.perIp && h.perIp[ip] >= lim.maxPerIp) <==> |AtIp(h.peers.Keys, ip)| >= lim.maxPerIp
  {
    hide LiveOk, FreeOk, ConnsOk, OrderOk, MarksOk;
    if ip !in h.perIp { assert AtIp(h.peers.Keys, ip) == {}; }
  }

  /** What a connect request at `a` amounts to. */
  ghost predicate ConnectExact(h: HostState, lim: Limits, a: Addr, connectTime: int, number: nat, now: nat, o: Outcome)
    requires Valid(h, lim)
  {
    var mine := a in o.host.peers && o.host.peers[a].conn == Conn(h.nextConn, a);
    && OthersKept(h.peers, o.host.peers, a)
    && (mine <==> MayConnect(h, lim, a, connectTime) && SlotLeft(h, lim))
    && (mine ==> Newborn(o.host.peers[a], connectTime, number, now))
    && o.events == (if a in h.peers && MayConnect(h, lim, a, connectTime) then [Disconnected(h.peers[a].id, h.peers[a].conn, Remote)] else [])
                   + (if mine then [Connected(o.host.peers[a].id, Conn(h.nextConn, a))] else [])
    && (!mine && a !in h.peers ==> a !in o.host.peers)
    && (!MayConnect(h, lim, a, connectTime) ==> o.host.peers == h.peers)
    && (a in h.peers && MayConnect(h, lim, a, connectTime) && !SlotLeft(h, lim) ==>
          a !in o.host.peers && a in o.host.marks && Fences(o.host.marks[a], connectTime, now + lim.timeout))
    && (mine ==> o.host.peers[a].slot == SlotFor(h, lim))
    && (!mine && a !in h.peers && a in h.marks && connectTime >= h.marks[a].connectTime ==>
          a in o.host.marks && o.host.marks[a] == h.marks[a].(connectTime := connectTime))
  }

  lemma RemovedHost(h: HostState, a: Addr)
    requires a in h.peers && LiveOk(h.peers, h.slots)
    ensures
      var r := RemovePeerAt(h, a);
      && r.peers == h.peers - {a} && |r.slots| == |h.slots| && r.avail == h.avail && r.nextConn == h.nextConn && r.marks == h.marks
      && h.free <= r.free
  {
  }

  lemma ReplaceOutcome(h: HostState, lim: Limits, a: Addr, connectTime: int, number: nat, now: nat)
    requires Valid(h, lim) && a in h.peers && connectTime > h.peers[a].connectTime
    ensures ConnectExact(h, lim, a, connectTime, number, now, HandleConnect(h, lim, a, connectTime, number, now))
  {
    hide LiveOk, FreeOk, IpsOk, ConnsOk, OrderOk, MarksOk, Admit, RemovePeerAt, AtIp;
    RemoveValid(h, lim, a);
    RefreshBranchIsDead(h, lim, a);
    RemovedHost(h, a);
    var h1 := RemovePeerAt(h, a);
    assert h1.peers - {a} == h.peers - {a};
    if SlotLeft(h1, lim) {
      AdmitWithSlot(h1, lim, a, connectTime, number, now, true);
    } else {
      AdmitWithoutSlot(h1, lim, a, connectTime, number, now, true);
    }
  }

  lemma NewcomerOutcome(h: HostState, lim: Limits, a: Addr, connectTime: int, number: nat, now: nat)
    requires Valid(h, lim) && a !in h.peers
    ensures ConnectExact(h, lim, a, connectTime, number, now, HandleConnect(h, lim, a, connectTime, number, now))
  {
    hide LiveOk, FreeOk, IpsOk, ConnsOk, OrderOk, MarksOk, Admit, AtIp;
    CounterIsCount(h, lim, a.ip);
    var h1 := if a in h.marks then h.(marks := h.marks[a := h.marks[a].(connectTime := connectTime)]) else h;
    if SlotLeft(h1, lim) {
      AdmitWithSlot(h1, lim, a, connectTime, number, now, false);
    } else {
      AdmitWithoutSlot(h1, lim, a, connectTime, number, now, false);
    }
  }

  lemma IgnoredOutcome(h: HostState, lim: Limits, a: Addr, connectTime: int, number: nat, now: nat)
    requires Valid(h, lim) && a in h.peers && connectTime <= h.peers[a].connectTime
    ensures ConnectExact(h, lim, a, connectTime, number, now, Outcome(h, []))
  {
    hide LiveOk, FreeOk, IpsOk, OrderOk, MarksOk, AtIp;
  }

  /**
    * Admission, exactly: a request gets a peer of its own if and only if it may connect and a slot is left.
    * A live peer it outdates is reported gone either way, and if no slot is left its address is fenced at
    * the new connect time for one timeout. A request that a watermark lets pass but no peer comes of raises the
    * watermark to its own time. Nobody else is touched.
    */
  lemma ConnectOutcome(h: HostState, lim: Limits, a: Addr, connectTime: int, number: nat, now: nat)
    requires Valid(h, lim)
    ensures ConnectExact(h, lim, a, connectTime, number, now, HandleConnect(h, lim, a, connectTime, number, now))
  {
    hide Valid, Admit, RemovePeerAt, ConnectExact;
    if a !in h.peers {
      NewcomerOutcome(h, lim, a, connectTime, number, now);
    } else if connectTime > h.peers[a].connectTime {
      ReplaceOutcome(h, lim, a, connectTime, number, now);
    } else {
      IgnoredOutcome(h, lim, a, connectTime, number, now);
    }
  }

  /** A packet that carries a retired connection number, or comes from nobody, changes nothing and reports nothing. */
  lemma RetiredNumberIsIgnored(h: HostState, lim: Limits, a: Addr, packet: Packet, now: nat)
    requires Valid(h, lim) && !packet.Malformed? && !packet.ConnectRequest?
    requires a !in h.peers || packet.connectionNumber != h.peers[a].connectionNumber
    ensures HandlePacket(h, lim, a, packet, now) == Outcome(h, [])
  {
    hide Valid;
  }

  /** A payload under the current number is reported once, as it came, under its sender's id and connection. */
  lemma PayloadIsReported(h: HostState, lim: Limits, a: Addr, message: Message, now: nat)
    requires Valid(h, lim) && a in h.peers
    ensures
      var o := HandlePacket(h, lim, a, Unreliable(h.peers[a].connectionNumber, message), now);
      && o.events == [Data(h.peers[a].id, h.peers[a].conn, message)]
      && OthersKept(h.peers, o.host.peers, a)
      && a in o.host.peers && !IsExpired(o.host.peers[a], lim, now)
  {
    hide LiveOk, FreeOk, IpsOk, ConnsOk, OrderOk, MarksOk;
  }

  // ----- Timeouts

  /** The event reports the departure of one of these peers, and that peer had been silent for too long. */
  ghost predicate ReportsExpired(e: Event, peers: map<Addr, Peer>, lim: Limits, now: nat) {
    exists a :: a in peers && e == Disconnected(peers[a].id, peers[a].conn, Timeout) && IsExpired(peers[a], lim, now)
  }

  ghost predicate AllReportExpired(es: seq<Event>, peers: map<Addr, Peer>, lim: Limits, now: nat) {
    forall i :: 0 <= i < |es| ==> ReportsExpired(es[i], peers, lim, now)
  }

  /** Maintenance leaves a peer as it was, up to its ping state, or removes it. */
  ghost predicate OnlyPinged(before: map<Addr, Peer>, after: map<Addr, Peer>) {
    forall a :: a in after ==>
      a in before && after[a].id == before[a].id && after[a].conn == before[a].conn && after[a].lastRecv == before[a].lastRecv
  }

  lemma ScanTimesOutExpired(h: HostState, lim: Limits, now: nat, timeouts: nat, keepalives: nat)
    requires LiveOk(h.peers, h.slots) && |h.slots| > 0
    ensures
      var m := MaintainOne(h, lim, now, timeouts, keepalives);
      AllReportExpired(m.events, h.peers, lim, now) && OnlyPinged(h.peers, m.host.peers)
  {
    hide DropIp, Since;
  }

  lemma EarlierPeers(es: seq<Event>, before: map<Addr, Peer>, after: map<Addr, Peer>, lim: Limits, now: nat)
    requires OnlyPinged(before, after) && AllReportExpired(es, after, lim, now)
    ensures AllReportExpired(es, before, lim, now)
  {
    forall i | 0 <= i < |es| ensures ReportsExpired(es[i], before, lim, now) {
      assert ReportsExpired(es[i], after, lim, now);
      var a :| a in after && es[i] == Disconnected(after[a].id, after[a].conn, Timeout) && IsExpired(after[a], lim, now);
      assert a in before && IsExpired(before[a], lim, now);
    }
  }

  lemma {:induction false} MaintainTimesOutExpired(h: HostState, lim: Limits, now: nat, scans: nat, timeouts: nat, keepalives: nat)
    requires Valid(h, lim) && |h.slots| > 0
    ensures AllReportExpired(Maintain(h, lim, now, scans, timeouts, keepalives).events, h.peers, lim, now)
    decreases scans
  {
    hide LiveOk, FreeOk, IpsOk, ConnsOk, OrderOk, MarksOk, CountsOk, MaintainOne, OnlyPinged, ReportsExpired;
    if scans > 0 {
      MaintainOneValid(h, lim, now, timeouts, keepalives);
      ScanTimesOutExpired(h, lim, now, timeouts, keepalives);
      var m := MaintainOne(h, lim, now, timeouts, keepalives);
      MaintainTimesOutExpired(m.host, lim, now, scans - 1, m.timeouts, m.keepalives);
      EarlierPeers(Maintain(m.host, lim, now, scans - 1, m.timeouts, m.keepalives).events, h.peers, m.host.peers, lim, now);
    }
  }

  /** No peer is timed out early: everyone a poll times out was silent for longer than the timeout. */
  lemma OnlyExpiredTimeOut(h: HostState, lim: Limits, queue: seq<Recv>, now: nat)
    requires Valid(h, lim)
    ensures
      var r := Poll(h, lim, queue, now);
      AllReportExpired(r.maintained.events, r.drained.host.peers, lim, now)
  {
    hide Valid, Drain, Maintain, Opened, AllReportExpired;
    OpenedValid(h, lim, now);
    DrainValid(Opened(h, now), lim, queue, now, 0, 0);
    var d := Drain(Opened(h, now), lim, queue, now, 0, 0).host;
    if |d.slots| > 0 {
      MaintainTimesOutExpired(d, lim, now, Min(|d.slots|, MAX_POLL_MAINTENANCE_SCANS), 0, 0);
    } else {
      NoEvents(d.peers, lim, now);
    }
  }

  lemma NoEvents(peers: map<Addr, Peer>, lim: Limits, now: nat)
    ensures AllReportExpired([], peers, lim, now)
  {
  }
}
