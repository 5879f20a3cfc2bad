/**
  * Who is heard from, over whole runs of polls and local disconnects: what every step makes of one peer, who times
  * out, and what a pong measures.
  */
module TransportHearing {
  import opened Options
  import opened Transport
  import opened TransportFences
  import opened TransportFairness
  import opened TransportOutcomes
  import opened TransportWatermarks

  // ----- What a step is to one address

  /** A payload, or a well-formed ping or pong, that carries the live peer's current connection number. */
  predicate Hears(h: HostState, m: Micro, a: Addr) {
    && m.PacketStep? && m.addr == a && a in h.peers
    && match m.packet
       case Unreliable(number, _) => number == h.peers[a].connectionNumber
       case Ping(number, sequence) => number == h.peers[a].connectionNumber && sequence.Some?
       case Pong(number, sequence) => number == h.peers[a].connectionNumber && sequence.Some?
       case _ => false
  }

  /** The pong that answers the peer's outstanding ping. */
  predicate Settles(h: HostState, m: Micro, a: Addr) {
    Hears(h, m, a) && m.packet.Pong? && m.packet.sequence == Some(h.peers[a].pingSeq) && h.peers[a].pingSentAt.Some?
  }

  /** An acceptable request that may connect and finds a slot. */
  ghost predicate Accepts(h: HostState, lim: Limits, m: Micro, a: Addr) {
    && m.PacketStep? && m.addr == a && m.packet.ConnectRequest? && m.packet.acceptable
    && MayConnect(h, lim, a, m.packet.connectTime) && SlotLeft(h, lim)
  }

  predicate Scans(h: HostState, m: Micro, a: Addr) {
    m.ScanStep? && |h.slots| > 0 && h.slots[NextSlot(h)] == Some(a)
  }

  /** The scan finds the peer heard from in time, its last ping a second old, and keepalives left in the budget. */
  predicate Pings(h: HostState, lim: Limits, m: Micro, a: Addr) {
    && Scans(h, m, a) && a in h.peers && !IsExpired(h.peers[a], lim, m.now)
    && m.keepalives < MAX_POLL_KEEPALIVE_SENDS && Since(m.now, h.peers[a].lastPing) >= PING_INTERVAL
  }

  /** The live peer goes for good: it leaves, or a newer request outdates it and finds no slot. */
  ghost predicate Goes(h: HostState, lim: Limits, m: Micro, a: Addr) {
    Leaves(h, lim, m, a) || (Records(h, lim, m) && m.addr == a)
  }

  /** What the step makes of the peer at the address. */
  ghost predicate PeerAfter(h: HostState, lim: Limits, m: Micro, a: Addr, after: map<Addr, Peer>) {
    if Accepts(h, lim, m, a) then
      a in after && after[a].conn == Conn(h.nextConn, a) && Newborn(after[a], m.packet.connectTime, m.packet.connectionNumber, m.now)
    else if a !in h.peers || Goes(h, lim, m, a) then a !in after
    else
      var p := h.peers[a];
      && a in after
      && after[a] ==
         if Settles(h, m, a) then p.(lastRecv := m.now, pingSentAt := None, rtt := Some(Since(m.now, p.pingSentAt.value)))
         else if Hears(h, m, a) then p.(lastRecv := m.now)
         else if Pings(h, lim, m, a) then p.(pingSeq := (p.pingSeq + 1) % 65536, lastPing := m.now, pingSentAt := Some(m.now))
         else p
  }

  lemma ConnectPeer(h: HostState, lim: Limits, m: Micro, a: Addr)
    requires Valid(h, lim) && m.PacketStep? && m.packet.ConnectRequest? && m.packet.acceptable
    ensures PeerAfter(h, lim, m, a, HandleConnect(h, lim, m.addr, m.packet.connectTime, m.packet.connectionNumber, m.now).host.peers)
  {
    hide LiveOk, FreeOk, IpsOk, ConnsOk, OrderOk, MarksOk, CountsOk, HandleConnect, AtIp, IsExpired;
    ConnectOutcome(h, lim, m.addr, m.packet.connectTime, m.packet.connectionNumber, m.now);
    if m.addr != a {
      var r := HandleConnect(h, lim, m.addr, m.packet.connectTime, m.packet.connectionNumber, m.now).host.peers;
      KeptElsewhere(h.peers, r, m.addr, a);
    } else if a in h.peers {
      OldConnection(h, lim, a);
    }
  }

  lemma KeptElsewhere(before: map<Addr, Peer>, after: map<Addr, Peer>, b: Addr, a: Addr)
    requires OthersKept(before, after, b) && a != b
    ensures a in after <==> a in before
    ensures a in before ==> after[a] == before[a]
  {
    assert a in before <==> a in before - {b};
    assert a in after <==> a in after - {b};
    if a in before { assert (before - {b})[a] == before[a] && (after - {b})[a] == after[a]; }
  }

  lemma OldConnection(h: HostState, lim: Limits, a: Addr)
    requires Valid(h, lim) && a in h.peers
    ensures h.peers[a].conn != Conn(h.nextConn, a)
  {
    hide LiveOk, FreeOk, IpsOk, OrderOk, MarksOk;
  }

  lemma PacketPeer(h: HostState, lim: Limits, m: Micro, a: Addr)
    requires Valid(h, lim) && m.PacketStep?
    ensures PeerAfter(h, lim, m, a, HandlePacket(h, lim, m.addr, m.packet, m.now).host.peers)
  {
    hide LiveOk, FreeOk, IpsOk, ConnsOk, OrderOk, MarksOk, CountsOk, HandleConnect, RemovePeerAt, AtIp, IsExpired;
    if m.packet.ConnectRequest? {
      if m.packet.acceptable { ConnectPeer(h, lim, m, a); }
    } else if m.addr in h.peers {
      RemoveFrame(h, m.addr);
    }
  }

  lemma ScanPeer(h: HostState, lim: Limits, m: Micro, a: Addr)
    requires Valid(h, lim) && m.ScanStep? && |h.slots| > 0
    ensures PeerAfter(h, lim, m, a, MaintainOne(h, lim, m.now, m.timeouts, m.keepalives).host.peers)
  {
    hide LiveOk, FreeOk, IpsOk, ConnsOk, OrderOk, MarksOk, RemovePeerAt, AtIp, Since;
    if h.slots[NextSlot(h)].Some? {
      LiveAt(h.peers, h.slots, NextSlot(h));
      RemoveFrame(h.(cursor := NextSlot(h) + 1), h.slots[NextSlot(h)].value);
    }
  }

  /** Every step of the host makes of every peer exactly this. */
  lemma StepPeer(h: HostState, lim: Limits, m: Micro, a: Addr)
    requires Valid(h, lim)
    ensures PeerAfter(h, lim, m, a, Step(h, lim, m).peers)
  {
    hide LiveOk, FreeOk, IpsOk, ConnsOk, OrderOk, MarksOk, CountsOk, HandlePacket, MaintainOne, RemovePeerAt, AtIp, IsExpired;
    match m
    case PacketStep(b, packet, now) => PacketPeer(h, lim, m, a);
    case ScanStep(now, timeouts, keepalives) =>
      if |h.slots| > 0 { ScanPeer(h, lim, m, a); }
    case EvictStep(id) =>
      if PeerAddr(h, id).Some? { RemoveFrame(h, PeerAddr(h, id).value); }
    case _ =>
  }

  /** A newer acceptable request from the address outdates its live peer. */
  predicate Outdates(h: HostState, m: Micro, a: Addr) {
    && m.PacketStep? && m.addr == a && m.packet.ConnectRequest? && m.packet.acceptable
    && a in h.peers && m.packet.connectTime > h.peers[a].connectTime
  }

  /** What a step reports about the one address it concerns: who left and why, who connected, and what was said. */
  ghost predicate ReportsAbout(h: HostState, lim: Limits, m: Micro, a: Addr, es: seq<Event>)
    requires Valid(h, lim)
  {
    es ==
    (if a in h.peers && (Leaves(h, lim, m, a) || Outdates(h, m, a))
     then [Disconnected(h.peers[a].id, h.peers[a].conn, if m.ScanStep? then Timeout else Remote)] else [])
    + (if Accepts(h, lim, m, a) && a in Step(h, lim, m).peers then [Connected(Step(h, lim, m).peers[a].id, Conn(h.nextConn, a))] else [])
    + (if Hears(h, m, a) && m.packet.Unreliable? then [Data(h.peers[a].id, h.peers[a].conn, m.packet.message)] else [])
  }

  /**
    * Every step reports exactly this: a packet only about its sender, a scan only about the peer it scans, and every
    * other step, and a scan of an empty slot, nothing.
    */
  lemma StepReports(h: HostState, lim: Limits, m: Micro)
    requires Valid(h, lim)
    ensures
      var es := StepEvents(h, lim, m);
      match m
      case PacketStep(a, _, _) => ReportsAbout(h, lim, m, a, es)
      case ScanStep(_, _, _) =>
        if |h.slots| > 0 && h.slots[NextSlot(h)].Some? then ReportsAbout(h, lim, m, h.slots[NextSlot(h)].value, es) else es == []
      case _ => es == []
  {
    hide FreeOk, IpsOk, ConnsOk, OrderOk, MarksOk, CountsOk, HandleConnect, RemovePeerAt, AtIp, Since, Heard;
    if m.PacketStep? && m.packet.ConnectRequest? && m.packet.acceptable {
      ConnectOutcome(h, lim, m.addr, m.packet.connectTime, m.packet.connectionNumber, m.now);
    }
  }

  // ----- Silence

  /** A step that resets the silence of the address: its peer is heard from, or newly connected. */
  ghost predicate Refreshes(h: HostState, lim: Limits, m: Micro, a: Addr) {
    Hears(h, m, a) || Accepts(h, lim, m, a)
  }

  /** When the address was last heard from or connected in a run of steps; `since` if it was not. */
  ghost function LastHeard(h: HostState, lim: Limits, ms: seq<Micro>, a: Addr, since: nat): nat
    requires Valid(h, lim)
    decreases |ms|
  {
    hide Valid, Step;
    if ms == [] then since
    else
      StepValid(h, lim, ms[0]);
      LastHeard(Step(h, lim, ms[0]), lim, ms[1..], a, if Refreshes(h, lim, ms[0], a) then ms[0].now else since)
  }

  lemma StepHeard(h: HostState, lim: Limits, m: Micro, a: Addr)
    requires Valid(h, lim)
    ensures
      var r := Step(h, lim, m);
      a in r.peers ==>
        if Refreshes(h, lim, m, a) then r.peers[a].lastRecv == m.now else a in h.peers && r.peers[a].lastRecv == h.peers[a].lastRecv
  {
    hide Valid, Step, Goes, Accepts, Pings;
    StepPeer(h, lim, m, a);
  }

  /** A live peer's clock is the time it was last heard from or connected, over every run of steps. */
  lemma {:induction false} SilenceIsExact(h: HostState, lim: Limits, ms: seq<Micro>, a: Addr, since: nat)
    requires Valid(h, lim) && (a in h.peers ==> since == h.peers[a].lastRecv)
    ensures
      var r := Steps(h, lim, ms);
      a in r.peers ==> r.peers[a].lastRecv == LastHeard(h, lim, ms, a, since)
    decreases |ms|
  {
    hide Valid, Step, Hears, Accepts;
    if ms != [] {
      StepValid(h, lim, ms[0]);
      if Refreshes(h, lim, ms[0], a) { RefreshedNow(h, lim, ms[0], a, 0); }
      StepHeard(h, lim, ms[0], a);
      SilenceIsExact(Step(h, lim, ms[0]), lim, ms[1..], a, if Refreshes(h, lim, ms[0], a) then ms[0].now else since);
    }
  }

  /** The event reports that the peer at this address timed out. */
  predicate TimesOut(e: Event, a: Addr) {
    e.Disconnected? && e.reason.Timeout? && e.conn.addr == a
  }

  /** A step reports a timeout at an address if and only if it scans the live peer there, finds it expired, and may still report one. */
  lemma TimeoutIff(h: HostState, lim: Limits, m: Micro, a: Addr)
    requires Valid(h, lim)
    ensures
      (exists e :: e in StepEvents(h, lim, m) && TimesOut(e, a)) <==>
      Scans(h, m, a) && a in h.peers && IsExpired(h.peers[a], lim, m.now) && m.timeouts < MAX_POLL_TIMEOUT_EVENTS
  {
    hide FreeOk, IpsOk, OrderOk, MarksOk, CountsOk, HandlePacket, RemovePeerAt, Since;
    if m.PacketStep? {
      PacketNeverTimesOut(h, lim, m.addr, m.packet, m.now);
    } else if m.ScanStep? && |h.slots| > 0 && h.slots[NextSlot(h)].Some? {
      var b := h.slots[NextSlot(h)].value;
      if IsExpired(h.peers[b], lim, m.now) && m.timeouts < MAX_POLL_TIMEOUT_EVENTS {
        var e := Disconnected(h.peers[b].id, h.peers[b].conn, Timeout);
        assert StepEvents(h, lim, m) == [e];
        assert e in StepEvents(h, lim, m);
      }
    }
  }

  lemma PacketNeverTimesOut(h: HostState, lim: Limits, a: Addr, packet: Packet, now: nat)
    requires Valid(h, lim)
    ensures forall e :: e in HandlePacket(h, lim, a, packet, now).events ==> !(e.Disconnected? && e.reason.Timeout?)
  {
    hide LiveOk, FreeOk, IpsOk, ConnsOk, OrderOk, MarksOk, RemovePeerAt, Heard, RecordMark, AddIp, CountsOk;
    if packet.ConnectRequest? && a in h.peers { RemoveValid(h, lim, a); }
  }

  /**
    * Timeouts over every run of polls and local disconnects, exactly: the `k`-th step reports one at an address if and
    * only if it scans the live peer there within its budget and more than the timeout has passed since that peer was
    * last heard from, by payload, ping or pong under its current number, or was connected.
    */
  lemma TimesOutIffSilent(h: HostState, lim: Limits, rounds: seq<Round>, a: Addr, since: nat, k: nat)
    requires Valid(h, lim) && (a in h.peers ==> since == h.peers[a].lastRecv) && k < |RoundsMicros(h, lim, rounds)|
    ensures
      var ms := RoundsMicros(h, lim, rounds);
      var before := Steps(h, lim, ms[..k]);
      (exists e :: e in StepEvents(before, lim, ms[k]) && TimesOut(e, a)) <==>
      && Scans(before, ms[k], a) && a in before.peers && ms[k].timeouts < MAX_POLL_TIMEOUT_EVENTS
      && Since(ms[k].now, LastHeard(h, lim, ms[..k], a, since)) > lim.timeout
  {
    hide Valid, StepEvents, RoundsMicros, LastHeard, Steps, TimesOut;
    var ms := RoundsMicros(h, lim, rounds);
    SilenceIsExact(h, lim, ms[..k], a, since);
    TimeoutIff(Steps(h, lim, ms[..k]), lim, ms[k], a);
  }

  // ----- Nobody who was heard from in time is timed out

  lemma {:induction false} TimesFrom(ms: seq<Micro>, clock: nat, i: nat)
    requires Nondecreasing(ms, clock) && i <= |ms|
    ensures Nondecreasing(ms[i..], EndClock(ms[..i], clock))
    decreases i
  {
    hide StepClock;
    if i == 0 {
      assert ms[0..] == ms && ms[..0] == [];
    } else {
      TimesFrom(ms[1..], StepClock(ms[0], clock), i - 1);
      assert ms[1..][i - 1..] == ms[i..];
      var first := ms[..i];
      assert first[0] == ms[0] && first[1..] == ms[1..][..i - 1];
    }
  }

  lemma {:induction false} StaysHeard(h: HostState, lim: Limits, ms: seq<Micro>, a: Addr, at: nat, clock: nat, k: nat)
    requires Valid(h, lim) && Nondecreasing(ms, clock) && at <= clock && k <= |ms|
    requires a in h.peers ==> h.peers[a].lastRecv >= at
    ensures
      var r := Steps(h, lim, ms[..k]);
      && (a in r.peers ==> r.peers[a].lastRecv >= at)
    decreases k
  {
    hide Valid, Step, Hears, Accepts;
    if k == 0 {
      assert ms[..0] == [];
    } else {
      StepValid(h, lim, ms[0]);
      StepHeard(h, lim, ms[0], a);
      if Refreshes(h, lim, ms[0], a) { RefreshedNow(h, lim, ms[0], a, clock); }
      StaysHeard(Step(h, lim, ms[0]), lim, ms[1..], a, at, StepClock(ms[0], clock), k - 1);
      assert ms[..k][0] == ms[0] && ms[..k][1..] == ms[1..][..k - 1];
    }
  }

  lemma RefreshedNow(h: HostState, lim: Limits, m: Micro, a: Addr, clock: nat)
    requires Refreshes(h, lim, m, a)
    ensures m.PacketStep? && StepClock(m, clock) == m.now
  {
  }

  lemma HearsNow(h: HostState, lim: Limits, m: Micro, a: Addr, clock: nat)
    requires Valid(h, lim) && Hears(h, m, a)
    ensures m.PacketStep? && StepClock(m, clock) == m.now
    ensures
      var r := Step(h, lim, m);
      a in r.peers ==> r.peers[a].lastRecv == m.now
  {
    hide Valid, Step, Accepts;
    StepHeard(h, lim, m, a);
    RefreshedNow(h, lim, m, a, clock);
  }

  lemma EndClockOne(ms: seq<Micro>, clock: nat, i: nat)
    requires i < |ms|
    ensures EndClock(ms[..i + 1], clock) == StepClock(ms[i], EndClock(ms[..i], clock))
  {
    hide StepClock;
    assert ms[..i + 1] == ms[..i] + [ms[i]];
    TimesConcat(ms[..i], [ms[i]], clock);
    assert [ms[i]][1..] == [];
  }

  lemma {:induction false} StepsFrom(h: HostState, lim: Limits, ms: seq<Micro>, i: nat, k: nat)
    requires Valid(h, lim) && i <= k <= |ms|
    ensures Steps(h, lim, ms[..k]) == Steps(Steps(h, lim, ms[..i]), lim, ms[i..][..k - i])
  {
    hide Valid, Steps;
    assert ms[..k] == ms[..i] + ms[i..][..k - i];
    StepsConcat(h, lim, ms[..i], ms[i..][..k - i]);
  }

  /** A peer heard from no longer ago than the timeout is not expired, whichever clock of its it is judged by. */
  lemma NotExpired(p: Peer, lim: Limits, at: nat, now: nat)
    requires p.lastRecv >= at && now <= at + lim.timeout
    ensures !IsExpired(p, lim, now)
  {
  }

  /**
    * Over every run of polls at nondecreasing times: if one step hears from an address, by payload, ping or pong under
    * its current number, no scan within the timeout after it reports a timeout there, whatever comes in between.
    */
  lemma HeardPeersStay(h: HostState, lim: Limits, rounds: seq<Round>, clock: nat, a: Addr, i: nat, k: nat)
    requires Valid(h, lim) && Ordered(rounds, clock) && i < k < |RoundsMicros(h, lim, rounds)|
    requires
      var ms := RoundsMicros(h, lim, rounds);
      Hears(Steps(h, lim, ms[..i]), ms[i], a) && ms[k].ScanStep? && ms[k].now <= ms[i].now + lim.timeout
    ensures
      var ms := RoundsMicros(h, lim, rounds);
      forall e :: e in StepEvents(Steps(h, lim, ms[..k]), lim, ms[k]) ==> !TimesOut(e, a)
  {
    hide Valid, Step, StepEvents, RoundsMicros, Steps, Reports, Hears, AfterRounds, RoundsReports, IsExpired, TimesOut, Ordered,
         Nondecreasing, EndClock, StepClock;
    var ms := RoundsMicros(h, lim, rounds);
    RoundsTrace(h, lim, rounds, clock);
    var before := Steps(h, lim, ms[..i]);
    HearsNow(before, lim, ms[i], a, EndClock(ms[..i], clock));
    var at := ms[i].now;
    StepsNext(h, lim, ms, i);
    TimesFrom(ms, clock, i + 1);
    EndClockOne(ms, clock, i);
    StaysHeard(Steps(h, lim, ms[..i + 1]), lim, ms[i + 1..], a, at, at, k - i - 1);
    StepsFrom(h, lim, ms, i + 1, k);
    var mid := Steps(h, lim, ms[..k]);
    if a in mid.peers { NotExpired(mid.peers[a], lim, at, ms[k].now); }
    TimeoutIff(mid, lim, ms[k], a);
  }

  // ----- What a pong measures

  /** The step concerns the peer's outstanding ping: it sends another, answers it, or the peer goes or is replaced. */
  ghost predicate Disturbs(h: HostState, lim: Limits, m: Micro, a: Addr) {
    Pings(h, lim, m, a) || Settles(h, m, a) || Goes(h, lim, m, a) || Accepts(h, lim, m, a)
  }

  ghost predicate Undisturbed(h: HostState, lim: Limits, ms: seq<Micro>, a: Addr)
    requires Valid(h, lim)
    decreases |ms|
  {
    hide Valid, Step, Disturbs;
    ms == [] || (StepValid(h, lim, ms[0]); !Disturbs(h, lim, ms[0], a) && Undisturbed(Step(h, lim, ms[0]), lim, ms[1..], a))
  }

  lemma {:induction false} PingStaysOut(h: HostState, lim: Limits, ms: seq<Micro>, a: Addr)
    requires Valid(h, lim) && a in h.peers && Undisturbed(h, lim, ms, a)
    ensures
      var r := Steps(h, lim, ms);
      a in r.peers && r.peers[a] == h.peers[a].(lastRecv := r.peers[a].lastRecv)
    decreases |ms|
  {
    hide Valid, Step, Hears, Accepts, Goes, Pings, Settles;
    if ms != [] {
      StepValid(h, lim, ms[0]);
      StepPeer(h, lim, ms[0], a);
      PingStaysOut(Step(h, lim, ms[0]), lim, ms[1..], a);
    }
  }

  /**
    * The round trip, over any run of steps: after a scan that pings a peer and any further steps that neither ping it
    * again nor answer that ping nor end the connection, a pong with the ping's sequence number, and no other packet,
    * sets the measured round trip to the time between the two, and leaves no ping outstanding.
    */
  lemma PongMeasuresPing(h: HostState, lim: Limits, ping: Micro, between: seq<Micro>, a: Addr, pong: Micro)
    requires Valid(h, lim) && a in h.peers && Pings(h, lim, ping, a)
    requires Valid(Step(h, lim, ping), lim) && Undisturbed(Step(h, lim, ping), lim, between, a)
    requires
      var mid := Steps(h, lim, [ping] + between);
      Hears(mid, pong, a)
    ensures
      var mid, r := Steps(h, lim, [ping] + between), Steps(h, lim, [ping] + between + [pong]);
      var answered := pong.packet.Pong? && pong.packet.sequence == Some((h.peers[a].pingSeq + 1) % 65536);
      && a in r.peers
      && r.peers[a].rtt == (if answered then Some(Since(pong.now, ping.now)) else h.peers[a].rtt)
      && r.peers[a].pingSentAt == (if answered then None else Some(ping.now))
  {
    hide Valid, Step, Accepts, Goes, IsExpired, Since;
    var next := Step(h, lim, ping);
    PingedNow(h, lim, ping, a);
    PingStaysOut(next, lim, between, a);
    StepsConcat(h, lim, [ping], between);
    StepsOne(h, lim, ping);
    var mid := Steps(h, lim, [ping] + between);
    StepsConcat(h, lim, [ping] + between, [pong]);
    StepsOne(mid, lim, pong);
    HeardIsNothingElse(mid, lim, pong, a);
    StepPeer(mid, lim, pong, a);
  }

  lemma PingedNow(h: HostState, lim: Limits, ping: Micro, a: Addr)
    requires Valid(h, lim) && a in h.peers && Pings(h, lim, ping, a)
    ensures
      var r := Step(h, lim, ping).peers;
      a in r && r[a] == h.peers[a].(pingSeq := (h.peers[a].pingSeq + 1) % 65536, lastPing := ping.now, pingSentAt := Some(ping.now))
  {
    hide Valid, Step, IsExpired, Since;
    StepPeer(h, lim, ping, a);
    ScanKeeps(h, lim, ping, a);
  }

  lemma ScanKeeps(h: HostState, lim: Limits, ping: Micro, a: Addr)
    requires Pings(h, lim, ping, a)
    ensures !Goes(h, lim, ping, a) && !Accepts(h, lim, ping, a)
  {
  }

  lemma HeardIsNothingElse(h: HostState, lim: Limits, m: Micro, a: Addr)
    requires Hears(h, m, a)
    ensures !Goes(h, lim, m, a) && !Accepts(h, lim, m, a)
  {
  }
}
