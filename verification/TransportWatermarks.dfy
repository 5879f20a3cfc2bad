/**
  * Reconnect watermarks over whole runs of polls and local disconnects: they expire in order, opening a poll
  * leaves none expired, and an address never takes an older connection unless its fence was taken down.
  */
module TransportWatermarks {
  import opened Options
  import opened Numbers
  import opened Transport
  import opened TransportSafety
  import opened TransportFences
  import opened TransportFairness
  import opened TransportOutcomes

  // ----- Rounds of the server loop as runs of steps

  /** Everything a run of polls reports. */
  ghost function RoundsReports(h: HostState, lim: Limits, rounds: seq<Round>): seq<Event>
    requires Valid(h, lim)
    decreases |rounds|
  {
    if rounds == [] then []
    else Poll(h, lim, rounds[0].queue, rounds[0].now).events + RoundsReports(AfterRound(h, lim, rounds[0]), lim, rounds[1..])
  }

  ghost predicate Ordered(rounds: seq<Round>, clock: nat)
    decreases |rounds|
  {
    rounds != [] ==> clock <= rounds[0].now && Ordered(rounds[1..], rounds[0].now)
  }

  ghost function LastTime(rounds: seq<Round>, clock: nat): nat {
    if rounds == [] then clock else rounds[|rounds| - 1].now
  }

  function EvictMicros(ids: seq<nat>): seq<Micro> {
    if ids == [] then [] else [EvictStep(ids[0])] + EvictMicros(ids[1..])
  }

  /** The steps of a run: each poll's own, at its own time, followed by its local disconnects. */
  ghost function RoundsMicros(h: HostState, lim: Limits, rounds: seq<Round>): seq<Micro>
    requires Valid(h, lim)
    decreases |rounds|
  {
    if rounds == [] then []
    else RoundMicros(h, lim, rounds[0]) + RoundsMicros(AfterRound(h, lim, rounds[0]), lim, rounds[1..])
  }

  ghost function RoundMicros(h: HostState, lim: Limits, round: Round): seq<Micro>
    requires Valid(h, lim)
  {
    PollMicros(h, lim, round.queue, round.now) + EvictMicros(round.evicted)
  }

  lemma {:induction false} EvictSteps(h: HostState, lim: Limits, ids: seq<nat>)
    requires Valid(h, lim)
    ensures
      var ms := EvictMicros(ids);
      && Steps(h, lim, ms) == Disconnects(h, lim, ids) && Reports(h, lim, ms) == []
      && forall i :: 0 <= i < |ms| ==> ms[i].EvictStep?
    decreases |ids|
  {
    hide Valid, LocalDisconnect;
    if ids != [] {
      LocalDisconnectIsStep(h, lim, ids[0]);
      EvictSteps(LocalDisconnect(h, ids[0]), lim, ids[1..]);
      StepsConcat(h, lim, [EvictStep(ids[0])], EvictMicros(ids[1..]));
    }
  }

  lemma LocalDisconnectIsStep(h: HostState, lim: Limits, id: nat)
    requires Valid(h, lim)
    ensures LiveOk(h.peers, h.slots) && Valid(LocalDisconnect(h, id), lim)
    ensures Steps(h, lim, [EvictStep(id)]) == LocalDisconnect(h, id) && Reports(h, lim, [EvictStep(id)]) == []
  {
    hide LiveOk, FreeOk, IpsOk, ConnsOk, OrderOk, MarksOk, CountsOk, LocalDisconnect;
    LocalDisconnectValid(h, lim, id);
    StepsOne(h, lim, EvictStep(id));
  }

  // ----- The times of a run

  lemma {:induction false} TimesConcat(xs: seq<Micro>, ys: seq<Micro>, clock: nat)
    ensures EndClock(xs + ys, clock) == EndClock(ys, EndClock(xs, clock))
    ensures Nondecreasing(xs, clock) && Nondecreasing(ys, EndClock(xs, clock)) ==> Nondecreasing(xs + ys, clock)
    decreases |xs|
  {
    if xs == [] {
      assert xs + ys == ys;
    } else {
      assert (xs + ys)[1..] == xs[1..] + ys;
      TimesConcat(xs[1..], ys, StepClock(xs[0], clock));
    }
  }

  lemma {:induction false} PollTimes(ms: seq<Micro>, now: nat, clock: nat)
    requires AtTime(ms, now) && clock <= now
    ensures Nondecreasing(ms, clock) && clock <= EndClock(ms, clock) <= now
    decreases |ms|
  {
    if ms != [] {
      assert AtTime(ms[1..], now);
      PollTimes(ms[1..], now, StepClock(ms[0], clock));
    }
  }

  lemma {:induction false} EvictTimes(ms: seq<Micro>, clock: nat)
    requires forall i :: 0 <= i < |ms| ==> ms[i].EvictStep?
    ensures Nondecreasing(ms, clock) && EndClock(ms, clock) == clock
    decreases |ms|
  {
    if ms != [] { EvictTimes(ms[1..], clock); }
  }

  lemma RoundTrace(h: HostState, lim: Limits, round: Round, clock: nat)
    requires Valid(h, lim)
    ensures
      var ms := RoundMicros(h, lim, round);
      && Steps(h, lim, ms) == AfterRound(h, lim, round)
      && Reports(h, lim, ms) == Poll(h, lim, round.queue, round.now).events
      && (clock <= round.now ==> Nondecreasing(ms, clock) && EndClock(ms, clock) <= round.now)
  {
    hide LiveOk, FreeOk, IpsOk, ConnsOk, OrderOk, MarksOk, CountsOk, Poll, PollMicros, EvictMicros, Disconnects;
    PollValid(h, lim, round.queue, round.now);
    PollSteps(h, lim, round.queue, round.now);
    var polling, evicting := PollMicros(h, lim, round.queue, round.now), EvictMicros(round.evicted);
    EvictSteps(Poll(h, lim, round.queue, round.now).host, lim, round.evicted);
    StepsConcat(h, lim, polling, evicting);
    if clock <= round.now {
      PollTimes(polling, round.now, clock);
      EvictTimes(evicting, EndClock(polling, clock));
      TimesConcat(polling, evicting, clock);
    }
  }

  lemma TailTimes(rounds: seq<Round>, clock: nat, mid: nat)
    requires Ordered(rounds, clock) && rounds != [] && mid <= rounds[0].now
    ensures clock <= rounds[0].now && Ordered(rounds[1..], mid) && LastTime(rounds[1..], mid) <= LastTime(rounds, clock)
  {
  }

  /** The rounds leave the host and report the events, in order, that their own steps do, and times are as ordered. */
  lemma {:induction false} RoundsTrace(h: HostState, lim: Limits, rounds: seq<Round>, clock: nat)
    requires Valid(h, lim)
    ensures
      var ms := RoundsMicros(h, lim, rounds);
      && Steps(h, lim, ms) == AfterRounds(h, lim, rounds) && Reports(h, lim, ms) == RoundsReports(h, lim, rounds)
      && (Ordered(rounds, clock) ==> Nondecreasing(ms, clock) && EndClock(ms, clock) <= LastTime(rounds, clock))
    decreases |rounds|
  {
    hide Valid, AfterRound, Poll, RoundMicros, Ordered, LastTime, Steps, Reports;
    NoSteps(h, lim);
    NoRounds(clock);
    if rounds != [] {
      RoundTrace(h, lim, rounds[0], clock);
      var first, h1 := RoundMicros(h, lim, rounds[0]), AfterRound(h, lim, rounds[0]);
      var mid := EndClock(first, clock);
      RoundsTrace(h1, lim, rounds[1..], mid);
      var rest := RoundsMicros(h1, lim, rounds[1..]);
      StepsConcat(h, lim, first, rest);
      if Ordered(rounds, clock) {
        OrderedHead(rounds, clock);
        TailTimes(rounds, clock, mid);
        TimesConcat(first, rest, clock);
      }
    }
  }

  lemma OrderedHead(rounds: seq<Round>, clock: nat)
    requires Ordered(rounds, clock) && rounds != []
    ensures clock <= rounds[0].now
  {
  }

  lemma NoSteps(h: HostState, lim: Limits)
    requires Valid(h, lim)
    ensures Steps(h, lim, []) == h && Reports(h, lim, []) == []
  {
    hide Valid;
  }

  lemma NoRounds(clock: nat)
    ensures Ordered([], clock) && LastTime([], clock) == clock
  {
  }

  // ----- Expiry

  /** From the empty host, polls at nondecreasing times keep the watermark queue ordered by expiry. */
  lemma WatermarksStayOrdered(lim: Limits, rounds: seq<Round>)
    requires LimitsOk(lim) && Ordered(rounds, 0)
    ensures Valid(EMPTY_HOST, lim)
    ensures
      var h := AfterRounds(EMPTY_HOST, lim, rounds);
      Valid(h, lim) && ExpiryOrder(h.marks, h.order, LastTime(rounds, 0) + lim.timeout)
  {
    hide Valid, AfterRounds, RoundsReports, RoundsMicros, ExpiryOrder, Steps, Reports, Nondecreasing, EndClock, LastTime, Ordered;
    EmptyHostValid(lim);
    RoundsTrace(EMPTY_HOST, lim, rounds, 0);
    var ms := RoundsMicros(EMPTY_HOST, lim, rounds);
    EmptyExpiry(lim.timeout);
    RunExpiry(EMPTY_HOST, lim, ms, 0);
    var h := AfterRounds(EMPTY_HOST, lim, rounds);
    LaterExpiry(h.marks, h.order, EndClock(ms, 0) + lim.timeout, LastTime(rounds, 0) + lim.timeout);
  }

  /** So the next poll, whenever it comes, opens with nothing expired unless it spent its whole cleanup budget. */
  lemma OpeningLeavesNoneExpired(lim: Limits, rounds: seq<Round>, now: nat)
    requires LimitsOk(lim) && Ordered(rounds, 0)
    ensures Valid(EMPTY_HOST, lim)
    ensures
      var h := AfterRounds(EMPTY_HOST, lim, rounds);
      var e := Expire(h.(avail := |h.free|), now, 0);
      e.host == Opened(h, now) && (e.cleanups == MAX_POLL_WATERMARK_CLEANUPS || NoneExpired(Opened(h, now).marks, now))
  {
    hide LiveOk, FreeOk, IpsOk, ConnsOk, OrderOk, MarksOk, AfterRounds, ExpiryOrder, Expire, NoneExpired;
    WatermarksStayOrdered(lim, rounds);
    var h := AfterRounds(EMPTY_HOST, lim, rounds);
    var ready := h.(avail := |h.free|);
    CleanupIsComplete(ready, lim, now, 0, LastTime(rounds, 0) + lim.timeout);
  }

  // ----- What takes a fence down

  /** The live peer goes and is not replaced: it says so, it times out, or it is disconnected locally. */
  ghost predicate Leaves(h: HostState, lim: Limits, m: Micro, a: Addr) {
    && a in h.peers
    && match m
       case PacketStep(b, packet, _) =>
         b == a && packet.Disconnect? && packet.connectionNumber == h.peers[a].connectionNumber
         && packet.time == Some(h.peers[a].connectTime)
       case ScanStep(now, timeouts, _) =>
         |h.slots| > 0 && h.slots[NextSlot(h)] == Some(a) && IsExpired(h.peers[a], lim, now)
         && timeouts < MAX_POLL_TIMEOUT_EVENTS
       case EvictStep(id) => PeerAddr(h, id) == Some(a)
       case _ => false
  }

  /** The watermark stands at the front of the queue and its time has come. */
  ghost predicate Lapses(h: HostState, m: Micro, a: Addr) {
    && a in h.marks && m.PopStep?
    && |h.order| > 0 && h.order[0] == (a, h.marks[a].generation) && h.marks[a].expiresAt <= m.now
  }

  /** The request outdates a live peer for which no slot is left, so its address is watermarked. */
  predicate Records(h: HostState, lim: Limits, m: Micro) {
    && m.PacketStep? && m.packet.ConnectRequest? && m.packet.acceptable
    && m.addr in h.peers && m.packet.connectTime > h.peers[m.addr].connectTime && !SlotLeft(h, lim)
  }

  /** The watermark is the oldest in a full queue, or the generation counter starts over, when another is recorded. */
  ghost predicate Displaced(h: HostState, lim: Limits, m: Micro, a: Addr) {
    && a in h.marks && Records(h, lim, m)
    && (h.nextGen == U64_MAX || (|h.order| == lim.maxPeers && |h.order| > 0 && h.order[0] == (a, h.marks[a].generation)))
  }

  ghost predicate TakesDown(h: HostState, lim: Limits, m: Micro, a: Addr) {
    Leaves(h, lim, m, a) || Lapses(h, m, a) || Displaced(h, lim, m, a)
  }

  lemma DeadIfMarked(h: HostState, lim: Limits, a: Addr)
    requires Valid(h, lim) && a in h.marks
    ensures a !in h.peers
  {
    hide LiveOk, FreeOk, IpsOk, ConnsOk, OrderOk;
  }

  lemma RecordDown(h: HostState, lim: Limits, b: Addr, connectTime: int, now: nat, a: Addr)
    requires a != b && a in h.marks && a !in h.peers
    requires |h.order| == lim.maxPeers ==> |h.order| > 0
    ensures
      var r := RecordMark(h, lim, b, connectTime, now);
      Level(r, a).None? <==> h.nextGen == U64_MAX || (|h.order| == lim.maxPeers && h.order[0] == (a, h.marks[a].generation))
  {
  }

  lemma AdmitDown(h: HostState, lim: Limits, b: Addr, connectTime: int, number: nat, now: nat, replaced: bool, a: Addr)
    requires CountsOk(h, lim) && FreeOk(h.slots, h.free) && LimitsOk(lim) && a != b && b !in h.peers && Level(h, a).Some?
    requires a in h.marks ==> a !in h.peers
    ensures
      var r := Admit(h, lim, b, connectTime, number, now, replaced).host;
      Level(r, a).None? <==>
        a in h.marks && replaced && !SlotLeft(h, lim)
        && (h.nextGen == U64_MAX || (|h.order| == lim.maxPeers && h.order[0] == (a, h.marks[a].generation)))
  {
    hide FreeOk, RecordMark, AddIp;
    RecordMarkFrame(h, lim, b, connectTime, now);
    if a in h.marks { RecordDown(h, lim, b, connectTime, now, a); }
  }

  lemma ConnectDown(h: HostState, lim: Limits, b: Addr, connectTime: int, number: nat, now: nat, a: Addr)
    requires Valid(h, lim) && Level(h, a).Some?
    ensures
      var r := HandleConnect(h, lim, b, connectTime, number, now).host;
      Level(r, a).None? <==> Displaced(h, lim, PacketStep(b, ConnectRequest(true, connectTime, number), now), a)
  {
    hide LiveOk, FreeOk, IpsOk, ConnsOk, OrderOk, MarksOk, Admit, RemovePeerAt;
    if a in h.marks { DeadIfMarked(h, lim, a); }
    if a == b {
      ConnectKeepsOwn(h, lim, b, connectTime, number, now);
    } else if b in h.peers {
      if connectTime > h.peers[b].connectTime {
        RemoveValid(h, lim, b);
        RemoveFrame(h, b);
        RemovedHost(h, b);
        AdmitDown(RemovePeerAt(h, b), lim, b, connectTime, number, now, true, a);
      }
    } else {
      var h1 := if b in h.marks then h.(marks := h.marks[b := h.marks[b].(connectTime := connectTime)]) else h;
      AdmitDown(h1, lim, b, connectTime, number, now, false, a);
    }
  }

  lemma ConnectKeepsOwn(h: HostState, lim: Limits, a: Addr, connectTime: int, number: nat, now: nat)
    requires Valid(h, lim) && Level(h, a).Some?
    ensures Level(HandleConnect(h, lim, a, connectTime, number, now).host, a).Some?
  {
    hide LiveOk, FreeOk, IpsOk, ConnsOk, OrderOk, MarksOk, Admit, RemovePeerAt;
    if a in h.peers {
      if connectTime > h.peers[a].connectTime {
        RemoveValid(h, lim, a);
        RemoveFrame(h, a);
        AdmitLevel(RemovePeerAt(h, a), lim, a, connectTime, number, now, true, a);
      }
    } else {
      var h1 := h.(marks := h.marks[a := h.marks[a].(connectTime := connectTime)]);
      AdmitLevel(h1, lim, a, connectTime, number, now, false, a);
    }
  }

  lemma PacketDown(h: HostState, lim: Limits, b: Addr, packet: Packet, now: nat, a: Addr)
    requires Valid(h, lim) && Level(h, a).Some?
    ensures
      var r := HandlePacket(h, lim, b, packet, now).host;
      Level(r, a).None? <==> TakesDown(h, lim, PacketStep(b, packet, now), a)
  {
    hide LiveOk, FreeOk, IpsOk, ConnsOk, OrderOk, MarksOk, HandleConnect, RemovePeerAt, Heard;
    if a in h.marks { DeadIfMarked(h, lim, a); }
    if packet.ConnectRequest? {
      if packet.acceptable { ConnectDown(h, lim, b, packet.connectTime, packet.connectionNumber, now, a); }
    } else if b in h.peers {
      RemoveFrame(h, b);
    }
  }

  lemma ScanDown(h: HostState, lim: Limits, now: nat, timeouts: nat, keepalives: nat, a: Addr)
    requires Valid(h, lim) && Level(h, a).Some? && |h.slots| > 0
    ensures
      var r := MaintainOne(h, lim, now, timeouts, keepalives).host;
      Level(r, a).None? <==> TakesDown(h, lim, ScanStep(now, timeouts, keepalives), a)
  {
    hide LiveOk, FreeOk, IpsOk, ConnsOk, OrderOk, MarksOk, RemovePeerAt, Since;
    if a in h.marks { DeadIfMarked(h, lim, a); }
    if h.slots[NextSlot(h)].Some? {
      LiveAt(h.peers, h.slots, NextSlot(h));
      RemoveFrame(h.(cursor := NextSlot(h) + 1), h.slots[NextSlot(h)].value);
    }
  }

  lemma PopDown(h: HostState, lim: Limits, now: nat, a: Addr)
    requires Valid(h, lim) && Level(h, a).Some?
    ensures Level(Step(h, lim, PopStep(now)), a).None? <==> TakesDown(h, lim, PopStep(now), a)
  {
    hide LiveOk, FreeOk, IpsOk, ConnsOk, OrderOk, MarksOk;
    if a in h.marks { DeadIfMarked(h, lim, a); }
  }

  /** A fence comes down at a step if and only if its live peer leaves, its watermark lapses or it is displaced. */
  lemma FenceComesDownIff(h: HostState, lim: Limits, m: Micro, a: Addr)
    requires Valid(h, lim) && Level(h, a).Some?
    ensures Level(Step(h, lim, m), a).None? <==> TakesDown(h, lim, m, a)
  {
    hide LiveOk, FreeOk, IpsOk, ConnsOk, OrderOk, MarksOk, CountsOk, HandlePacket, MaintainOne, RemovePeerAt;
    match m
    case PopStep(now) => PopDown(h, lim, now, a);
    case PacketStep(b, packet, now) => PacketDown(h, lim, b, packet, now, a);
    case ScanStep(now, timeouts, keepalives) =>
      if |h.slots| > 0 { ScanDown(h, lim, now, timeouts, keepalives, a); }
    case EvictStep(id) =>
      if a in h.marks { DeadIfMarked(h, lim, a); }
      if PeerAddr(h, id).Some? { RemoveFrame(h, PeerAddr(h, id).value); }
    case _ =>
  }

  // ----- Nothing older is accepted behind a fence

  /** Some step before the `k`-th took down the fence of `a`. */
  ghost predicate TakenDownBefore(h: HostState, lim: Limits, ms: seq<Micro>, a: Addr, k: nat)
    requires Valid(h, lim) && k <= |ms|
  {
    exists i :: 0 <= i < k && TakesDown(Steps(h, lim, ms[..i]), lim, ms[i], a)
  }

  lemma DownLater(h: HostState, lim: Limits, ms: seq<Micro>, a: Addr, k: nat)
    requires Valid(h, lim) && 0 < k <= |ms|
    requires Valid(Step(h, lim, ms[0]), lim) && TakenDownBefore(Step(h, lim, ms[0]), lim, ms[1..], a, k - 1)
    ensures TakenDownBefore(h, lim, ms, a, k)
  {
    hide Valid, Step, TakesDown;
    var i :| 0 <= i < k - 1 && TakesDown(Steps(Step(h, lim, ms[0]), lim, ms[1..][..i]), lim, ms[1..][i], a);
    assert ms[..i + 1][0] == ms[0] && ms[..i + 1][1..] == ms[1..][..i];
    assert Steps(h, lim, ms[..i + 1]) == Steps(Step(h, lim, ms[0]), lim, ms[1..][..i]);
    assert TakesDown(Steps(h, lim, ms[..i + 1]), lim, ms[i + 1], a);
  }

  /** A fence stands no lower than it stood, or was taken down on the way. */
  lemma {:induction false} FenceHolds(h: HostState, lim: Limits, ms: seq<Micro>, a: Addr, k: nat)
    requires Valid(h, lim) && Level(h, a).Some? && k <= |ms|
    ensures
      var r := Steps(h, lim, ms[..k]);
      (Level(r, a).Some? && Level(h, a).value <= Level(r, a).value) || TakenDownBefore(h, lim, ms, a, k)
    decreases k
  {
    hide Valid, Step, Level, TakesDown;
    if k == 0 {
      assert ms[..0] == [];
    } else {
      StepValid(h, lim, ms[0]);
      StepLevel(h, lim, ms[0], a);
      FenceComesDownIff(h, lim, ms[0], a);
      assert ms[..0] == [];
      if TakesDown(h, lim, ms[0], a) {
        assert TakesDown(Steps(h, lim, ms[..0]), lim, ms[0], a);
      } else {
        FenceHolds(Step(h, lim, ms[0]), lim, ms[1..], a, k - 1);
        assert ms[..k][0] == ms[0] && ms[..k][1..] == ms[1..][..k - 1];
        if TakenDownBefore(Step(h, lim, ms[0]), lim, ms[1..], a, k - 1) { DownLater(h, lim, ms, a, k); }
      }
    }
  }

  /** Every reported event was reported by one of the steps. */
  lemma {:induction false} EventHasStep(h: HostState, lim: Limits, ms: seq<Micro>, e: Event) returns (k: nat)
    requires Valid(h, lim) && e in Reports(h, lim, ms)
    ensures k < |ms| && e in StepEvents(Steps(h, lim, ms[..k]), lim, ms[k])
    decreases |ms|
  {
    hide Valid, Step, StepEvents;
    StepValid(h, lim, ms[0]);
    if e in StepEvents(h, lim, ms[0]) {
      k := 0;
      assert ms[..0] == [];
    } else {
      var later := EventHasStep(Step(h, lim, ms[0]), lim, ms[1..], e);
      k := later + 1;
      assert ms[..k][0] == ms[0] && ms[..k][1..] == ms[1..][..later];
    }
  }

  /** A step that reports a connection has just put it live at its address. */
  lemma ConnectedIsLive(h: HostState, lim: Limits, m: Micro, e: Event)
    requires Valid(h, lim) && e.Connected? && e in StepEvents(h, lim, m)
    ensures
      var r := Step(h, lim, m);
      e.conn.addr in r.peers && r.peers[e.conn.addr].conn == e.conn
  {
    hide LiveOk, FreeOk, IpsOk, ConnsOk, OrderOk, MarksOk, CountsOk, HandleConnect, RemovePeerAt, Since;
    if m.PacketStep? && m.packet.ConnectRequest? {
      ConnectReports(h, lim, m.addr, m.packet.connectTime, m.packet.connectionNumber, m.now, e);
    }
  }

  lemma ConnectReports(h: HostState, lim: Limits, a: Addr, connectTime: int, number: nat, now: nat, e: Event)
    requires Valid(h, lim) && e.Connected? && e in HandleConnect(h, lim, a, connectTime, number, now).events
    ensures
      var r := HandleConnect(h, lim, a, connectTime, number, now).host;
      e.conn.addr in r.peers && r.peers[e.conn.addr].conn == e.conn
  {
    hide LiveOk, FreeOk, IpsOk, ConnsOk, OrderOk, MarksOk, RemovePeerAt, Admit;
    if a in h.peers {
      RemoveValid(h, lim, a);
      AdmitReports(RemovePeerAt(h, a), lim, a, connectTime, number, now, true);
    } else {
      var h1 := if a in h.marks then h.(marks := h.marks[a := h.marks[a].(connectTime := connectTime)]) else h;
      AdmitReports(h1, lim, a, connectTime, number, now, false);
    }
  }

  lemma AdmitReports(h: HostState, lim: Limits, a: Addr, connectTime: int, number: nat, now: nat, replaced: bool)
    requires h.avail <= |h.free| && FreeOk(h.slots, h.free)
    ensures
      var o := Admit(h, lim, a, connectTime, number, now, replaced);
      forall e :: e in o.events ==> e.Connected? && e.conn.addr in o.host.peers && o.host.peers[e.conn.addr].conn == e.conn
  {
    hide AddIp, RecordMark;
  }

  lemma StepsNext(h: HostState, lim: Limits, ms: seq<Micro>, k: nat)
    requires Valid(h, lim) && k < |ms|
    ensures Steps(h, lim, ms[..k + 1]) == Step(Steps(h, lim, ms[..k]), lim, ms[k])
  {
    hide Valid, Step;
    assert ms[..k + 1] == ms[..k] + [ms[k]];
    StepsConcat(h, lim, ms[..k], [ms[k]]);
    StepsOne(Steps(h, lim, ms[..k]), lim, ms[k]);
  }

  /**
    * Reconnect ordering over every run of polls and local disconnects, from any reachable host: whenever a poll
    * reports a connection at an address that was live or watermarked at some connect time, the accepted request
    * is no older than that, unless in between, at one of the run's own steps, the live peer left, the watermark
    * expired, or it was displaced.
    */
  lemma ReconnectsAreNotOlder(h: HostState, lim: Limits, rounds: seq<Round>, e: Event) returns (k: nat)
    requires Valid(h, lim) && e.Connected? && e in RoundsReports(h, lim, rounds) && Level(h, e.conn.addr).Some?
    ensures
      var ms := RoundsMicros(h, lim, rounds);
      var a := e.conn.addr;
      && k < |ms| && e in StepEvents(Steps(h, lim, ms[..k]), lim, ms[k])
      && (var after := Steps(h, lim, ms[..k + 1]);
          && a in after.peers && after.peers[a].conn == e.conn
          && (Level(h, a).value <= after.peers[a].connectTime || TakenDownBefore(h, lim, ms, a, k)))
  {
    hide Valid, Step, StepEvents, RoundsReports, RoundsMicros, AfterRounds, TakesDown;
    var a := e.conn.addr;
    RoundsTrace(h, lim, rounds, 0);
    var ms := RoundsMicros(h, lim, rounds);
    k := EventHasStep(h, lim, ms, e);
    var before := Steps(h, lim, ms[..k]);
    FenceHolds(h, lim, ms, a, k);
    StepsNext(h, lim, ms, k);
    ConnectedIsLive(before, lim, ms[k], e);
    StepLevel(before, lim, ms[k], a);
  }
}
