/**
  * Reconnect ordering: a live peer or a watermark fences its address against older connect times, and
  * watermarks leave the bounded queue in the order in which they expire.
  */
module TransportFences {
  import opened Options
  import opened Numbers
  import opened Transport

  // ----- Every host operation is a run of these steps

  datatype Micro =
    | OpenStep
    | PopStep(now: nat)
    | PacketStep(addr: Addr, packet: Packet, now: nat)
    | ScanStep(now: nat, timeouts: nat, keepalives: nat)
    | RewindStep
    | EvictStep(id: nat)

  /** The front of the watermark queue has expired, or no longer backs a watermark. */
  predicate Poppable(h: HostState, now: nat) {
    && |h.order| > 0
    && var (a, g) := h.order[0];
       !(a in h.marks && h.marks[a].generation == g && h.marks[a].expiresAt > now)
  }

  function Step(h: HostState, lim: Limits, m: Micro): HostState
    requires Valid(h, lim)
  {
    match m
    case OpenStep => h.(avail := |h.free|)
    case PopStep(now) => if Poppable(h, now) then PopMark(h) else h
    case PacketStep(a, packet, now) => HandlePacket(h, lim, a, packet, now).host
    case ScanStep(now, timeouts, keepalives) =>
      if |h.slots| > 0 then MaintainOne(h, lim, now, timeouts, keepalives).host else h
    case RewindStep => h.(cursor := 0)
    case EvictStep(id) => LocalDisconnect(h, id)
  }

  /** What a step reports. */
  function StepEvents(h: HostState, lim: Limits, m: Micro): seq<Event>
    requires Valid(h, lim)
  {
    match m
    case PacketStep(a, packet, now) => HandlePacket(h, lim, a, packet, now).events
    case ScanStep(now, timeouts, keepalives) =>
      if |h.slots| > 0 then MaintainOne(h, lim, now, timeouts, keepalives).events else []
    case _ => []
  }

  lemma StepValid(h: HostState, lim: Limits, m: Micro)
    requires Valid(h, lim)
    ensures Valid(Step(h, lim, m), lim)
  {
    hide LiveOk, FreeOk, IpsOk, ConnsOk, OrderOk, MarksOk, HandlePacket, MaintainOne, LocalDisconnect, PopMark;
    match m
    case OpenStep =>
    case PopStep(now) => if Poppable(h, now) { PopMarkValid(h, lim); }
    case PacketStep(a, packet, now) => HandlePacketValid(h, lim, a, packet, now);
    case ScanStep(now, timeouts, keepalives) =>
      if |h.slots| > 0 { MaintainOneValid(h, lim, now, timeouts, keepalives); }
    case RewindStep =>
    case EvictStep(id) => LocalDisconnectValid(h, lim, id);
  }

  function Steps(h: HostState, lim: Limits, ms: seq<Micro>): (r: HostState)
    requires Valid(h, lim)
    ensures Valid(r, lim)
    decreases |ms|
  {
    hide Valid, Step;
    if ms == [] then h
    else
      StepValid(h, lim, ms[0]);
      Steps(Step(h, lim, ms[0]), lim, ms[1..])
  }

  /** Everything a run of steps reports. */
  function Reports(h: HostState, lim: Limits, ms: seq<Micro>): seq<Event>
    requires Valid(h, lim)
    decreases |ms|
  {
    hide Valid, Step, StepEvents;
    if ms == [] then []
    else
      StepValid(h, lim, ms[0]);
      StepEvents(h, lim, ms[0]) + Reports(Step(h, lim, ms[0]), lim, ms[1..])
  }

  lemma {:induction false} StepsConcat(h: HostState, lim: Limits, xs: seq<Micro>, ys: seq<Micro>)
    requires Valid(h, lim)
    ensures Steps(h, lim, xs + ys) == Steps(Steps(h, lim, xs), lim, ys)
    ensures Reports(h, lim, xs + ys) == Reports(h, lim, xs) + Reports(Steps(h, lim, xs), lim, ys)
    decreases |xs|
  {
    hide Valid, Step, StepEvents;
    if xs == [] {
      assert xs + ys == ys;
    } else {
      StepValid(h, lim, xs[0]);
      assert (xs + ys)[1..] == xs[1..] + ys;
      StepsConcat(Step(h, lim, xs[0]), lim, xs[1..], ys);
    }
  }

  lemma StepsOne(h: HostState, lim: Limits, m: Micro)
    requires Valid(h, lim)
    ensures Steps(h, lim, [m]) == Step(h, lim, m)
    ensures Reports(h, lim, [m]) == StepEvents(h, lim, m)
  {
    hide Valid, Step, StepEvents;
    StepValid(h, lim, m);
    assert [m][1..] == [];
  }

  /** The steps are those of one poll: none is a local disconnect, and each that reads the time reads this one. */
  ghost predicate AtTime(ms: seq<Micro>, now: nat) {
    forall i :: 0 <= i < |ms| ==>
      && !ms[i].EvictStep?
      && (ms[i].PopStep? || ms[i].PacketStep? || ms[i].ScanStep? ==> ms[i].now == now)
  }

  /** A run of steps that does what this outcome says, at this time. */
  ghost predicate Does(h: HostState, lim: Limits, ms: seq<Micro>, now: nat, host: HostState, events: seq<Event>)
    requires Valid(h, lim)
  {
    Steps(h, lim, ms) == host && Reports(h, lim, ms) == events && AtTime(ms, now)
  }

  lemma DoesThen(h: HostState, lim: Limits, xs: seq<Micro>, ys: seq<Micro>, now: nat, mid: HostState, e1: seq<Event>,
                 host: HostState, e2: seq<Event>)
    requires Valid(h, lim) && Does(h, lim, xs, now, mid, e1) && Valid(mid, lim) && Does(mid, lim, ys, now, host, e2)
    ensures Does(h, lim, xs + ys, now, host, e1 + e2)
  {
    hide Valid;
    StepsConcat(h, lim, xs, ys);
  }

  /** A quiet run followed by another. */
  lemma QuietThen(h: HostState, lim: Limits, xs: seq<Micro>, ys: seq<Micro>, now: nat, mid: HostState, host: HostState,
                  events: seq<Event>)
    requires Valid(h, lim) && Does(h, lim, xs, now, mid, []) && Valid(mid, lim) && Does(mid, lim, ys, now, host, events)
    ensures Does(h, lim, xs + ys, now, host, events)
  {
    hide Valid, Does;
    DoesThen(h, lim, xs, ys, now, mid, [], host, events);
    assert [] + events == events;
  }

  lemma DoesOne(h: HostState, lim: Limits, m: Micro, now: nat)
    requires Valid(h, lim) && AtTime([m], now)
    ensures Does(h, lim, [m], now, Step(h, lim, m), StepEvents(h, lim, m))
  {
    hide Valid, Step, StepEvents;
    StepsOne(h, lim, m);
  }

  // ----- The steps of a poll: its own cleanups, its own datagrams and its own scans, at its own time

  function ExpireMicros(h: HostState, now: nat, cleanups: nat): seq<Micro>
    requires cleanups <= MAX_POLL_WATERMARK_CLEANUPS
    decreases |h.order|
  {
    if cleanups < MAX_POLL_WATERMARK_CLEANUPS && Poppable(h, now)
    then [PopStep(now)] + ExpireMicros(PopMark(h), now, cleanups + 1) else []
  }

  /** One step for each datagram that the drain handles, in the order of the socket; it does not depend on the host. */
  function DrainMicros(queue: seq<Recv>, now: nat, packets: nat, bytes: nat): seq<Micro>
    decreases |queue|
  {
    if packets >= MAX_POLL_PACKETS || bytes >= MAX_POLL_BYTES || |queue| == 0 then []
    else match queue[0]
      case Fault => []
      case ConnectionReset => DrainMicros(queue[1..], now, packets + 1, bytes)
      case Datagram(a, n, packet) =>
        if n > MAX_POLL_BYTES - bytes then []
        else if n > MTU then DrainMicros(queue[1..], now, packets + 1, bytes + n)
        else [PacketStep(a, packet, now)] + DrainMicros(queue[1..], now, packets + 1, bytes + n)
  }

  function MaintainMicros(h: HostState, lim: Limits, now: nat, scans: nat, timeouts: nat, keepalives: nat): seq<Micro>
    requires Valid(h, lim) && |h.slots| > 0
    decreases scans
  {
    hide LiveOk, FreeOk, IpsOk, ConnsOk, OrderOk, MarksOk, CountsOk, MaintainOne;
    if scans == 0 then []
    else
      MaintainOneValid(h, lim, now, timeouts, keepalives);
      var m := MaintainOne(h, lim, now, timeouts, keepalives);
      [ScanStep(now, timeouts, keepalives)] + MaintainMicros(m.host, lim, now, scans - 1, m.timeouts, m.keepalives)
  }

  function MaintenanceMicros(h: HostState, lim: Limits, now: nat): seq<Micro>
    requires Valid(h, lim)
  {
    if |h.slots| == 0 then [RewindStep]
    else MaintainMicros(h, lim, now, Min(|h.slots|, MAX_POLL_MAINTENANCE_SCANS), 0, 0)
  }

  function OpenMicros(h: HostState, now: nat): seq<Micro> {
    [OpenStep] + ExpireMicros(h.(avail := |h.free|), now, 0)
  }

  function PollMicros(h: HostState, lim: Limits, queue: seq<Recv>, now: nat): seq<Micro>
    requires Valid(h, lim)
  {
    hide Valid, Opened, Drain;
    OpenedValid(h, lim, now);
    DrainValid(Opened(h, now), lim, queue, now, 0, 0);
    OpenMicros(h, now) + DrainMicros(queue, now, 0, 0)
    + MaintenanceMicros(Drain(Opened(h, now), lim, queue, now, 0, 0).host, lim, now)
  }

  lemma {:induction false} ExpireSteps(h: HostState, lim: Limits, now: nat, cleanups: nat)
    requires Valid(h, lim) && cleanups <= MAX_POLL_WATERMARK_CLEANUPS
    ensures Does(h, lim, ExpireMicros(h, now, cleanups), now, Expire(h, now, cleanups).host, [])
    decreases |h.order|
  {
    hide Valid, Does;
    if cleanups < MAX_POLL_WATERMARK_CLEANUPS && Poppable(h, now) {
      PopMarkValid(h, lim);
      ExpireSteps(PopMark(h), lim, now, cleanups + 1);
      DoesOne(h, lim, PopStep(now), now);
      QuietThen(h, lim, [PopStep(now)], ExpireMicros(PopMark(h), now, cleanups + 1), now, PopMark(h),
                Expire(h, now, cleanups).host, []);
    } else {
      DoesNothing(h, lim, now);
    }
  }

  lemma DoesNothing(h: HostState, lim: Limits, now: nat)
    requires Valid(h, lim)
    ensures Does(h, lim, [], now, h, [])
  {
    hide Valid;
  }

  lemma {:induction false} DrainSteps(h: HostState, lim: Limits, queue: seq<Recv>, now: nat, packets: nat, bytes: nat)
    requires Valid(h, lim)
    ensures
      var d := Drain(h, lim, queue, now, packets, bytes);
      Does(h, lim, DrainMicros(queue, now, packets, bytes), now, d.host, d.events)
    decreases |queue|
  {
    hide Valid, HandlePacket, Does;
    DoesNothing(h, lim, now);
    if !(packets >= MAX_POLL_PACKETS || bytes >= MAX_POLL_BYTES || |queue| == 0) {
      match queue[0]
      case Fault =>
      case ConnectionReset => DrainSteps(h, lim, queue[1..], now, packets + 1, bytes);
      case Datagram(a, n, packet) =>
        if n <= MAX_POLL_BYTES - bytes {
          if n > MTU {
            DrainSteps(h, lim, queue[1..], now, packets + 1, bytes + n);
          } else {
            HandlePacketValid(h, lim, a, packet, now);
            var step := PacketStep(a, packet, now);
            var o := HandlePacket(h, lim, a, packet, now);
            DrainSteps(o.host, lim, queue[1..], now, packets + 1, bytes + n);
            var d := Drain(o.host, lim, queue[1..], now, packets + 1, bytes + n);
            DoesOne(h, lim, step, now);
            DoesThen(h, lim, [step], DrainMicros(queue[1..], now, packets + 1, bytes + n), now, o.host, o.events, d.host, d.events);
          }
        }
    }
  }

  lemma {:induction false} MaintainSteps(h: HostState, lim: Limits, now: nat, scans: nat, timeouts: nat, keepalives: nat)
    requires Valid(h, lim) && |h.slots| > 0
    ensures
      var m := Maintain(h, lim, now, scans, timeouts, keepalives);
      Does(h, lim, MaintainMicros(h, lim, now, scans, timeouts, keepalives), now, m.host, m.events)
    decreases scans
  {
    hide LiveOk, FreeOk, IpsOk, ConnsOk, OrderOk, MarksOk, CountsOk, MaintainOne, Does;
    DoesNothing(h, lim, now);
    if scans > 0 {
      MaintainOneValid(h, lim, now, timeouts, keepalives);
      var m := MaintainOne(h, lim, now, timeouts, keepalives);
      MaintainSteps(m.host, lim, now, scans - 1, m.timeouts, m.keepalives);
      var r := Maintain(m.host, lim, now, scans - 1, m.timeouts, m.keepalives);
      var step := ScanStep(now, timeouts, keepalives);
      DoesOne(h, lim, step, now);
      DoesThen(h, lim, [step], MaintainMicros(m.host, lim, now, scans - 1, m.timeouts, m.keepalives), now, m.host, m.events,
               r.host, r.events);
    }
  }

  lemma OpenSteps(h: HostState, lim: Limits, now: nat)
    requires Valid(h, lim)
    ensures Does(h, lim, OpenMicros(h, now), now, Opened(h, now), [])
  {
    hide LiveOk, FreeOk, IpsOk, ConnsOk, OrderOk, MarksOk, Expire, Does, ExpireMicros;
    StepValid(h, lim, OpenStep);
    var ready := h.(avail := |h.free|);
    DoesOne(h, lim, OpenStep, now);
    ExpireSteps(ready, lim, now, 0);
    QuietThen(h, lim, [OpenStep], ExpireMicros(ready, now, 0), now, ready, Opened(h, now), []);
  }

  lemma MaintenanceSteps(h: HostState, lim: Limits, now: nat)
    requires Valid(h, lim)
    ensures
      var m := Maintenance(h, lim, now);
      Does(h, lim, MaintenanceMicros(h, lim, now), now, m.host, m.events)
  {
    hide Valid, Maintain, MaintainMicros, Does;
    if |h.slots| == 0 {
      DoesOne(h, lim, RewindStep, now);
    } else {
      MaintainSteps(h, lim, now, Min(|h.slots|, MAX_POLL_MAINTENANCE_SCANS), 0, 0);
    }
  }

  /** A poll leaves the host and reports the events, in order, that its own steps do. */
  lemma PollSteps(h: HostState, lim: Limits, queue: seq<Recv>, now: nat)
    requires Valid(h, lim)
    ensures
      var r := Poll(h, lim, queue, now);
      var ms := PollMicros(h, lim, queue, now);
      Steps(h, lim, ms) == r.host && Reports(h, lim, ms) == r.events && AtTime(ms, now)
  {
    hide Valid, Drain, Maintenance, Opened, OpenMicros, DrainMicros, MaintenanceMicros;
    OpenedValid(h, lim, now);
    var o := Opened(h, now);
    OpenSteps(h, lim, now);
    DrainSteps(o, lim, queue, now, 0, 0);
    DrainValid(o, lim, queue, now, 0, 0);
    var d := Drain(o, lim, queue, now, 0, 0);
    MaintenanceSteps(d.host, lim, now);
    var m := Maintenance(d.host, lim, now);
    var opening, draining := OpenMicros(h, now), DrainMicros(queue, now, 0, 0);
    QuietThen(h, lim, opening, draining, now, o, d.host, d.events);
    DoesThen(h, lim, opening + draining, MaintenanceMicros(d.host, lim, now), now, d.host, d.events, m.host, m.events);
  }

  // ----- The fence on an address

  /** The connect time below which requests from `a` are refused: its live peer's, or its watermark's. */
  function Level(h: HostState, a: Addr): Option<int> {
    if a in h.peers then Some(h.peers[a].connectTime)
    else if a in h.marks then Some(h.marks[a].connectTime)
    else None
  }

  predicate NotLowered(before: Option<int>, after: Option<int>) {
    before.Some? && after.Some? ==> before.value <= after.value
  }

  lemma RecordLevel(h: HostState, lim: Limits, b: Addr, connectTime: int, now: nat, a: Addr)
    ensures
      var r := RecordMark(h, lim, b, connectTime, now);
      && r.peers == h.peers
      && (a != b ==> NotLowered(Level(h, a), Level(r, a)))
      && b in r.marks && r.marks[b].connectTime >= connectTime
  {
  }

  lemma AdmitLevel(h: HostState, lim: Limits, b: Addr, connectTime: int, number: nat, now: nat, replaced: bool, a: Addr)
    requires h.avail <= |h.free| && FreeOk(h.slots, h.free) && b !in h.peers
    ensures
      var r := Admit(h, lim, b, connectTime, number, now, replaced).host;
      && (a != b ==> NotLowered(Level(h, a), Level(r, a)))
      && (b in r.peers ==> r.peers[b].connectTime == connectTime)
      && (b !in r.peers && replaced ==> b in r.marks && r.marks[b].connectTime >= connectTime)
      && (b !in r.peers && !replaced ==> r == h)
  {
    hide FreeOk, RecordMark, AddIp;
    RecordLevel(h, lim, b, connectTime, now, a);
  }

  lemma ConnectLevel(h: HostState, lim: Limits, b: Addr, connectTime: int, number: nat, now: nat, a: Addr)
    requires Valid(h, lim)
    ensures NotLowered(Level(h, a), Level(HandleConnect(h, lim, b, connectTime, number, now).host, a))
  {
    hide LiveOk, FreeOk, IpsOk, ConnsOk, OrderOk, MarksOk, Admit, RemovePeerAt;
    if b in h.peers {
      if connectTime > h.peers[b].connectTime {
        RemoveValid(h, lim, b);
        RemoveFrame(h, b);
        AdmitLevel(RemovePeerAt(h, b), lim, b, connectTime, number, now, true, a);
      }
    } else if !(b in h.marks && connectTime < h.marks[b].connectTime) {
      if b in h.marks { RaiseMarkOk(h, b, connectTime); }
      var h1 := if b in h.marks then h.(marks := h.marks[b := h.marks[b].(connectTime := connectTime)]) else h;
      if !(|h1.peers| >= lim.maxPeers || (b.ip in h1.perIp && h1.perIp[b.ip] >= lim.maxPerIp)) {
        AdmitLevel(h1, lim, b, connectTime, number, now, false, a);
      }
    }
  }

  lemma RemoveFrame(h: HostState, b: Addr)
    requires b in h.peers && LiveOk(h.peers, h.slots)
    ensures RemovePeerAt(h, b).peers == h.peers - {b}
    ensures RemovePeerAt(h, b).marks == h.marks && RemovePeerAt(h, b).order == h.order
    ensures RemovePeerAt(h, b).nextGen == h.nextGen && RemovePeerAt(h, b).cursor == h.cursor
  {
  }

  lemma PacketLevel(h: HostState, lim: Limits, b: Addr, packet: Packet, now: nat, a: Addr)
    requires Valid(h, lim)
    ensures NotLowered(Level(h, a), Level(HandlePacket(h, lim, b, packet, now).host, a))
  {
    hide LiveOk, FreeOk, IpsOk, ConnsOk, OrderOk, HandleConnect, RemovePeerAt;
    if packet.ConnectRequest? {
      ConnectLevel(h, lim, b, packet.connectTime, packet.connectionNumber, now, a);
    } else if b in h.peers {
      RemoveFrame(h, b);
    }
  }

  /** While an address stays fenced, no step lowers its fence. */
  lemma StepLevel(h: HostState, lim: Limits, m: Micro, a: Addr)
    requires Valid(h, lim)
    ensures NotLowered(Level(h, a), Level(Step(h, lim, m), a))
  {
    hide LiveOk, FreeOk, IpsOk, ConnsOk, OrderOk, HandlePacket, RemovePeerAt, Since;
    match m
    case PacketStep(b, packet, now) => PacketLevel(h, lim, b, packet, now, a);
    case ScanStep(now, timeouts, keepalives) =>
      if |h.slots| > 0 && h.slots[NextSlot(h)].Some? {
        LiveAt(h.peers, h.slots, NextSlot(h));
        RemoveFrame(h.(cursor := NextSlot(h) + 1), h.slots[NextSlot(h)].value);
      }
    case EvictStep(id) =>
      if PeerAddr(h, id).Some? { RemoveFrame(h, PeerAddr(h, id).value); }
    case _ =>
  }

  /**
    * A watermark is only recorded for an address whose live peer was just removed, so it never finds an
    * older watermark to refresh: the refreshing branch of the recorder is dead code.
    */
  lemma RefreshBranchIsDead(h: HostState, lim: Limits, a: Addr)
    requires Valid(h, lim) && a in h.peers
    ensures a !in RemovePeerAt(h, a).marks
  {
    hide FreeOk, IpsOk, ConnsOk, OrderOk;
    RemoveFrame(h, a);
  }

  // ----- Watermark expiry

  ghost predicate Backed(marks: map<Addr, Watermark>, entry: (Addr, nat)) {
    entry.0 in marks && marks[entry.0].generation == entry.1
  }

  /** Entries that still back a watermark stand in the queue in the order in which they expire. */
  ghost predicate ExpiryOrder(marks: map<Addr, Watermark>, order: seq<(Addr, nat)>, latest: nat) {
    && (forall i, j :: 0 <= i < j < |order| && Backed(marks, order[i]) && Backed(marks, order[j]) ==>
          marks[order[i].0].expiresAt <= marks[order[j].0].expiresAt)
    && (forall a :: a in marks ==> marks[a].expiresAt <= latest)
  }

  lemma AppendExpiry(marks: map<Addr, Watermark>, order: seq<(Addr, nat)>, g: nat, a: Addr, w: Watermark)
    requires ExpiryOrder(marks, order, w.expiresAt) && w.generation == g
    requires forall i :: 0 <= i < |order| ==> order[i].1 < g
    ensures ExpiryOrder(marks[a := w], order + [(a, g)], w.expiresAt)
  {
    var m, o := marks[a := w], order + [(a, g)];
    assert forall i :: 0 <= i < |order| && Backed(m, o[i]) ==> o[i].0 != a && Backed(marks, order[i]);
  }

  lemma EmptyExpiry(latest: nat)
    ensures ExpiryOrder(map[], [], latest)
  {
  }

  lemma GenerationsBelow(order: seq<(Addr, nat)>, nextGen: nat, bound: nat)
    requires OrderOk(order, nextGen, bound)
    ensures forall i :: 0 <= i < |order| ==> order[i].1 <= nextGen
  {
  }

  lemma RecordExpiry(h: HostState, lim: Limits, a: Addr, connectTime: int, now: nat, clock: nat)
    requires ExpiryOrder(h.marks, h.order, clock + lim.timeout) && clock <= now
    requires OrderOk(h.order, h.nextGen, lim.maxPeers)
    ensures
      var r := RecordMark(h, lim, a, connectTime, now);
      ExpiryOrder(r.marks, r.order, now + lim.timeout)
  {
    hide ExpiryOrder, OrderOk;
    LaterExpiry(h.marks, h.order, clock + lim.timeout, now + lim.timeout);
    EmptyExpiry(now + lim.timeout);
    GenerationsBelow(h.order, h.nextGen, lim.maxPeers);
    var h0 := if h.nextGen == U64_MAX then h.(marks := map[], order := [], nextGen := 0) else h;
    var g := h0.nextGen + 1;
    if |h0.order| == lim.maxPeers && |h0.order| > 0 { PopExpiry(h0.(nextGen := g), now + lim.timeout); }
    var h1 := EvictOldest(h0.(nextGen := g), lim);
    AppendExpiry(h1.marks, h1.order, g, a, RecordMark(h, lim, a, connectTime, now).marks[a]);
  }

  ghost function StepClock(m: Micro, clock: nat): nat {
    match m
    case PopStep(now) => now
    case PacketStep(_, _, now) => now
    case ScanStep(now, _, _) => now
    case _ => clock
  }

  lemma AdmitExpiry(h: HostState, lim: Limits, b: Addr, connectTime: int, number: nat, now: nat, replaced: bool, clock: nat)
    requires h.avail <= |h.free| && FreeOk(h.slots, h.free)
    requires ExpiryOrder(h.marks, h.order, clock + lim.timeout) && clock <= now
    requires OrderOk(h.order, h.nextGen, lim.maxPeers)
    ensures
      var r := Admit(h, lim, b, connectTime, number, now, replaced).host;
      ExpiryOrder(r.marks, r.order, now + lim.timeout)
  {
    hide FreeOk, OrderOk, RecordMark, AddIp;
    RecordExpiry(h, lim, b, connectTime, now, clock);
  }

  lemma RaiseExpiry(marks: map<Addr, Watermark>, order: seq<(Addr, nat)>, latest: nat, b: Addr, connectTime: int)
    requires ExpiryOrder(marks, order, latest) && b in marks
    ensures ExpiryOrder(marks[b := marks[b].(connectTime := connectTime)], order, latest)
  {
    var m := marks[b := marks[b].(connectTime := connectTime)];
    assert forall e :: Backed(m, e) ==> Backed(marks, e);
  }

  lemma LaterExpiry(marks: map<Addr, Watermark>, order: seq<(Addr, nat)>, latest: nat, later: nat)
    requires ExpiryOrder(marks, order, latest) && latest <= later
    ensures ExpiryOrder(marks, order, later)
  {
  }

  lemma ConnectExpiry(h: HostState, lim: Limits, b: Addr, connectTime: int, number: nat, now: nat, clock: nat)
    requires Valid(h, lim) && ExpiryOrder(h.marks, h.order, clock + lim.timeout) && clock <= now
    ensures
      var r := HandleConnect(h, lim, b, connectTime, number, now).host;
      ExpiryOrder(r.marks, r.order, now + lim.timeout)
  {
    hide LiveOk, FreeOk, IpsOk, ConnsOk, OrderOk, MarksOk, Admit, RemovePeerAt, ExpiryOrder;
    LaterExpiry(h.marks, h.order, clock + lim.timeout, now + lim.timeout);
    if b in h.peers {
      if connectTime > h.peers[b].connectTime {
        RemoveValid(h, lim, b);
        RemoveFrame(h, b);
        AdmitExpiry(RemovePeerAt(h, b), lim, b, connectTime, number, now, true, clock);
      }
    } else if !(b in h.marks && connectTime < h.marks[b].connectTime) {
      if b in h.marks {
        RaiseMarkOk(h, b, connectTime);
        RaiseExpiry(h.marks, h.order, clock + lim.timeout, b, connectTime);
        RaiseExpiry(h.marks, h.order, now + lim.timeout, b, connectTime);
      }
      var h1 := if b in h.marks then h.(marks := h.marks[b := h.marks[b].(connectTime := connectTime)]) else h;
      if !(|h1.peers| >= lim.maxPeers || (b.ip in h1.perIp && h1.perIp[b.ip] >= lim.maxPerIp)) {
        AdmitExpiry(h1, lim, b, connectTime, number, now, false, clock);
      }
    }
  }

  lemma PacketExpiry(h: HostState, lim: Limits, b: Addr, packet: Packet, now: nat, clock: nat)
    requires Valid(h, lim) && ExpiryOrder(h.marks, h.order, clock + lim.timeout) && clock <= now
    ensures
      var r := HandlePacket(h, lim, b, packet, now).host;
      ExpiryOrder(r.marks, r.order, now + lim.timeout)
  {
    hide LiveOk, FreeOk, IpsOk, ConnsOk, OrderOk, MarksOk, HandleConnect, RemovePeerAt, ExpiryOrder, Heard;
    LaterExpiry(h.marks, h.order, clock + lim.timeout, now + lim.timeout);
    if packet.ConnectRequest? {
      ConnectExpiry(h, lim, b, packet.connectTime, packet.connectionNumber, now, clock);
    } else if b in h.peers {
      RemoveFrame(h, b);
    }
  }

  lemma ScanFrame(h: HostState, lim: Limits, now: nat, timeouts: nat, keepalives: nat)
    requires Valid(h, lim) && |h.slots| > 0
    ensures
      var r := MaintainOne(h, lim, now, timeouts, keepalives).host;
      r.marks == h.marks && r.order == h.order
  {
    hide LiveOk, FreeOk, IpsOk, ConnsOk, OrderOk, MarksOk, RemovePeerAt, Since;
    if h.slots[NextSlot(h)].Some? {
      LiveAt(h.peers, h.slots, NextSlot(h));
      RemoveFrame(h.(cursor := NextSlot(h) + 1), h.slots[NextSlot(h)].value);
    }
  }

  lemma StepExpiry(h: HostState, lim: Limits, m: Micro, clock: nat)
    requires Valid(h, lim) && ExpiryOrder(h.marks, h.order, clock + lim.timeout)
    requires clock <= StepClock(m, clock)
    ensures
      var r := Step(h, lim, m);
      ExpiryOrder(r.marks, r.order, StepClock(m, clock) + lim.timeout)
  {
    hide LiveOk, FreeOk, IpsOk, ConnsOk, OrderOk, MarksOk, HandlePacket, MaintainOne, RemovePeerAt, ExpiryOrder;
    LaterExpiry(h.marks, h.order, clock + lim.timeout, StepClock(m, clock) + lim.timeout);
    match m
    case PopStep(now) => if Poppable(h, now) { PopExpiry(h, now + lim.timeout); }
    case PacketStep(b, packet, now) => PacketExpiry(h, lim, b, packet, now, clock);
    case ScanStep(now, timeouts, keepalives) => if |h.slots| > 0 { ScanFrame(h, lim, now, timeouts, keepalives); }
    case EvictStep(id) => if PeerAddr(h, id).Some? { RemoveFrame(h, PeerAddr(h, id).value); }
    case _ =>
  }

  lemma PopExpiry(h: HostState, latest: nat)
    requires |h.order| > 0 && ExpiryOrder(h.marks, h.order, latest)
    ensures ExpiryOrder(PopMark(h).marks, PopMark(h).order, latest)
  {
    assert forall e :: Backed(PopMark(h).marks, e) ==> Backed(h.marks, e);
  }

  ghost predicate Nondecreasing(ms: seq<Micro>, clock: nat)
    decreases |ms|
  {
    ms != [] ==> clock <= StepClock(ms[0], clock) && Nondecreasing(ms[1..], StepClock(ms[0], clock))
  }

  ghost function EndClock(ms: seq<Micro>, clock: nat): nat
    decreases |ms|
  {
    if ms == [] then clock else EndClock(ms[1..], StepClock(ms[0], clock))
  }

  /** Under a nondecreasing clock the watermark queue is ordered by expiry in every reachable state. */
  lemma {:induction false} RunExpiry(h: HostState, lim: Limits, ms: seq<Micro>, clock: nat)
    requires Valid(h, lim) && ExpiryOrder(h.marks, h.order, clock + lim.timeout) && Nondecreasing(ms, clock)
    ensures
      var r := Steps(h, lim, ms);
      ExpiryOrder(r.marks, r.order, EndClock(ms, clock) + lim.timeout)
    decreases |ms|
  {
    hide Valid, Step, ExpiryOrder;
    if ms != [] {
      StepValid(h, lim, ms[0]);
      StepExpiry(h, lim, ms[0], clock);
      RunExpiry(Step(h, lim, ms[0]), lim, ms[1..], StepClock(ms[0], clock));
    }
  }

  /**
    * Given that order, the early exit of the cleanup is exact: unless it spent its whole budget, it
    * leaves no watermark whose time has come.
    */
  lemma {:induction false} CleanupIsComplete(h: HostState, lim: Limits, now: nat, cleanups: nat, latest: nat)
    requires Valid(h, lim) && ExpiryOrder(h.marks, h.order, latest) && cleanups <= MAX_POLL_WATERMARK_CLEANUPS
    ensures
      var r := Expire(h, now, cleanups);
      r.cleanups == MAX_POLL_WATERMARK_CLEANUPS || NoneExpired(r.host.marks, now)
    decreases |h.order|
  {
    hide LiveOk, FreeOk, IpsOk, ConnsOk, OrderOk, MarksOk, ExpiryOrder, NoneExpired, PopMark;
    if cleanups < MAX_POLL_WATERMARK_CLEANUPS {
      if |h.order| == 0 {
        FrontExpiresFirst(h, now, latest);
      } else {
        var (a, g) := h.order[0];
        if a in h.marks && h.marks[a].generation == g && h.marks[a].expiresAt > now {
          FrontExpiresFirst(h, now, latest);
        } else {
          PopMarkValid(h, lim);
          PopExpiry(h, latest);
          PopShrinks(h);
          CleanupIsComplete(PopMark(h), lim, now, cleanups + 1, latest);
        }
      }
    }
  }

  ghost predicate NoneExpired(marks: map<Addr, Watermark>, now: nat) {
    forall a :: a in marks ==> marks[a].expiresAt > now
  }

  lemma PopShrinks(h: HostState)
    requires |h.order| > 0
    ensures |PopMark(h).order| == |h.order| - 1
  {
  }

  lemma FrontExpiresFirst(h: HostState, now: nat, latest: nat)
    requires MarksOk(h.marks, h.order, h.peers.Keys) && ExpiryOrder(h.marks, h.order, latest)
    requires |h.order| > 0 ==> Backed(h.marks, h.order[0]) && h.marks[h.order[0].0].expiresAt > now
    ensures NoneExpired(h.marks, now)
  {
    forall a | a in h.marks ensures h.marks[a].expiresAt > now {
      var i :| 0 <= i < |h.order| && h.order[i] == (a, h.marks[a].generation);
      assert Backed(h.marks, h.order[i]);
    }
  }
}
