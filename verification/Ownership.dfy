/**
  * Transport and sessions together: the fixed-tick loop polls the host, handles the whole batch of events and
  * does its tick work. The theorem is about who owns a session when peer ids are reused.
  */
module Ownership {
  import opened Options
  import opened Wire
  import opened Transport
  import opened TransportSafety
  import Aoi
  import Fanout
  import Server
  import ServerInvariants
  import ServerRuns

  datatype System = System(host: HostState, server: Server.ServerState)

  /** What the surroundings answer while one event is handled. */
  datatype Answer = Answer(now: int, dbOk: bool, refusedWrite: bool)

  /** One frame of the loop: what the socket holds, what the surroundings answer, and which cadences are due. */
  datatype Frame = Frame(
    queue: seq<Recv>, now: nat, answers: seq<Answer>, moorings: map<nat, Aoi.Mooring>, down: set<nat>,
    refused: set<nat>, clock: Option<nat>, flushDue: bool)

  const FANOUT_SCANS_PER_TICK := Fanout.DEFAULT_MAX_PEERS
  const FANOUT_SENDS_PER_TICK := Fanout.DEFAULT_MAX_PEERS

  function ConnAt(h: HostState, id: nat): (r: Option<Conn>) {
    var a := PeerAddr(h, id);
    if a.Some? then Some(h.peers[a.value].conn) else None
  }

  function AnswerAt(answers: seq<Answer>, i: nat): Answer {
    if i < |answers| then answers[i] else Answer(0, true, false)
  }

  /** One event, handled as the server handles it; a hello may evict a transport peer at once. */
  function HandleEvent(sys: System, cfg: Server.Config, ev: Event, answer: Answer): System
    requires cfg.cellSize > 0.0 && LiveOk(sys.host.peers, sys.host.slots)
  {
    match ev
    case Connected(_, _) => sys
    case Disconnected(id, _, _) => sys.(server := Server.OnDisconnect(sys.server, id, answer.refusedWrite))
    case Data(id, _, message) =>
      match message
      case HelloMsg(hello) =>
        var r := Server.OnHello(sys.server, cfg, id, hello, ConnAt(sys.host, id), answer.now, answer.dbOk);
        System(if r.evicted.Some? then LocalDisconnect(sys.host, r.evicted.value) else sys.host, r.server)
      case StateMsg(position) => sys.(server := Server.OnClientState(sys.server, cfg, id, position, answer.now))
      case ChatMsg(within, bytes) => sys.(server := Server.OnChat(sys.server, cfg, id, within, bytes, answer.now))
      case Undecodable => sys
  }

  // ----- Who owns a session in the middle of a batch

  /** A session belongs to the connection its id denotes, which is live or whose departure is still to be handled. */
  ghost predicate OwnedOk(sessions: map<nat, Server.Session>, h: HostState, owner: Owners, rest: seq<Event>) {
    forall p :: p in sessions ==>
      && p in owner && owner[p] == sessions[p].conn
      && (ConnAt(h, p) == Some(sessions[p].conn) || Departed(rest, p, sessions[p].conn))
  }

  /** Between frames: every session's peer is live, held by the very connection that authenticated it. */
  ghost predicate Boundary(sessions: map<nat, Server.Session>, h: HostState) {
    forall p :: p in sessions ==> ConnAt(h, p) == Some(sessions[p].conn)
  }

  ghost predicate SystemOk(sys: System, cfg: Server.Config, lim: Limits) {
    && lim.maxPeers == cfg.maxPeers
    && Valid(sys.host, lim)
    && ServerInvariants.Inv(sys.server, cfg)
  }

  ghost predicate BatchOk(sys: System, cfg: Server.Config, lim: Limits, owner: Owners, rest: seq<Event>) {
    && SystemOk(sys, cfg, lim)
    && Epoch(sys.host, owner)
    && EventsOwned(rest, owner)
    && OwnedOk(sys.server.sessions, sys.host, owner, rest)
  }

  lemma ConnAtOwned(h: HostState, owner: Owners, id: nat)
    requires OwnsLive(h.peers, owner) && ConnAt(h, id).Some?
    ensures id in owner && owner[id] == ConnAt(h, id).value
  {
  }

  lemma LiveConn(h: HostState, a: Addr)
    requires LiveOk(h.peers, h.slots) && a in h.peers
    ensures ConnAt(h, h.peers[a].id) == Some(h.peers[a].conn)
  {
  }

  lemma DisconnectOthers(h: HostState, id: nat, other: nat)
    requires LiveOk(h.peers, h.slots) && id != other
    ensures ConnAt(LocalDisconnect(h, id), other) == ConnAt(h, other)
  {
    hide DropIp;
  }

  lemma DepartedLater(events: seq<Event>, id: nat, conn: Conn)
    requires events != [] && Departed(events, id, conn) && !(events[0].Disconnected? && events[0].id == id)
    ensures Departed(events[1..], id, conn)
  {
    var i :| 0 <= i < |events| && events[i].Disconnected? && events[i].id == id && events[i].conn == conn;
    assert events[1..][i - 1] == events[i];
  }

  lemma OwnedSkip(sessions: map<nat, Server.Session>, h: HostState, owner: Owners, rest: seq<Event>)
    requires OwnedOk(sessions, h, owner, rest) && rest != [] && !rest[0].Disconnected?
    ensures OwnedOk(sessions, h, owner, rest[1..])
  {
    hide ConnAt, Departed;
    forall p | p in sessions ensures ConnAt(h, p) == Some(sessions[p].conn) || Departed(rest[1..], p, sessions[p].conn) {
      if Departed(rest, p, sessions[p].conn) { DepartedLater(rest, p, sessions[p].conn); }
    }
  }

  lemma OwnedLeave(sessions: map<nat, Server.Session>, h: HostState, owner: Owners, rest: seq<Event>)
    requires OwnedOk(sessions, h, owner, rest) && rest != [] && rest[0].Disconnected?
    ensures OwnedOk(sessions - {rest[0].id}, h, owner, rest[1..])
  {
    hide ConnAt, Departed;
    var s := sessions - {rest[0].id};
    forall p | p in s ensures ConnAt(h, p) == Some(s[p].conn) || Departed(rest[1..], p, s[p].conn) {
      if Departed(rest, p, s[p].conn) { DepartedLater(rest, p, s[p].conn); }
    }
  }

  lemma OwnedFrame(a: map<nat, Server.Session>, b: map<nat, Server.Session>, h: HostState, owner: Owners, rest: seq<Event>)
    requires OwnedOk(a, h, owner, rest) && ServerRuns.SameSessions(a, b)
    ensures OwnedOk(b, h, owner, rest)
  {
    hide ConnAt, Departed;
  }

  /** Seating a player on a live peer, with its old peer disconnected, leaves every session owned. */
  lemma OwnedSeat(before: Server.ServerState, after: Server.ServerState, h: HostState, owner: Owners, rest: seq<Event>,
                  peer: nat, player: nat, identity: Identity, conn: Conn, evicted: Option<nat>)
    requires OwnedOk(before.sessions, h, owner, rest) && LiveOk(h.peers, h.slots) && OwnsLive(h.peers, owner)
    requires ServerInvariants.SeatedOnly(before, after, peer, player, identity, conn)
    requires ConnAt(h, peer) == Some(conn) && evicted == Server.Superseded(before, player, peer)
    ensures OwnedOk(after.sessions, if evicted.Some? then LocalDisconnect(h, evicted.value) else h, owner, rest)
  {
    hide ConnAt, Departed, LocalDisconnect, LiveOk, OwnsLive;
    ConnAtOwned(h, owner, peer);
    var h' := if evicted.Some? then LocalDisconnect(h, evicted.value) else h;
    var s := after.sessions;
    forall p | p in s
      ensures p in owner && owner[p] == s[p].conn && (ConnAt(h', p) == Some(s[p].conn) || Departed(rest, p, s[p].conn))
    {
      if evicted.Some? && p != evicted.value { DisconnectOthers(h, evicted.value, p); }
      if p != peer { assert p in s - {peer}; }
    }
  }

  // ----- One event

  lemma EventHost(sys: System, cfg: Server.Config, lim: Limits, owner: Owners, ev: Event)
    requires Valid(sys.host, lim) && lim.maxPeers == cfg.maxPeers
    requires Epoch(sys.host, owner) && ev.id in owner
    ensures 1 <= ev.id <= cfg.maxPeers
  {
    hide LiveOk, FreeOk, IpsOk, ConnsOk, OrderOk, MarksOk, OwnsLive, PrefixUnused;
  }

  lemma HelloBatch(sys: System, cfg: Server.Config, lim: Limits, owner: Owners, rest: seq<Event>, answer: Answer)
    requires BatchOk(sys, cfg, lim, owner, rest) && rest != [] && rest[0].Data? && rest[0].message.HelloMsg?
    requires cfg.cellSize > 0.0 && LiveOk(sys.host.peers, sys.host.slots)
    ensures BatchOk(HandleEvent(sys, cfg, rest[0], answer), cfg, lim, owner, rest[1..])
  {
    hide LiveOk, FreeOk, IpsOk, ConnsOk, OrderOk, MarksOk, ServerInvariants.Inv, OwnedOk, ConnAt, Server.OnHello, LocalDisconnect,
         CountsOk, OwnsLive, PrefixUnused, OwnersInRange, ServerInvariants.SeatedOnly;
    var ev := rest[0];
    var hello := ev.message.hello;
    var at := ConnAt(sys.host, ev.id);
    EventHost(sys, cfg, lim, owner, ev);
    ServerRuns.HelloInv(sys.server, cfg, ev.id, hello, at, answer.now, answer.dbOk);
    var r := Server.OnHello(sys.server, cfg, ev.id, hello, at, answer.now, answer.dbOk);
    if r.evicted.Some? { DisconnectEpoch(sys.host, lim, owner, r.evicted.value); }
    OwnedSkip(sys.server.sessions, sys.host, owner, rest);
    if !(r.evicted.None? && r.server.sessions == sys.server.sessions) {
      OwnedSeat(sys.server, r.server, sys.host, owner, rest[1..], ev.id, r.server.identities[hello.identity],
                hello.identity, at.value, r.evicted);
    }
  }

  /** Handling one event keeps every session with its owner, for what is left of the batch. */
  lemma EventBatch(sys: System, cfg: Server.Config, lim: Limits, owner: Owners, rest: seq<Event>, answer: Answer)
    requires BatchOk(sys, cfg, lim, owner, rest) && rest != []
    requires cfg.cellSize > 0.0 && LiveOk(sys.host.peers, sys.host.slots)
    ensures BatchOk(HandleEvent(sys, cfg, rest[0], answer), cfg, lim, owner, rest[1..])
  {
    hide LiveOk, Valid, Epoch, ServerInvariants.Inv, OwnedOk, ConnAt, Server.OnHello, Server.OnClientState, Server.OnChat,
         Server.OnDisconnect, LocalDisconnect;
    var ev := rest[0];
    var s := sys.server;
    match ev {
      case Connected(_, _) => OwnedSkip(s.sessions, sys.host, owner, rest);
      case Disconnected(id, _, _) =>
        ServerRuns.DisconnectInv(s, cfg, id, answer.refusedWrite);
        OwnedLeave(s.sessions, sys.host, owner, rest);
      case Data(id, _, message) =>
        if message.HelloMsg? {
          HelloBatch(sys, cfg, lim, owner, rest, answer);
        } else {
          OwnedSkip(s.sessions, sys.host, owner, rest);
          if message.StateMsg? {
            ServerRuns.ClientStateInv(s, cfg, id, message.position, answer.now);
            OwnedFrame(s.sessions, Server.OnClientState(s, cfg, id, message.position, answer.now).sessions, sys.host, owner, rest[1..]);
          } else if message.ChatMsg? {
            ServerRuns.ChatInv(s, cfg, id, message.withinLimit, message.encodedLen, answer.now);
          }
        }
    }
  }

  // ----- The batch

  lemma EventHostValid(sys: System, cfg: Server.Config, lim: Limits, ev: Event, answer: Answer)
    requires Valid(sys.host, lim) && cfg.cellSize > 0.0 && LiveOk(sys.host.peers, sys.host.slots)
    ensures Valid(HandleEvent(sys, cfg, ev, answer).host, lim)
  {
    hide Valid, LiveOk, LocalDisconnect, ConnAt, Server.OnHello, Server.OnClientState, Server.OnChat, Server.OnDisconnect;
    if ev.Data? && ev.message.HelloMsg? {
      var r := Server.OnHello(sys.server, cfg, ev.id, ev.message.hello, ConnAt(sys.host, ev.id), answer.now, answer.dbOk);
      if r.evicted.Some? { LocalDisconnectValid(sys.host, lim, r.evicted.value); }
    }
  }

  lemma LiveOfValid(h: HostState, lim: Limits)
    requires Valid(h, lim)
    ensures LiveOk(h.peers, h.slots)
  {
    hide LiveOk, FreeOk, IpsOk, ConnsOk, OrderOk, MarksOk;
  }

  /** The whole batch, in order. */
  function HandleBatch(sys: System, cfg: Server.Config, lim: Limits, events: seq<Event>, answers: seq<Answer>): System
    requires Valid(sys.host, lim) && cfg.cellSize > 0.0
    decreases |events|
  {
    hide Valid, LiveOk, HandleEvent;
    if events == [] then sys
    else
      LiveOfValid(sys.host, lim);
      EventHostValid(sys, cfg, lim, events[0], AnswerAt(answers, 0));
      HandleBatch(HandleEvent(sys, cfg, events[0], AnswerAt(answers, 0)), cfg, lim, events[1..],
                  if answers == [] then [] else answers[1..])
  }

  /**
    * Each event finds at its peer id, if it finds a session there at all, the session of its own connection; and
    * whatever session is there once it has been handled belongs to the connection that sent it.
    */
  ghost predicate Attributed(sys: System, cfg: Server.Config, lim: Limits, events: seq<Event>, answers: seq<Answer>)
    requires Valid(sys.host, lim) && cfg.cellSize > 0.0
    decreases |events|
  {
    hide Valid, LiveOk, HandleEvent;
    events == [] ||
    (LiveOfValid(sys.host, lim);
     EventHostValid(sys, cfg, lim, events[0], AnswerAt(answers, 0));
     var after := HandleEvent(sys, cfg, events[0], AnswerAt(answers, 0));
     && OwnSession(sys.server.sessions, events[0])
     && OwnSession(after.server.sessions, events[0])
     && Attributed(after, cfg, lim, events[1..], if answers == [] then [] else answers[1..]))
  }

  predicate OwnSession(sessions: map<nat, Server.Session>, ev: Event) {
    ev.id in sessions ==> sessions[ev.id].conn == ev.conn
  }

  lemma ValidOfSystem(sys: System, cfg: Server.Config, lim: Limits)
    requires SystemOk(sys, cfg, lim)
    ensures Valid(sys.host, lim) && cfg.cellSize > 0.0
  {
    hide Valid, ServerInvariants.Core, ServerInvariants.Tracks;
  }

  lemma SessionIsSenders(sessions: map<nat, Server.Session>, h: HostState, owner: Owners, rest: seq<Event>, ev: Event)
    requires OwnedOk(sessions, h, owner, rest) && ev.id in owner && owner[ev.id] == ev.conn
    ensures OwnSession(sessions, ev)
  {
    hide ConnAt, Departed;
  }

  lemma HeadOwned(events: seq<Event>, owner: Owners)
    requires EventsOwned(events, owner) && events != []
    ensures events[0].id in owner && owner[events[0].id] == events[0].conn
  {
  }

  /** A whole batch: every event acts on its own connection's session, and nobody is left without an owner. */
  lemma {:induction false} BatchOwned(sys: System, cfg: Server.Config, lim: Limits, owner: Owners, events: seq<Event>, answers: seq<Answer>)
    requires BatchOk(sys, cfg, lim, owner, events)
    ensures Valid(sys.host, lim) && cfg.cellSize > 0.0
    ensures BatchOk(HandleBatch(sys, cfg, lim, events, answers), cfg, lim, owner, [])
    ensures Attributed(sys, cfg, lim, events, answers)
    decreases |events|
  {
    hide Valid, LiveOk, SystemOk, HandleEvent, OwnedOk, Epoch, EventsOwned, OwnSession;
    ValidOfSystem(sys, cfg, lim);
    if events != [] {
      LiveOfValid(sys.host, lim);
      HeadOwned(events, owner);
      SessionIsSenders(sys.server.sessions, sys.host, owner, events, events[0]);
      EventBatch(sys, cfg, lim, owner, events, AnswerAt(answers, 0));
      var after := HandleEvent(sys, cfg, events[0], AnswerAt(answers, 0));
      SessionIsSenders(after.server.sessions, after.host, owner, events[1..], events[0]);
      BatchOwned(after, cfg, lim, owner, events[1..], if answers == [] then [] else answers[1..]);
    }
  }

  // ----- A frame

  function TickOps(frame: Frame): seq<ServerRuns.Op> {
    [ServerRuns.AoiOp(frame.moorings, frame.down), ServerRuns.SnapOp,
     ServerRuns.FanOp(FANOUT_SCANS_PER_TICK, FANOUT_SENDS_PER_TICK), ServerRuns.FlushOp(frame.refused)]
    + (if frame.clock.Some? then [ServerRuns.ClockOp(frame.clock.value)] else [])
    + (if frame.flushDue then [ServerRuns.CadenceOp] else [])
  }

  predicate IsTick(op: ServerRuns.Op) {
    op.AoiOp? || op.SnapOp? || op.FanOp? || op.FlushOp? || op.ClockOp? || op.CadenceOp?
  }

  lemma TickOpsAreTicks(frame: Frame, cfg: Server.Config)
    ensures forall i :: 0 <= i < |TickOps(frame)| ==> IsTick(TickOps(frame)[i])
    ensures ServerRuns.OpsOk(TickOps(frame), cfg)
  {
  }

  /** Tick work never changes who holds a session. */
  lemma {:induction false} TicksKeepSessions(s: Server.ServerState, cfg: Server.Config, ops: seq<ServerRuns.Op>)
    requires ServerInvariants.Inv(s, cfg) && ServerRuns.OpsOk(ops, cfg)
    requires forall i :: 0 <= i < |ops| ==> IsTick(ops[i])
    ensures ServerRuns.SameSessions(s.sessions, ServerRuns.Run(s, cfg, ops).sessions)
    decreases |ops|
  {
    hide ServerInvariants.Inv, ServerRuns.OpsOk, ServerRuns.Step;
    if ops != [] {
      ServerRuns.OpsTail(ops, cfg);
      ServerRuns.StepInv(s, cfg, ops[0]);
      ServerRuns.TickInv(s, cfg, ops[0]);
      var s1 := ServerRuns.Step(s, cfg, ops[0]);
      TicksKeepSessions(s1, cfg, ops[1..]);
      ServerRuns.SameSessionsThen(s.sessions, s1.sessions, ServerRuns.Run(s1, cfg, ops[1..]).sessions);
    }
  }

  /** When a poll returns, every session is owned for the batch it reported. */
  lemma PollOpensBatch(sys: System, cfg: Server.Config, lim: Limits, queue: seq<Recv>, now: nat) returns (owner: Owners)
    requires SystemOk(sys, cfg, lim) && Boundary(sys.server.sessions, sys.host)
    ensures Valid(sys.host, lim)
    ensures
      var r := Poll(sys.host, lim, queue, now);
      BatchOk(System(r.host, sys.server), cfg, lim, owner, r.events)
  {
    hide LiveOk, FreeOk, IpsOk, ConnsOk, OrderOk, MarksOk, CountsOk, Poll, OwnsLive, PrefixUnused, OwnersInRange,
         ServerInvariants.Inv, ConnAt, LiveOwners, EventsOwned, OwnedOk, Extends, Announced;
    PollValid(sys.host, lim, queue, now);
    owner := PollEpochal(sys.host, lim, queue, now);
    var r := Poll(sys.host, lim, queue, now);
    PollOwned(sys.server.sessions, sys.host, r.host, owner, r.events);
  }

  lemma PollOwned(sessions: map<nat, Server.Session>, h: HostState, r: HostState, owner: Owners, events: seq<Event>)
    requires Boundary(sessions, h) && LiveOk(h.peers, h.slots) && LiveOk(r.peers, r.slots)
    requires Extends(LiveOwners(h.slots, h.peers), owner) && Announced(h.peers, r.peers, events)
    ensures OwnedOk(sessions, r, owner, events)
  {
    hide Departed, ConnAt, LiveOk, LiveOwners;
    forall p | p in sessions
      ensures p in owner && owner[p] == sessions[p].conn
      ensures ConnAt(r, p) == Some(sessions[p].conn) || Departed(events, p, sessions[p].conn)
    {
      var a := ConnAtAddr(h, p);
      LiveOwnersAt(h, a);
      if a in r.peers { LiveConn(r, a); }
    }
  }

  lemma ConnAtAddr(h: HostState, id: nat) returns (a: Addr)
    requires ConnAt(h, id).Some?
    ensures a in h.peers && h.peers[a].id == id && Some(h.peers[a].conn) == ConnAt(h, id)
  {
    a := PeerAddr(h, id).value;
  }

  lemma LiveOwnersAt(h: HostState, a: Addr)
    requires LiveOk(h.peers, h.slots) && a in h.peers
    ensures
      var owner := LiveOwners(h.slots, h.peers);
      h.peers[a].id in owner && owner[h.peers[a].id] == h.peers[a].conn
  {
    assert IsLive(h.slots, h.peers[a].id);
  }

  lemma BatchCloses(sys: System, cfg: Server.Config, lim: Limits, owner: Owners)
    requires BatchOk(sys, cfg, lim, owner, [])
    ensures SystemOk(sys, cfg, lim) && Boundary(sys.server.sessions, sys.host)
  {
    hide SystemOk, Epoch, ConnAt;
    assert forall p, c :: !Departed([], p, c);
  }

  lemma FramePoll(sys: System, cfg: Server.Config, lim: Limits, frame: Frame)
    requires SystemOk(sys, cfg, lim) && Boundary(sys.server.sessions, sys.host)
    ensures Valid(sys.host, lim) && cfg.cellSize > 0.0
    ensures
      var r := Poll(sys.host, lim, frame.queue, frame.now);
      && Valid(r.host, lim)
      && Attributed(System(r.host, sys.server), cfg, lim, r.events, frame.answers)
      && SystemOk(HandleBatch(System(r.host, sys.server), cfg, lim, r.events, frame.answers), cfg, lim)
      && (var b := HandleBatch(System(r.host, sys.server), cfg, lim, r.events, frame.answers);
          Boundary(b.server.sessions, b.host))
  {
    hide Valid, SystemOk, BatchOk, Poll, HandleBatch, Attributed, Boundary;
    ValidOfSystem(sys, cfg, lim);
    var owner := PollOpensBatch(sys, cfg, lim, frame.queue, frame.now);
    var r := Poll(sys.host, lim, frame.queue, frame.now);
    BatchOwned(System(r.host, sys.server), cfg, lim, owner, r.events, frame.answers);
    BatchCloses(HandleBatch(System(r.host, sys.server), cfg, lim, r.events, frame.answers), cfg, lim, owner);
  }

  /** One frame of the loop: poll, handle the whole batch, then the tick work. */
  function FrameStep(sys: System, cfg: Server.Config, lim: Limits, frame: Frame): System
    requires SystemOk(sys, cfg, lim) && Boundary(sys.server.sessions, sys.host)
  {
    hide Valid, SystemOk, Boundary, TickOps, ServerInvariants.Inv, ServerRuns.OpsOk;
    FramePoll(sys, cfg, lim, frame);
    var r := Poll(sys.host, lim, frame.queue, frame.now);
    var b := HandleBatch(System(r.host, sys.server), cfg, lim, r.events, frame.answers);
    TickOpsAreTicks(frame, cfg);
    InvOfSystem(b, cfg, lim);
    b.(server := ServerRuns.Run(b.server, cfg, TickOps(frame)))
  }

  lemma InvOfSystem(sys: System, cfg: Server.Config, lim: Limits)
    requires SystemOk(sys, cfg, lim)
    ensures ServerInvariants.Inv(sys.server, cfg)
  {
    hide Valid, ServerInvariants.Inv;
  }

  lemma SystemWith(sys: System, cfg: Server.Config, lim: Limits, server: Server.ServerState)
    requires SystemOk(sys, cfg, lim) && ServerInvariants.Inv(server, cfg)
    ensures SystemOk(sys.(server := server), cfg, lim)
  {
    hide Valid, ServerInvariants.Inv;
  }

  lemma BoundaryFrame(a: map<nat, Server.Session>, b: map<nat, Server.Session>, h: HostState)
    requires Boundary(a, h) && ServerRuns.SameSessions(a, b)
    ensures Boundary(b, h)
  {
    hide ConnAt;
  }

  lemma FrameOwned(sys: System, cfg: Server.Config, lim: Limits, frame: Frame)
    requires SystemOk(sys, cfg, lim) && Boundary(sys.server.sessions, sys.host)
    ensures
      var r := FrameStep(sys, cfg, lim, frame);
      SystemOk(r, cfg, lim) && Boundary(r.server.sessions, r.host)
  {
    hide Valid, SystemOk, Boundary, Poll, HandleBatch, TickOps, ServerRuns.Run, ServerInvariants.Inv, ServerRuns.OpsOk, IsTick,
         Attributed, ServerRuns.SameSessions;
    FramePoll(sys, cfg, lim, frame);
    var r := Poll(sys.host, lim, frame.queue, frame.now);
    var b := HandleBatch(System(r.host, sys.server), cfg, lim, r.events, frame.answers);
    TickOpsAreTicks(frame, cfg);
    InvOfSystem(b, cfg, lim);
    ServerRuns.RunInv(b.server, cfg, TickOps(frame));
    TicksKeepSessions(b.server, cfg, TickOps(frame));
    var s := ServerRuns.Run(b.server, cfg, TickOps(frame));
    SystemWith(b, cfg, lim, s);
    BoundaryFrame(b.server.sessions, s.sessions, b.host);
  }

  function RunFrames(sys: System, cfg: Server.Config, lim: Limits, frames: seq<Frame>): System
    requires SystemOk(sys, cfg, lim) && Boundary(sys.server.sessions, sys.host)
    decreases |frames|
  {
    hide SystemOk, Boundary, FrameStep;
    if frames == [] then sys
    else
      FrameOwned(sys, cfg, lim, frames[0]);
      RunFrames(FrameStep(sys, cfg, lim, frames[0]), cfg, lim, frames[1..])
  }

  /**
    * Cross-layer ownership, over every run of the loop and everything a network can deliver: at each poll
    * boundary every session's peer is live and is held by the very connection that authenticated the session;
    * and in the next frame, evictions in the middle of the batch included, no event ever finds or leaves at
    * its peer id a session of another connection, so a hello seats only the connection that sent it.
    */
  lemma {:induction false} SessionsStayWithTheirConnection(sys: System, cfg: Server.Config, lim: Limits, frames: seq<Frame>, next: Frame)
    requires SystemOk(sys, cfg, lim) && Boundary(sys.server.sessions, sys.host)
    ensures
      var r := RunFrames(sys, cfg, lim, frames);
      && SystemOk(r, cfg, lim) && Boundary(r.server.sessions, r.host)
      && Valid(r.host, lim) && cfg.cellSize > 0.0
      && (var p := Poll(r.host, lim, next.queue, next.now);
          Valid(p.host, lim) && Attributed(System(p.host, r.server), cfg, lim, p.events, next.answers))
    decreases |frames|
  {
    hide Valid, SystemOk, Boundary, FrameStep, Poll, Attributed;
    if frames == [] {
      FramePoll(sys, cfg, lim, next);
    } else {
      FrameOwned(sys, cfg, lim, frames[0]);
      SessionsStayWithTheirConnection(FrameStep(sys, cfg, lim, frames[0]), cfg, lim, frames[1..], next);
    }
  }

  /** The state the loop starts in satisfies what the theorem asks. */
  lemma StartOk(cfg: Server.Config, lim: Limits, db: Server.Db)
    requires ServerInvariants.ConfigOk(cfg) && LimitsOk(lim) && lim.maxPeers == cfg.maxPeers
    requires ServerInvariants.IdentitiesOk(db.players, db)
    ensures
      var sys := System(EMPTY_HOST, ServerInvariants.Boot(db));
      SystemOk(sys, cfg, lim) && Boundary(sys.server.sessions, sys.host)
  {
    hide Valid, ServerInvariants.Inv;
    EmptyHostValid(lim);
    ServerInvariants.BootInv(cfg, db);
  }
}
