/**
  * The loop over host and server is, for the server, a run of its operations and, for the host, a run of polls and local
  * disconnects; so everything proved of those runs holds of the loop.
  */
module LoopRuns {
  import opened Options
  import opened Wire
  import opened Transport
  import opened TransportSafety
  import opened TransportFairness
  import Fanout
  import Server
  import ServerInvariants
  import ServerRuns
  import opened Ownership

  /** The operation an event asks for: a departure, a message, or nothing. */
  function EventOps(h: HostState, ev: Event, answer: Answer): seq<ServerRuns.Op> {
    match ev
    case Connected(_, _) => []
    case Disconnected(id, _, _) => [ServerRuns.LeaveOp(id, answer.refusedWrite)]
    case Data(id, _, message) =>
      match message
      case HelloMsg(hello) => [ServerRuns.HelloOp(id, hello, ConnAt(h, id), answer.now, answer.dbOk)]
      case StateMsg(position) => [ServerRuns.StateOp(id, position, answer.now)]
      case ChatMsg(within, bytes) => [ServerRuns.ChatOp(id, within, bytes, answer.now)]
      case Undecodable => []
  }

  /** Whom handling an event disconnects: the peer that its hello superseded. */
  function EventEvicts(sys: System, cfg: Server.Config, ev: Event, answer: Answer): seq<nat>
    requires cfg.cellSize > 0.0
  {
    if ev.Data? && ev.message.HelloMsg? then
      var r := Server.OnHello(sys.server, cfg, ev.id, ev.message.hello, ConnAt(sys.host, ev.id), answer.now, answer.dbOk);
      if r.evicted.Some? then [r.evicted.value] else []
    else []
  }

  function Later(answers: seq<Answer>): seq<Answer> {
    if answers == [] then [] else answers[1..]
  }

  function BatchOps(sys: System, cfg: Server.Config, lim: Limits, events: seq<Event>, answers: seq<Answer>): seq<ServerRuns.Op>
    requires Valid(sys.host, lim) && cfg.cellSize > 0.0
    decreases |events|
  {
    hide Valid, LiveOk, HandleEvent;
    if events == [] then []
    else
      LiveOfValid(sys.host, lim);
      EventHostValid(sys, cfg, lim, events[0], AnswerAt(answers, 0));
      EventOps(sys.host, events[0], AnswerAt(answers, 0))
      + BatchOps(HandleEvent(sys, cfg, events[0], AnswerAt(answers, 0)), cfg, lim, events[1..], Later(answers))
  }

  function BatchEvicts(sys: System, cfg: Server.Config, lim: Limits, events: seq<Event>, answers: seq<Answer>): seq<nat>
    requires Valid(sys.host, lim) && cfg.cellSize > 0.0
    decreases |events|
  {
    hide Valid, LiveOk, HandleEvent;
    if events == [] then []
    else
      LiveOfValid(sys.host, lim);
      EventHostValid(sys, cfg, lim, events[0], AnswerAt(answers, 0));
      EventEvicts(sys, cfg, events[0], AnswerAt(answers, 0))
      + BatchEvicts(HandleEvent(sys, cfg, events[0], AnswerAt(answers, 0)), cfg, lim, events[1..], Later(answers))
  }

  // ----- One event

  lemma NoOps(s: Server.ServerState, cfg: Server.Config)
    requires ServerInvariants.Inv(s, cfg)
    ensures ServerRuns.OpsOk([], cfg) && ServerRuns.Run(s, cfg, []) == s
  {
    hide ServerInvariants.Inv;
  }

  lemma OneOp(s: Server.ServerState, cfg: Server.Config, op: ServerRuns.Op)
    requires ServerInvariants.Inv(s, cfg) && ServerRuns.OpOk(op, cfg)
    ensures Fanout.FanOk(s.fan) && cfg.cellSize > 0.0 && ServerRuns.OpsOk([op], cfg)
    ensures ServerRuns.Run(s, cfg, [op]) == ServerRuns.Step(s, cfg, op)
  {
    hide ServerInvariants.Inv, ServerRuns.Step, Fanout.FanOk, ServerRuns.OpOk;
    assert [op][1..] == [];
    ServerRuns.StepInv(s, cfg, op);
  }

  lemma EventIsRun(sys: System, cfg: Server.Config, lim: Limits, ev: Event, answer: Answer)
    requires SystemOk(sys, cfg, lim) && LiveOk(sys.host.peers, sys.host.slots) && cfg.cellSize > 0.0 && 1 <= ev.id <= cfg.maxPeers
    ensures ServerInvariants.Inv(sys.server, cfg) && ServerRuns.OpsOk(EventOps(sys.host, ev, answer), cfg)
    ensures HandleEvent(sys, cfg, ev, answer).server == ServerRuns.Run(sys.server, cfg, EventOps(sys.host, ev, answer))
  {
    hide Valid, LiveOk, ServerInvariants.Inv, Server.OnHello, Server.OnClientState, Server.OnChat, Server.OnDisconnect, LocalDisconnect,
         ConnAt, ServerRuns.Run, ServerRuns.OpsOk, Fanout.FanOk;
    NoOps(sys.server, cfg);
    var ops := EventOps(sys.host, ev, answer);
    if ops != [] { OneOp(sys.server, cfg, ops[0]); }
  }

  lemma EventDisconnects(sys: System, cfg: Server.Config, lim: Limits, ev: Event, answer: Answer)
    requires Valid(sys.host, lim) && LiveOk(sys.host.peers, sys.host.slots) && cfg.cellSize > 0.0
    ensures HandleEvent(sys, cfg, ev, answer).host == Disconnects(sys.host, lim, EventEvicts(sys, cfg, ev, answer))
  {
    hide Valid, LiveOk, Server.OnHello, Server.OnClientState, Server.OnChat, Server.OnDisconnect, LocalDisconnect, ConnAt;
    if ev.Data? && ev.message.HelloMsg? {
      var r := Server.OnHello(sys.server, cfg, ev.id, ev.message.hello, ConnAt(sys.host, ev.id), answer.now, answer.dbOk);
      if r.evicted.Some? {
        LocalDisconnectValid(sys.host, lim, r.evicted.value);
        assert [r.evicted.value][1..] == [];
      }
    }
  }

  lemma {:induction false} DisconnectsThen(h: HostState, lim: Limits, xs: seq<nat>, ys: seq<nat>)
    requires Valid(h, lim)
    ensures Valid(Disconnects(h, lim, xs), lim) && Disconnects(h, lim, xs + ys) == Disconnects(Disconnects(h, lim, xs), lim, ys)
    decreases |xs|
  {
    hide Valid, LocalDisconnect;
    if xs == [] {
      assert xs + ys == ys;
    } else {
      LocalLive(h, lim, xs[0]);
      assert (xs + ys)[0] == xs[0] && (xs + ys)[1..] == xs[1..] + ys;
      DisconnectsThen(LocalDisconnect(h, xs[0]), lim, xs[1..], ys);
    }
  }

  lemma LocalLive(h: HostState, lim: Limits, id: nat)
    requires Valid(h, lim)
    ensures LiveOk(h.peers, h.slots) && Valid(LocalDisconnect(h, id), lim)
  {
    hide FreeOk, IpsOk, ConnsOk, OrderOk, MarksOk, LocalDisconnect, LiveOk;
    LocalDisconnectValid(h, lim, id);
  }

  // ----- A batch

  lemma BatchFacts(sys: System, cfg: Server.Config, lim: Limits, owner: Owners, events: seq<Event>)
    requires BatchOk(sys, cfg, lim, owner, events)
    ensures SystemOk(sys, cfg, lim) && Valid(sys.host, lim) && cfg.cellSize > 0.0 && ServerInvariants.Inv(sys.server, cfg)
    ensures LiveOk(sys.host.peers, sys.host.slots)
    ensures events != [] ==> 1 <= events[0].id <= cfg.maxPeers
  {
    hide LiveOk, Valid, ServerInvariants.Inv, OwnedOk, Epoch, EventsOwned;
    ValidOfSystem(sys, cfg, lim);
    LiveOfValid(sys.host, lim);
    if events != [] {
      HeadOwned(events, owner);
      EventHost(sys, cfg, lim, owner, events[0]);
    }
  }

  /** A batch is, for the server, a run of the operations its events ask for, and for the host, a run of disconnects. */
  lemma {:induction false} BatchIsRun(sys: System, cfg: Server.Config, lim: Limits, owner: Owners, events: seq<Event>, answers: seq<Answer>)
    requires BatchOk(sys, cfg, lim, owner, events)
    ensures Valid(sys.host, lim) && cfg.cellSize > 0.0 && ServerInvariants.Inv(sys.server, cfg)
    ensures ServerRuns.OpsOk(BatchOps(sys, cfg, lim, events, answers), cfg)
    ensures
      var r := HandleBatch(sys, cfg, lim, events, answers);
      && r.server == ServerRuns.Run(sys.server, cfg, BatchOps(sys, cfg, lim, events, answers))
      && r.host == Disconnects(sys.host, lim, BatchEvicts(sys, cfg, lim, events, answers))
    decreases |events|
  {
    hide Valid, LiveOk, SystemOk, HandleEvent, BatchOk, ServerInvariants.Inv, ServerRuns.Run, ServerRuns.OpsOk, EventOps, EventEvicts,
         AnswerAt, Fanout.FanOk;
    BatchFacts(sys, cfg, lim, owner, events);
    if events == [] {
      NoOps(sys.server, cfg);
    } else {
      var answer := AnswerAt(answers, 0);
      EventIsRun(sys, cfg, lim, events[0], answer);
      EventDisconnects(sys, cfg, lim, events[0], answer);
      EventBatch(sys, cfg, lim, owner, events, answer);
      var after := HandleEvent(sys, cfg, events[0], answer);
      BatchIsRun(after, cfg, lim, owner, events[1..], Later(answers));
      ServerRuns.RunThen(sys.server, cfg, EventOps(sys.host, events[0], answer), BatchOps(after, cfg, lim, events[1..], Later(answers)));
      DisconnectsThen(sys.host, lim, EventEvicts(sys, cfg, events[0], answer), BatchEvicts(after, cfg, lim, events[1..], Later(answers)));
    }
  }

  // ----- A frame, and the loop

  /** The frame to the server: the batch's operations, then the tick's. */
  function FrameOps(sys: System, cfg: Server.Config, lim: Limits, frame: Frame): seq<ServerRuns.Op>
    requires Valid(sys.host, lim) && cfg.cellSize > 0.0
  {
    hide Valid, Poll;
    PollValid(sys.host, lim, frame.queue, frame.now);
    var r := Poll(sys.host, lim, frame.queue, frame.now);
    BatchOps(System(r.host, sys.server), cfg, lim, r.events, frame.answers) + TickOps(frame)
  }

  /** The frame to the host: its poll, then the disconnects of its batch. */
  function FrameRound(sys: System, cfg: Server.Config, lim: Limits, frame: Frame): Round
    requires Valid(sys.host, lim) && cfg.cellSize > 0.0
  {
    hide Valid, Poll;
    PollValid(sys.host, lim, frame.queue, frame.now);
    var r := Poll(sys.host, lim, frame.queue, frame.now);
    Round(frame.queue, frame.now, BatchEvicts(System(r.host, sys.server), cfg, lim, r.events, frame.answers))
  }

  lemma FrameIsRun(sys: System, cfg: Server.Config, lim: Limits, frame: Frame)
    requires SystemOk(sys, cfg, lim) && Boundary(sys.server.sessions, sys.host)
    ensures Valid(sys.host, lim) && cfg.cellSize > 0.0 && ServerInvariants.Inv(sys.server, cfg)
    ensures ServerRuns.OpsOk(FrameOps(sys, cfg, lim, frame), cfg)
    ensures
      var r := FrameStep(sys, cfg, lim, frame);
      && r.server == ServerRuns.Run(sys.server, cfg, FrameOps(sys, cfg, lim, frame))
      && r.host == AfterRound(sys.host, lim, FrameRound(sys, cfg, lim, frame))
  {
    hide Valid, SystemOk, Boundary, Poll, HandleBatch, TickOps, ServerRuns.Run, ServerInvariants.Inv, ServerRuns.OpsOk, IsTick,
         Attributed, BatchOk, BatchOps, BatchEvicts, Disconnects;
    ValidOfSystem(sys, cfg, lim);
    InvOfSystem(sys, cfg, lim);
    FramePoll(sys, cfg, lim, frame);
    var owner := PollOpensBatch(sys, cfg, lim, frame.queue, frame.now);
    var r := Poll(sys.host, lim, frame.queue, frame.now);
    var polled := System(r.host, sys.server);
    BatchIsRun(polled, cfg, lim, owner, r.events, frame.answers);
    TickOpsAreTicks(frame, cfg);
    ServerRuns.RunThen(sys.server, cfg, BatchOps(polled, cfg, lim, r.events, frame.answers), TickOps(frame));
  }

  function LoopOps(sys: System, cfg: Server.Config, lim: Limits, frames: seq<Frame>): seq<ServerRuns.Op>
    requires SystemOk(sys, cfg, lim) && Boundary(sys.server.sessions, sys.host)
    decreases |frames|
  {
    hide Valid, SystemOk, Boundary, FrameStep, FrameOps;
    if frames == [] then []
    else
      ValidOfSystem(sys, cfg, lim);
      FrameOwned(sys, cfg, lim, frames[0]);
      FrameOps(sys, cfg, lim, frames[0]) + LoopOps(FrameStep(sys, cfg, lim, frames[0]), cfg, lim, frames[1..])
  }

  function LoopRounds(sys: System, cfg: Server.Config, lim: Limits, frames: seq<Frame>): seq<Round>
    requires SystemOk(sys, cfg, lim) && Boundary(sys.server.sessions, sys.host)
    decreases |frames|
  {
    hide Valid, SystemOk, Boundary, FrameStep, FrameRound;
    if frames == [] then []
    else
      ValidOfSystem(sys, cfg, lim);
      FrameOwned(sys, cfg, lim, frames[0]);
      [FrameRound(sys, cfg, lim, frames[0])] + LoopRounds(FrameStep(sys, cfg, lim, frames[0]), cfg, lim, frames[1..])
  }

  /**
    * Every run of the loop is a run of the server's operations, in the order of the events and then of the tick, and a run
    * of the host's polls, each followed by the disconnects its batch led to.
    */
  lemma {:induction false} LoopIsRuns(sys: System, cfg: Server.Config, lim: Limits, frames: seq<Frame>)
    requires SystemOk(sys, cfg, lim) && Boundary(sys.server.sessions, sys.host)
    ensures Valid(sys.host, lim) && ServerInvariants.Inv(sys.server, cfg)
    ensures ServerRuns.OpsOk(LoopOps(sys, cfg, lim, frames), cfg)
    ensures
      var r := RunFrames(sys, cfg, lim, frames);
      && r.server == ServerRuns.Run(sys.server, cfg, LoopOps(sys, cfg, lim, frames))
      && r.host == AfterRounds(sys.host, lim, LoopRounds(sys, cfg, lim, frames))
    decreases |frames|
  {
    hide Valid, SystemOk, Boundary, FrameStep, FrameOps, FrameRound, ServerRuns.Run, ServerInvariants.Inv, ServerRuns.OpsOk, AfterRound;
    ValidOfSystem(sys, cfg, lim);
    InvOfSystem(sys, cfg, lim);
    if frames == [] {
      NoOps(sys.server, cfg);
    } else {
      FrameIsRun(sys, cfg, lim, frames[0]);
      FrameOwned(sys, cfg, lim, frames[0]);
      var next := FrameStep(sys, cfg, lim, frames[0]);
      LoopIsRuns(next, cfg, lim, frames[1..]);
      ServerRuns.RunThen(sys.server, cfg, FrameOps(sys, cfg, lim, frames[0]), LoopOps(next, cfg, lim, frames[1..]));
      var rounds := LoopRounds(sys, cfg, lim, frames);
      assert rounds[0] == FrameRound(sys, cfg, lim, frames[0]) && rounds[1..] == LoopRounds(next, cfg, lim, frames[1..]);
    }
  }

  // ----- The pace of the loop

  /** The kinds of tick work. */
  datatype Work = Delivery | Broadcasting | Fanning | Flushing | Clocking | Queueing

  predicate Is(op: ServerRuns.Op, work: Work) {
    match work
    case Delivery => op.AoiOp?
    case Broadcasting => op.SnapOp?
    case Fanning => op == ServerRuns.FanOp(FANOUT_SCANS_PER_TICK, FANOUT_SENDS_PER_TICK)
    case Flushing => op.FlushOp?
    case Clocking => op.ClockOp?
    case Queueing => op.CadenceOp?
  }

  function Count(ops: seq<ServerRuns.Op>, work: Work): nat {
    if ops == [] then 0 else (if Is(ops[0], work) then 1 else 0) + Count(ops[1..], work)
  }

  lemma {:induction false} CountConcat(xs: seq<ServerRuns.Op>, ys: seq<ServerRuns.Op>, work: Work)
    ensures Count(xs + ys, work) == Count(xs, work) + Count(ys, work)
  {
    if xs == [] {
      assert xs + ys == ys;
    } else {
      assert (xs + ys)[1..] == xs[1..] + ys;
      CountConcat(xs[1..], ys, work);
    }
  }

  lemma CountOne(op: ServerRuns.Op, work: Work)
    ensures Count([op], work) == if Is(op, work) then 1 else 0
  {
    assert [op][1..] == [];
  }

  lemma {:induction false} BatchDoesNoTicks(sys: System, cfg: Server.Config, lim: Limits, events: seq<Event>, answers: seq<Answer>, work: Work)
    requires Valid(sys.host, lim) && cfg.cellSize > 0.0
    ensures Count(BatchOps(sys, cfg, lim, events, answers), work) == 0
    decreases |events|
  {
    hide Valid, LiveOk, HandleEvent, ConnAt;
    if events != [] {
      LiveOfValid(sys.host, lim);
      var answer := AnswerAt(answers, 0);
      EventHostValid(sys, cfg, lim, events[0], answer);
      var first := EventOps(sys.host, events[0], answer);
      if first != [] { CountOne(first[0], work); }
      BatchDoesNoTicks(HandleEvent(sys, cfg, events[0], answer), cfg, lim, events[1..], Later(answers), work);
      CountConcat(first, BatchOps(HandleEvent(sys, cfg, events[0], answer), cfg, lim, events[1..], Later(answers)), work);
    }
  }

  /** How often a frame does a kind of work: once, but a clock and a cadence only when due. */
  function Due(frame: Frame, work: Work): nat {
    match work
    case Clocking => if frame.clock.Some? then 1 else 0
    case Queueing => if frame.flushDue then 1 else 0
    case _ => 1
  }

  lemma TickWork(frame: Frame, work: Work)
    ensures Count(TickOps(frame), work) == Due(frame, work)
  {
    var always := [ServerRuns.AoiOp(frame.moorings, frame.down), ServerRuns.SnapOp,
                   ServerRuns.FanOp(FANOUT_SCANS_PER_TICK, FANOUT_SENDS_PER_TICK), ServerRuns.FlushOp(frame.refused)];
    var clock := if frame.clock.Some? then [ServerRuns.ClockOp(frame.clock.value)] else [];
    var cadence := if frame.flushDue then [ServerRuns.CadenceOp] else [];
    CountConcat(always + clock, cadence, work);
    CountConcat(always, clock, work);
    assert always == [always[0]] + ([always[1]] + ([always[2]] + [always[3]]));
    CountConcat([always[0]], [always[1]] + ([always[2]] + [always[3]]), work);
    CountConcat([always[1]], [always[2]] + [always[3]], work);
    CountConcat([always[2]], [always[3]], work);
    CountOne(always[0], work);
    CountOne(always[1], work);
    CountOne(always[2], work);
    CountOne(always[3], work);
    if clock != [] { CountOne(clock[0], work); }
    if cadence != [] { CountOne(cadence[0], work); }
  }

  function TotalDue(frames: seq<Frame>, work: Work): nat {
    if frames == [] then 0 else Due(frames[0], work) + TotalDue(frames[1..], work)
  }

  /** Over every run of the loop, each kind of tick work is done once a frame, a clock and a cadence whenever due. */
  lemma {:induction false} EveryFrameTicks(sys: System, cfg: Server.Config, lim: Limits, frames: seq<Frame>, work: Work)
    requires SystemOk(sys, cfg, lim) && Boundary(sys.server.sessions, sys.host)
    ensures Count(LoopOps(sys, cfg, lim, frames), work) == TotalDue(frames, work)
    decreases |frames|
  {
    hide Valid, SystemOk, Boundary, FrameStep, Count, TickOps, Poll, BatchOps;
    if frames == [] {
      NothingCounts(work);
    } else {
      ValidOfSystem(sys, cfg, lim);
      FrameOwned(sys, cfg, lim, frames[0]);
      var next := FrameStep(sys, cfg, lim, frames[0]);
      PollValid(sys.host, lim, frames[0].queue, frames[0].now);
      var r := Poll(sys.host, lim, frames[0].queue, frames[0].now);
      var batch := BatchOps(System(r.host, sys.server), cfg, lim, r.events, frames[0].answers);
      BatchDoesNoTicks(System(r.host, sys.server), cfg, lim, r.events, frames[0].answers, work);
      TickWork(frames[0], work);
      CountConcat(batch, TickOps(frames[0]), work);
      EveryFrameTicks(next, cfg, lim, frames[1..], work);
      CountConcat(FrameOps(sys, cfg, lim, frames[0]), LoopOps(next, cfg, lim, frames[1..]), work);
    }
  }

  lemma NothingCounts(work: Work)
    ensures Count([], work) == 0
  {
  }
}
