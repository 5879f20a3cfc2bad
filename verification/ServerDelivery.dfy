/**
  * Delivery over runs of the server's operations: it finishes once the world stands still, every client's mirror is
  * what its session published, and every session's delivery is a run of its own, whose cells are hydrated completely.
  */
module ServerDelivery {
  import opened Options
  import opened OrderedSets
  import opened World
  import Aoi
  import Fanout
  import DirtyFlush
  import opened Server
  import opened ServerInvariants
  import opened ServerRuns
  import opened ServerFrames

  // ----- Delivery finishes

  ghost function Cost(sessions: map<nat, Session>, p: nat, env: Aoi.Env): nat {
    if p in sessions then Aoi.Rank(sessions[p].aoi, env) + 1 else 1
  }

  /** A bound on the visits that all scheduled sessions together still need. */
  ghost function Burden(sessions: map<nat, Session>, waiting: set<nat>, env: Aoi.Env): nat
    decreases |waiting|
  {
    if waiting == {} then 0
    else var p := Least(waiting); Cost(sessions, p, env) + Burden(sessions, waiting - {p}, env)
  }

  lemma {:induction false} BurdenSplit(sessions: map<nat, Session>, waiting: set<nat>, env: Aoi.Env, p: nat)
    requires p in waiting
    ensures Burden(sessions, waiting, env) == Cost(sessions, p, env) + Burden(sessions, waiting - {p}, env)
    decreases |waiting|
  {
    hide Cost;
    var q := Least(waiting);
    if p != q {
      BurdenSplit(sessions, waiting - {q}, env, p);
      BurdenSplit(sessions, waiting - {p}, env, q);
      assert waiting - {q} - {p} == waiting - {p} - {q};
    }
  }

  lemma {:induction false} BurdenFrame(a: map<nat, Session>, b: map<nat, Session>, waiting: set<nat>, env: Aoi.Env)
    requires forall p :: p in waiting ==> (p in a <==> p in b) && (p in a ==> a[p].aoi == b[p].aoi)
    ensures Burden(a, waiting, env) == Burden(b, waiting, env)
    decreases |waiting|
  {
    hide Aoi.Rank;
    if waiting != {} { BurdenFrame(a, b, waiting - {Least(waiting)}, env); }
  }

  /** A visit takes at least one from the burden, and leaves everyone else's part alone. */
  lemma VisitLightens(s: ServerState, cfg: Config, peer: nat, env: Aoi.Env)
    requires Inv(s, cfg) && peer in s.aoiRecipients && peer in s.sessions && env.dbOk
    ensures
      var r := AoiVisit(s, peer, env);
      && Burden(r.sessions, r.aoiRecipients, env) < Burden(s.sessions, s.aoiRecipients, env)
      && s.aoiRecipients - {peer} <= r.aoiRecipients
  {
    hide Inv, Burden, Aoi.Visit, Aoi.Rank, Aoi.AoiOk, Aoi.HasWork, Aoi.Mirror;
    var a := s.sessions[peer].aoi;
    SessionAoi(s, cfg, peer);
    Aoi.VisitOk(a, env);
    if Aoi.HasWork(a) { Aoi.VisitRankFalls(a, env); } else { Aoi.IdleVisit(a, env); }
    var r := AoiVisit(s, peer, env);
    var rest := s.aoiRecipients - {peer};
    BurdenSplit(s.sessions, s.aoiRecipients, env, peer);
    BurdenFrame(s.sessions, r.sessions, rest, env);
    if peer in r.aoiRecipients {
      BurdenSplit(r.sessions, r.aoiRecipients, env, peer);
      assert r.aoiRecipients - {peer} == rest;
    } else {
      assert r.aoiRecipients == rest;
    }
  }

  lemma SessionAoi(s: ServerState, cfg: Config, peer: nat)
    requires Inv(s, cfg) && peer in s.sessions
    ensures Aoi.AoiOk(s.sessions[peer].aoi)
  {
    hide IndexesOk, PlacedOk, GenerationsOk, FanoutOk, IdentitiesOk, AuthenticOk, DirtyFlush.Conserved, LimitersOk, Live,
         Tracks, Aoi.AoiOk, Aoi.HasWork;
  }

  lemma WaitingAreSeated(s: ServerState, cfg: Config)
    requires Inv(s, cfg)
    ensures s.aoiRecipients <= s.sessions.Keys
  {
    hide PlacedOk, AwakeOk, GenerationsOk, FanoutOk, IdentitiesOk, AuthenticOk, DirtyFlush.Conserved, LimitersOk, Live, Tracks;
  }

  /** Visits see the same world one after the other. */
  lemma VisitKeepsEnv(s: ServerState, peer: nat, env: Aoi.Env, moorings: map<nat, Aoi.Mooring>)
    ensures AoiEnv(AoiVisit(s, peer, env), moorings, true) == AoiEnv(s, moorings, true)
  {
    hide Aoi.Visit;
    assert Whereabouts(AoiVisit(s, peer, env)) == Whereabouts(s);
  }

  lemma {:induction false} VisitsLighten(s: ServerState, cfg: Config, peers: seq<nat>, moorings: map<nat, Aoi.Mooring>)
    requires Inv(s, cfg) && Distinct(peers) && forall p :: p in peers ==> p in s.aoiRecipients
    ensures
      var env := AoiEnv(s, moorings, true);
      var r := AoiVisits(s, peers, moorings, {});
      && Burden(r.sessions, r.aoiRecipients, env) + |peers| <= Burden(s.sessions, s.aoiRecipients, env)
      && AoiEnv(r, moorings, true) == env
    decreases |peers|
  {
    hide Inv, AoiVisit, AoiEnv, Burden;
    if peers != [] {
      var env := AoiEnv(s, moorings, true);
      EnvAnswers(s, moorings);
      WaitingAreSeated(s, cfg);
      VisitLightens(s, cfg, peers[0], env);
      AoiVisitInv(s, cfg, peers[0], env);
      VisitKeepsEnv(s, peers[0], env, moorings);
      assert forall p :: p in peers[1..] ==> p in peers && p != peers[0];
      VisitsLighten(AoiVisit(s, peers[0], env), cfg, peers[1..], moorings);
    }
  }

  lemma EnvAnswers(s: ServerState, moorings: map<nat, Aoi.Mooring>)
    ensures AoiEnv(s, moorings, true).dbOk
  {
  }

  lemma TickLightens(s: ServerState, cfg: Config, moorings: map<nat, Aoi.Mooring>)
    requires Inv(s, cfg)
    ensures
      var env := AoiEnv(s, moorings, true);
      var r := AoiTick(s, moorings, {});
      && AoiEnv(r, moorings, true) == env
      && Burden(r.sessions, r.aoiRecipients, env) + (if s.aoiRecipients == {} then 0 else 1)
         <= Burden(s.sessions, s.aoiRecipients, env)
  {
    hide Inv, AoiVisits, Burden, Whereabouts;
    var peers := After(s.aoiRecipients, s.aoiCursor, AOI_WORK_ITEMS_PER_TICK);
    var s1 := if peers == [] then s else s.(aoiCursor := Some(peers[|peers| - 1]));
    if peers != [] { InvCursor(s, cfg, Some(peers[|peers| - 1])); }
    assert AoiEnv(s1, moorings, true) == AoiEnv(s, moorings, true) by { CursorKeepsEnv(s, s1.aoiCursor, moorings); }
    VisitsLighten(s1, cfg, peers, moorings);
  }

  lemma CursorKeepsEnv(s: ServerState, cursor: Option<nat>, moorings: map<nat, Aoi.Mooring>)
    ensures AoiEnv(s.(aoiCursor := cursor), moorings, true) == AoiEnv(s, moorings, true)
  {
  }

  /** A session whose client has been sent its whole block and everything in it. */
  ghost predicate Settled(session: Session, radius: nat) {
    && session.aoi.published == session.aoi.sub == Block(session.cell, radius)
    && session.aoi.pending == {} && session.aoi.active.None?
  }

  lemma NoBurden(sessions: map<nat, Session>, waiting: set<nat>, env: Aoi.Env)
    requires Burden(sessions, waiting, env) == 0
    ensures waiting == {}
  {
    hide Aoi.Rank;
  }

  lemma NothingWaiting(s: ServerState, moorings: map<nat, Aoi.Mooring>)
    requires s.aoiRecipients == {}
    ensures AoiTick(s, moorings, {}) == s && Burden(s.sessions, s.aoiRecipients, AoiEnv(s, moorings, true)) == 0
  {
    hide AoiEnv;
  }

  // ----- ... in any run in which the world stands still

  function AoiCount(ops: seq<Op>): nat {
    if ops == [] then 0 else (if ops[0].AoiOp? then 1 else 0) + AoiCount(ops[1..])
  }

  /** The same people in the same cells. */
  ghost predicate SamePlaces(a: map<nat, Session>, b: map<nat, Session>) {
    a.Keys == b.Keys && forall p :: p in a ==> a[p].cell == b[p].cell
  }

  /** Nobody comes, goes or leaves a cell in the run, and the database answers every delivery tick alike. */
  ghost predicate StandsStill(s: ServerState, cfg: Config, ops: seq<Op>, moorings: map<nat, Aoi.Mooring>)
    requires Inv(s, cfg) && OpsOk(ops, cfg)
    decreases |ops|
  {
    hide Inv, OpsOk, OpOk, Step, Fanout.FanOk;
    ops == [] ||
    (OpsTail(ops, cfg);
     StepInv(s, cfg, ops[0]);
     var next := Step(s, cfg, ops[0]);
     && SamePlaces(s.sessions, next.sessions)
     && (ops[0].AoiOp? ==> ops[0].moorings == moorings && ops[0].down == {})
     && StandsStill(next, cfg, ops[1..], moorings))
  }

  lemma EnvFrame(a: ServerState, b: ServerState, moorings: map<nat, Aoi.Mooring>)
    requires SamePlaces(a.sessions, b.sessions) && a.playerPeers == b.playerPeers && a.playerOrder == b.playerOrder
    requires forall p :: p in a.sessions ==> a.sessions[p].player == b.sessions[p].player
    ensures AoiEnv(a, moorings, true) == AoiEnv(b, moorings, true)
  {
    assert Whereabouts(a) == Whereabouts(b);
  }

  /** Nothing but a delivery tick then touches anyone's delivery. */
  lemma OtherWorkLeavesDelivery(s: ServerState, cfg: Config, op: Op)
    requires Inv(s, cfg) && OpOk(op, cfg) && Fanout.FanOk(s.fan) && cfg.cellSize > 0.0 && !op.AoiOp?
    requires SamePlaces(s.sessions, Step(s, cfg, op).sessions)
    ensures
      var r := Step(s, cfg, op);
      && r.aoiRecipients == s.aoiRecipients
      && (forall p :: p in s.sessions ==> r.sessions[p].aoi == s.sessions[p].aoi)
  {
    hide Inv, OnHello, OnClientState, OnChat, OnDisconnect, SnapTick, FanTick, ClockTick, Fanout.FanOk, DirtyFlush.Tick,
         DirtyFlush.FlushAll;
    match op
    case HelloOp(peer, hello, at, now, dbOk) => HelloElsewhere(s, cfg, peer, hello, at, now, dbOk, peer);
    case StateOp(peer, position, now) => StateFrame(s, cfg, peer, position, now);
    case LeaveOp(peer, refused) =>
      DisconnectInv(s, cfg, peer, refused);
      LeaveSeats(s, peer, refused);
    case SnapOp => SnapTickFrame(s, cfg);
    case _ => SeatlessFrame(s, cfg, op);
  }

  lemma StillStep(s: ServerState, cfg: Config, op: Op, moorings: map<nat, Aoi.Mooring>)
    requires Inv(s, cfg) && OpOk(op, cfg) && Fanout.FanOk(s.fan) && cfg.cellSize > 0.0
    requires SamePlaces(s.sessions, Step(s, cfg, op).sessions) && (op.AoiOp? ==> op.moorings == moorings && op.down == {})
    ensures
      var r := Step(s, cfg, op);
      var env := AoiEnv(s, moorings, true);
      && AoiEnv(r, moorings, true) == env
      && (Burden(r.sessions, r.aoiRecipients, env) + AoiCount([op]) <= Burden(s.sessions, s.aoiRecipients, env)
          || Burden(r.sessions, r.aoiRecipients, env) == 0)
  {
    hide Inv, Step, Burden, AoiEnv, Fanout.FanOk;
    assert [op][1..] == [];
    StepPeople(s, cfg, op);
    EnvFrame(s, Step(s, cfg, op), moorings);
    if op.AoiOp? {
      AoiStep(s, cfg, moorings);
      TickLightens(s, cfg, moorings);
      if s.aoiRecipients == {} { NothingWaiting(s, moorings); }
    } else {
      OtherWorkLeavesDelivery(s, cfg, op);
      BurdenFrame(s.sessions, Step(s, cfg, op).sessions, s.aoiRecipients, AoiEnv(s, moorings, true));
    }
  }

  lemma AoiStep(s: ServerState, cfg: Config, moorings: map<nat, Aoi.Mooring>)
    requires Fanout.FanOk(s.fan) && cfg.cellSize > 0.0
    ensures Step(s, cfg, AoiOp(moorings, {})) == AoiTick(s, moorings, {})
  {
    hide Fanout.FanOk, AoiTick;
  }

  /**
    * Liveness of the whole server, with snapshots, fanout, clocks, flushes, chat and idle client states in between:
    * once nobody comes, goes or leaves a cell and the database answers, as many delivery ticks as the `Burden`
    * bring every session to the end of its publication and hydration, whatever the sessions were doing.
    */
  lemma {:induction false} EveryoneSettles(s: ServerState, cfg: Config, ops: seq<Op>, moorings: map<nat, Aoi.Mooring>)
    requires Inv(s, cfg) && OpsOk(ops, cfg) && StandsStill(s, cfg, ops, moorings)
    requires Burden(s.sessions, s.aoiRecipients, AoiEnv(s, moorings, true)) <= AoiCount(ops)
    ensures
      var r := Run(s, cfg, ops);
      && SamePlaces(s.sessions, r.sessions) && r.aoiRecipients == {}
      && (forall p :: p in r.sessions ==> Settled(r.sessions[p], cfg.radius))
    decreases |ops|
  {
    hide Inv, OpsOk, OpOk, Step, Burden, AoiEnv, Settled, Fanout.FanOk;
    if ops == [] {
      NoBurden(s.sessions, s.aoiRecipients, AoiEnv(s, moorings, true));
      forall p | p in s.sessions ensures Settled(s.sessions[p], cfg.radius) { SleeperIsSettled(s, cfg, p); }
    } else {
      OpsTail(ops, cfg);
      StepInv(s, cfg, ops[0]);
      StillStep(s, cfg, ops[0], moorings);
      assert [ops[0]][1..] == [];
      EveryoneSettles(Step(s, cfg, ops[0]), cfg, ops[1..], moorings);
    }
  }

  // ----- The clients' mirrors over whole runs

  lemma DeliveryOfInv(s: ServerState, cfg: Config, p: nat)
    requires Inv(s, cfg) && p in s.sessions
    ensures DeliveryOk(s.sessions[p])
  {
    hide IndexesOk, PlacedOk, GenerationsOk, FanoutOk, IdentitiesOk, AuthenticOk, DirtyFlush.Conserved, LimitersOk, Live,
         Tracks, DeliveryOk, Aoi.HasWork;
  }

  /**
    * Over every run from start-up: a client that applies the updates it is sent sees exactly the cells its
    * session has published, and once its session is no longer scheduled, exactly its interest block.
    */
  lemma ClientsMirrorWhatIsPublished(cfg: Config, db: Db, ops: seq<Op>, p: nat)
    requires ConfigOk(cfg) && IdentitiesOk(db.players, db) && OpsOk(ops, cfg)
    ensures Inv(Boot(db), cfg)
    ensures
      var r := Run(Boot(db), cfg, ops);
      p in r.sessions ==>
        && r.sessions[p].mirror == r.sessions[p].aoi.published
        && (p !in r.aoiRecipients ==> r.sessions[p].mirror == Block(r.sessions[p].cell, cfg.radius))
  {
    hide Inv, OpsOk, Run;
    BootInv(cfg, db);
    RunInv(Boot(db), cfg, ops);
    var r := Run(Boot(db), cfg, ops);
    if p in r.sessions {
      DeliveryOfInv(r, cfg, p);
      if p !in r.aoiRecipients { SleeperIsSettled(r, cfg, p); }
    }
  }

  lemma SleeperIsSettled(s: ServerState, cfg: Config, p: nat)
    requires Inv(s, cfg) && p in s.sessions && p !in s.aoiRecipients
    ensures Settled(s.sessions[p], cfg.radius)
  {
    hide IndexesOk, PlacementOk, GenerationsOk, FanoutOk, IdentitiesOk, AuthenticOk, DirtyFlush.Conserved, LimitersOk, Live, Tracks;
    assert Placed(s.sessions[p], s.world.cellOf, cfg.radius);
  }

  // ----- A session's delivery is a run of its own

  /** The peer has a session at every point of the run. */
  ghost predicate StaysSeated(s: ServerState, cfg: Config, ops: seq<Op>, p: nat)
    requires Inv(s, cfg) && OpsOk(ops, cfg)
    decreases |ops|
  {
    hide Inv, OpsOk, OpOk, Step, Fanout.FanOk;
    && p in s.sessions
    && (ops == [] ||
        (OpsTail(ops, cfg);
         StepInv(s, cfg, ops[0]);
         StaysSeated(Step(s, cfg, ops[0]), cfg, ops[1..], p)))
  }

  lemma StaysNow(s: ServerState, cfg: Config, ops: seq<Op>, p: nat)
    requires Inv(s, cfg) && OpsOk(ops, cfg) && StaysSeated(s, cfg, ops, p)
    ensures p in s.sessions
  {
    hide Inv, OpsOk, OpOk, Step, Fanout.FanOk;
  }

  lemma StaysTail(s: ServerState, cfg: Config, ops: seq<Op>, p: nat)
    requires Inv(s, cfg) && OpsOk(ops, cfg) && StaysSeated(s, cfg, ops, p) && ops != []
    ensures OpOk(ops[0], cfg) && OpsOk(ops[1..], cfg) && Fanout.FanOk(s.fan) && cfg.cellSize > 0.0
    ensures
      var next := Step(s, cfg, ops[0]);
      Inv(next, cfg) && p in next.sessions && StaysSeated(next, cfg, ops[1..], p)
  {
    hide Inv, OpsOk, OpOk, Step, Fanout.FanOk;
    OpsTail(ops, cfg);
    StepInv(s, cfg, ops[0]);
    StaysNow(Step(s, cfg, ops[0]), cfg, ops[1..], p);
  }

  /** What an operation is to one session's delivery: a visit, a movement of its own, or nothing. */
  ghost function StepInputs(s: ServerState, cfg: Config, op: Op, p: nat): seq<Aoi.Input>
    requires OpOk(op, cfg) && cfg.cellSize > 0.0 && Fanout.FanOk(s.fan) && p in Step(s, cfg, op).sessions
  {
    if op.AoiOp? then
      if p in AoiTurn(s) then [Aoi.Visiting(AoiEnv(s, op.moorings, p !in op.down))] else []
    else if op.StateOp? && op.peer == p then [Aoi.Recentred(Step(s, cfg, op).sessions[p].aoi.sub)]
    else []
  }

  lemma NoReaction(a: Aoi.AoiState)
    ensures Aoi.Reactions(a, []) == (a, [])
  {
  }

  lemma OneReaction(a: Aoi.AoiState, i: Aoi.Input)
    ensures Aoi.Reactions(a, [i]).0 == Aoi.React(a, i).0
  {
    hide Aoi.React;
    assert [i][1..] == [];
  }

  lemma StepDelivery(s: ServerState, cfg: Config, op: Op, p: nat)
    requires Inv(s, cfg) && OpOk(op, cfg) && cfg.cellSize > 0.0 && Fanout.FanOk(s.fan)
    requires p in s.sessions && p in Step(s, cfg, op).sessions
    ensures Step(s, cfg, op).sessions[p].aoi == Aoi.Reactions(s.sessions[p].aoi, StepInputs(s, cfg, op, p)).0
  {
    hide Inv, OnHello, OnClientState, OnChat, OnDisconnect, AoiTick, SnapTick, FanTick, ClockTick, Fanout.FanOk, Aoi.Visit, AoiTurn,
         DirtyFlush.Tick, DirtyFlush.FlushAll, Aoi.Reactions, AoiEnv;
    NoReaction(s.sessions[p].aoi);
    match op
    case HelloOp(peer, hello, at, now, dbOk) => HelloElsewhere(s, cfg, peer, hello, at, now, dbOk, p);
    case StateOp(peer, position, now) =>
      StateFrame(s, cfg, peer, position, now);
      OneReaction(s.sessions[p].aoi, Aoi.Recentred(Step(s, cfg, op).sessions[p].aoi.sub));
    case LeaveOp(peer, refused) => DisconnectInv(s, cfg, peer, refused);
    case AoiOp(moorings, down) =>
      AoiTickFrame(s, cfg, moorings, down, p);
      OneReaction(s.sessions[p].aoi, Aoi.Visiting(AoiEnv(s, moorings, p !in down)));
    case SnapOp => SnapTickFrame(s, cfg);
    case _ => SeatlessFrame(s, cfg, op);
  }

  ghost function DeliveryInputs(s: ServerState, cfg: Config, ops: seq<Op>, p: nat): seq<Aoi.Input>
    requires Inv(s, cfg) && OpsOk(ops, cfg) && StaysSeated(s, cfg, ops, p)
    decreases |ops|
  {
    hide Inv, OpsOk, OpOk, Step, Fanout.FanOk, StepInputs, StaysSeated;
    if ops == [] then []
    else
      StaysTail(s, cfg, ops, p);
      StepInputs(s, cfg, ops[0], p) + DeliveryInputs(Step(s, cfg, ops[0]), cfg, ops[1..], p)
  }

  /** The delivery state of a session that stays is what its own visits and movements make of it. */
  lemma {:induction false} DeliveryIsReactions(s: ServerState, cfg: Config, ops: seq<Op>, p: nat)
    requires Inv(s, cfg) && OpsOk(ops, cfg) && StaysSeated(s, cfg, ops, p)
    ensures
      var r := Run(s, cfg, ops);
      p in r.sessions && r.sessions[p].aoi == Aoi.Reactions(s.sessions[p].aoi, DeliveryInputs(s, cfg, ops, p)).0
    decreases |ops|
  {
    hide Inv, OpsOk, OpOk, Step, Fanout.FanOk, StepInputs, StaysSeated, Aoi.Reactions;
    StaysNow(s, cfg, ops, p);
    if ops == [] {
      NoReaction(s.sessions[p].aoi);
    } else {
      StaysTail(s, cfg, ops, p);
      var next := Step(s, cfg, ops[0]);
      StepDelivery(s, cfg, ops[0], p);
      DeliveryIsReactions(next, cfg, ops[1..], p);
      Aoi.ReactionsConcat(s.sessions[p].aoi, StepInputs(s, cfg, ops[0], p), DeliveryInputs(next, cfg, ops[1..], p));
    }
  }

  /**
    * Hydration completeness over server runs: for a session that has no cell under way, as every session when it is
    * seated, and any run in which it stays and whose last work for it reports a cell done, some visit of the run
    * took that cell up, and if membership and mooring rows did not change since, between the two every live player
    * was examined once in order, those in the cell when examined were shown, and every row was walked once in order.
    */
  lemma CellsAreHydrated(s: ServerState, cfg: Config, ops: seq<Op>, p: nat) returns (n: nat)
    requires Inv(s, cfg) && OpsOk(ops, cfg) && StaysSeated(s, cfg, ops, p) && s.sessions[p].aoi.active.None?
    requires Aoi.EndsDone(Aoi.Reactions(s.sessions[p].aoi, DeliveryInputs(s, cfg, ops, p)).1)
    ensures p in Run(s, cfg, ops).sessions
    ensures
      var a, inputs := s.sessions[p].aoi, DeliveryInputs(s, cfg, ops, p);
      && n < |inputs| && n <= |Aoi.Reactions(a, inputs).1| && |Aoi.Reactions(a, inputs).1[n..]| == |inputs[n..]|
      && Run(s, cfg, ops).sessions[p].aoi == Aoi.Reactions(a, inputs).0
      && (var es := Aoi.Reactions(a, inputs).1[n..];
          var cell := Aoi.LastCell(Aoi.Reactions(a, inputs).1);
          && Aoi.Starts(Aoi.Reactions(a, inputs[..n]).0, inputs[n], cell)
          && forall players, moorings :: Aoi.Steady(inputs[n..], players, moorings) ==>
               && Aoi.Examined(es) == Sorted(players)
               && Aoi.Shown(es) == Aoi.Seen(inputs[n..], es, cell)
               && Aoi.Boats(es) == Sorted(Aoi.InCell(moorings, cell)) && Aoi.AllJudged(es, moorings))
  {
    hide Inv, OpsOk, Run, StaysSeated, DeliveryInputs, Aoi.Reactions, Aoi.AoiOk, Aoi.Starts, Aoi.Steady, Aoi.Examined, Aoi.Shown, Aoi.Boats,
         Aoi.Seen, Sorted, Aoi.AllJudged;
    StaysNow(s, cfg, ops, p);
    DeliveryIsReactions(s, cfg, ops, p);
    SessionAoi(s, cfg, p);
    n := Aoi.EveryDoneCellIsComplete(s.sessions[p].aoi, DeliveryInputs(s, cfg, ops, p));
  }
}
