/** Complete delivery over runs of the server's operations: whoever has no work left has been sent every cell of its block. */
module ServerHydration {
  import opened World
  import Aoi
  import AoiCompletion
  import Fanout
  import opened Server
  import opened ServerInvariants
  import opened ServerRuns
  import opened ServerFrames
  import opened ServerDelivery
  import ServerLaws

  /** The session's own visits and movements from the `k`-th operation of a run on. */
  ghost predicate SeatedSince(s: ServerState, cfg: Config, ops: seq<Op>, p: nat, k: nat)
    requires Inv(s, cfg) && OpsOk(ops, cfg)
  {
    && k <= |ops| && OpsOk(ops[k..], cfg)
    && var from := StateAt(s, cfg, ops, k);
       StaysSeated(from, cfg, ops[k..], p)
  }

  /** A visit shows a player in a cell exactly when the world has it there at that moment. */
  lemma PagesShowTheWorld(s: ServerState, cfg: Config, moorings: map<nat, Aoi.Mooring>, dbOk: bool, cell: Cell, examined: seq<nat>, x: nat)
    requires Inv(s, cfg)
    ensures
      x in Aoi.Hits(AoiEnv(s, moorings, dbOk), cell, examined) <==> x in examined && x in s.world.cellOf && s.world.cellOf[x] == cell
    ensures AoiEnv(s, moorings, dbOk).players == s.world.cellOf.Keys
  {
    hide Inv, Whereabouts, Aoi.Hits;
    ServerLaws.WhereaboutsAreWorld(s, cfg);
    Aoi.HitsIff(AoiEnv(s, moorings, dbOk), cell, examined, x);
  }

  /** Nobody but a hello puts a session where there was none, and a new session has published nothing. */
  lemma NewSessionsAreBlank(s: ServerState, cfg: Config, op: Op, p: nat)
    requires Inv(s, cfg) && OpOk(op, cfg) && Fanout.FanOk(s.fan) && cfg.cellSize > 0.0
    requires p !in s.sessions && p in Step(s, cfg, op).sessions
    ensures Step(s, cfg, op).sessions[p].aoi.published == {}
  {
    hide Inv, OnHello, OnClientState, OnChat, OnDisconnect, Fanout.FanOk;
    match op
    case HelloOp(peer, hello, at, now, dbOk) => HelloElsewhere(s, cfg, peer, hello, at, now, dbOk, p);
    case StateOp(peer, position, now) => ClientStateInv(s, cfg, peer, position, now);
    case ChatOp(peer, within, bytes, now) => ChatInv(s, cfg, peer, within, bytes, now);
    case LeaveOp(peer, refused) => DisconnectInv(s, cfg, peer, refused);
    case _ => TickInv(s, cfg, op);
  }

  lemma StaysFromHere(s: ServerState, cfg: Config, ops: seq<Op>, p: nat)
    requires Inv(s, cfg) && OpsOk(ops, cfg) && ops != [] && p in s.sessions
    requires OpOk(ops[0], cfg) && OpsOk(ops[1..], cfg) && Fanout.FanOk(s.fan) && cfg.cellSize > 0.0
    requires Inv(Step(s, cfg, ops[0]), cfg) && StaysSeated(Step(s, cfg, ops[0]), cfg, ops[1..], p)
    ensures StaysSeated(s, cfg, ops, p)
  {
    hide Inv, OpsOk, OpOk, Step, Fanout.FanOk;
  }

  lemma SinceNow(s: ServerState, cfg: Config, ops: seq<Op>, p: nat)
    requires Inv(s, cfg) && OpsOk(ops, cfg) && StaysSeated(s, cfg, ops, p)
    ensures SeatedSince(s, cfg, ops, p, 0) && StateAt(s, cfg, ops, 0) == s
  {
    hide Inv, OpsOk, OpOk, Step, StaysSeated;
    assert ops[0..] == ops;
  }

  lemma SinceLater(s: ServerState, cfg: Config, ops: seq<Op>, p: nat, k: nat)
    requires Inv(s, cfg) && OpsOk(ops, cfg) && ops != []
    requires OpOk(ops[0], cfg) && OpsOk(ops[1..], cfg) && Fanout.FanOk(s.fan) && cfg.cellSize > 0.0
    requires Inv(Step(s, cfg, ops[0]), cfg) && SeatedSince(Step(s, cfg, ops[0]), cfg, ops[1..], p, k)
    ensures SeatedSince(s, cfg, ops, p, k + 1)
    ensures StateAt(s, cfg, ops, k + 1) == StateAt(Step(s, cfg, ops[0]), cfg, ops[1..], k)
  {
    hide Inv, OpsOk, OpOk, Step, Fanout.FanOk, StaysSeated;
    assert ops[1..][k..] == ops[k + 1..];
  }

  /** Whoever has a session at the end has had it since the start of the run, or since an operation gave it a blank one. */
  lemma {:induction false} SeatedSomewhere(s: ServerState, cfg: Config, ops: seq<Op>, p: nat) returns (k: nat)
    requires Inv(s, cfg) && OpsOk(ops, cfg) && p in Run(s, cfg, ops).sessions
    ensures SeatedSince(s, cfg, ops, p, k)
    ensures
      var from := StateAt(s, cfg, ops, k);
      p in from.sessions && (k == 0 || from.sessions[p].aoi.published == {})
    decreases |ops|
  {
    hide Inv, OpsOk, OpOk, Step, Fanout.FanOk, StaysSeated;
    k := 0;
    if ops == [] {
      StaysNowhere(s, cfg, p);
      SinceNow(s, cfg, ops, p);
    } else {
      OpsTail(ops, cfg);
      StepInv(s, cfg, ops[0]);
      var next := Step(s, cfg, ops[0]);
      var later := SeatedSomewhere(next, cfg, ops[1..], p);
      if later == 0 && p in s.sessions {
        assert ops[1..][0..] == ops[1..];
        StaysFromHere(s, cfg, ops, p);
        SinceNow(s, cfg, ops, p);
      } else {
        SinceLater(s, cfg, ops, p, later);
        if later == 0 { NewSessionsAreBlank(s, cfg, ops[0], p); }
        k := later + 1;
      }
    }
  }

  lemma StaysNowhere(s: ServerState, cfg: Config, p: nat)
    requires Inv(s, cfg) && p in s.sessions
    ensures OpsOk([], cfg) && StaysSeated(s, cfg, [], p)
  {
    hide Inv;
  }

  /** In its own inputs, a session announced this cell, took it up, covered it and reported it done. */
  ghost predicate Delivered(a: Aoi.AoiState, inputs: seq<Aoi.Input>, c: Cell, i: nat, n: nat, j: nat) {
    var es := Aoi.Reactions(a, inputs).1;
    && |es| == |inputs| && AoiCompletion.DoneSince(es, c, i, j) && i < n <= j
    && Aoi.Starts(Aoi.Reactions(a, inputs[..n]).0, inputs[n], c)
    && AoiCompletion.CoveredIn(inputs[n..j + 1], es[n..j + 1], c) && AoiCompletion.ClosedIn(es[n..j + 1])
  }

  lemma NothingOutstanding(session: Session, radius: nat)
    requires Settled(session, radius)
    ensures AoiCompletion.Outstanding(session.aoi) == {} && session.aoi.published == Block(session.cell, radius)
  {
  }

  /** A session that was blank at the start of a run, stays, and has no work left at its end has delivered its block. */
  lemma BlankSessionDelivers(s: ServerState, cfg: Config, ops: seq<Op>, p: nat, c: Cell) returns (i: nat, n: nat, j: nat)
    requires Inv(s, cfg) && OpsOk(ops, cfg) && StaysSeated(s, cfg, ops, p) && p in s.sessions && s.sessions[p].aoi.published == {}
    requires
      var r := Run(s, cfg, ops);
      p !in r.aoiRecipients && p in r.sessions && c in Block(r.sessions[p].cell, cfg.radius)
    ensures Delivered(s.sessions[p].aoi, DeliveryInputs(s, cfg, ops, p), c, i, n, j)
  {
    hide Inv, OpsOk, Run, StaysSeated, DeliveryInputs, Aoi.Reactions, Aoi.AoiOk, Aoi.Starts, AoiCompletion.DoneSince,
         AoiCompletion.CoveredIn, AoiCompletion.ClosedIn, AoiCompletion.Outstanding, Settled;
    var r := Run(s, cfg, ops);
    RunInv(s, cfg, ops);
    SleeperIsSettled(r, cfg, p);
    NothingOutstanding(r.sessions[p], cfg.radius);
    DeliveryIsReactions(s, cfg, ops, p);
    SessionAoi(s, cfg, p);
    i, n, j := AoiCompletion.EveryShownCellWasDelivered(s.sessions[p].aoi, DeliveryInputs(s, cfg, ops, p), c);
  }

  /**
    * Complete delivery over every run from start-up: whoever is not scheduled for delivery at its end was given its
    * session blank at some operation and has kept it, and every cell of its block was, in its own visits since, announced,
    * never named again, taken up, covered in full if membership and rows were steady meanwhile, and reported done.
    */
  lemma EveryBlockIsDelivered(cfg: Config, db: Db, ops: seq<Op>, p: nat, c: Cell) returns (k: nat, i: nat, n: nat, j: nat)
    requires ConfigOk(cfg) && IdentitiesOk(db.players, db) && Inv(Boot(db), cfg) && OpsOk(ops, cfg)
    requires
      var r := Run(Boot(db), cfg, ops);
      p in r.sessions && p !in r.aoiRecipients && c in Block(r.sessions[p].cell, cfg.radius)
    ensures SeatedSince(Boot(db), cfg, ops, p, k) && p in StateAt(Boot(db), cfg, ops, k).sessions
    ensures
      var from := StateAt(Boot(db), cfg, ops, k);
      && from.sessions[p].aoi.published == {}
      && Delivered(from.sessions[p].aoi, DeliveryInputs(from, cfg, ops[k..], p), c, i, n, j)
  {
    hide Inv, OpsOk, Run, StaysSeated, DeliveryInputs, Delivered;
    k := SeatedSomewhere(Boot(db), cfg, ops, p);
    RunFrom(Boot(db), cfg, ops, k);
    i, n, j := BlankSessionDelivers(StateAt(Boot(db), cfg, ops, k), cfg, ops[k..], p, c);
  }

  /**
    * So after any history from start-up, once nobody comes, goes or leaves a cell and the database answers, as many
    * delivery ticks as the `Burden` see every cell of everybody's block delivered, with all other work in between.
    */
  lemma StandingStillDelivers(cfg: Config, db: Db, history: seq<Op>, ops: seq<Op>, moorings: map<nat, Aoi.Mooring>, p: nat, c: Cell)
    returns (k: nat, i: nat, n: nat, j: nat)
    requires ConfigOk(cfg) && IdentitiesOk(db.players, db) && Inv(Boot(db), cfg) && OpsOk(history, cfg) && OpsOk(ops, cfg)
    requires
      var s := Run(Boot(db), cfg, history);
      && Inv(s, cfg) && StandsStill(s, cfg, ops, moorings)
      && Burden(s.sessions, s.aoiRecipients, AoiEnv(s, moorings, true)) <= AoiCount(ops)
      && p in s.sessions && c in Block(s.sessions[p].cell, cfg.radius)
    ensures OpsOk(history + ops, cfg)
    ensures SeatedSince(Boot(db), cfg, history + ops, p, k) && p in StateAt(Boot(db), cfg, history + ops, k).sessions
    ensures
      var from := StateAt(Boot(db), cfg, history + ops, k);
      && from.sessions[p].aoi.published == {}
      && Delivered(from.sessions[p].aoi, DeliveryInputs(from, cfg, (history + ops)[k..], p), c, i, n, j)
  {
    hide Inv, OpsOk, Run, StaysSeated, DeliveryInputs, Delivered, StandsStill, Burden, AoiEnv, Settled, SeatedSince, StateAt;
    var s := Run(Boot(db), cfg, history);
    RunThen(Boot(db), cfg, history, ops);
    EveryoneSettles(s, cfg, ops, moorings);
    k, i, n, j := EveryBlockIsDelivered(cfg, db, history + ops, p, c);
  }
}
