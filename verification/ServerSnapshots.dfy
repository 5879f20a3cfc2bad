/**
  * Snapshot recurrence for the server itself, over runs of its operations: players move, chat, and are delivered
  * to between snapshot ticks, and as long as the same people see each other at every snapshot tick, the scheduler's
  * recurrence is theirs.
  */
module ServerSnapshots {
  import opened World
  import Recurrence
  import Snapshots
  import Aoi
  import Fanout
  import DirtyFlush
  import opened Server
  import opened ServerInvariants
  import opened ServerRuns
  import opened ServerFrames
  import opened ServerLaws

  // ----- No visit is dated in the future

  function SnapCount(ops: seq<Op>): nat {
    if ops == [] then 0 else (if ops[0].SnapOp? then 1 else 0) + SnapCount(ops[1..])
  }

  ghost predicate Dated(s: ServerState) {
    forall p :: p in s.sessions ==> s.sessions[p].snap.lastVisit <= s.snapTick
  }

  lemma DatedView(s: ServerState)
    ensures Dated(s) <==> Snapshots.Visited(SnapView(s))
  {
    assert forall p :: p in s.sessions ==> SnapView(s).cursors[p] == s.sessions[p].snap;
  }

  lemma DatedStep(s: ServerState, cfg: Config, op: Op)
    requires Inv(s, cfg) && OpOk(op, cfg) && Fanout.FanOk(s.fan) && cfg.cellSize > 0.0
    requires Dated(s) && s.snapTick + 1 < Snapshots.U32
    ensures Dated(Step(s, cfg, op)) && Step(s, cfg, op).snapTick == s.snapTick + SnapCount([op])
  {
    hide Inv, OnHello, OnClientState, OnChat, OnDisconnect, AoiTick, SnapTick, FanTick, ClockTick, Fanout.FanOk, Aoi.Visit, AoiTurn,
         DirtyFlush.Tick, DirtyFlush.FlushAll, Snapshots.Broadcast, Scene, SnapView;
    assert [op][1..] == [];
    var r := Step(s, cfg, op);
    if op.SnapOp? {
      SnapTickIsBroadcast(s, cfg);
      DatedView(s);
      DatedView(r);
      TickOf(s);
      TickOf(r);
      Snapshots.BroadcastDated(SnapView(s), Scene(s, cfg));
    } else {
      if !op.FanOp? { TurnsStay(s, cfg, op); } else { FanTickTurn(s, op.scans, op.sends); }
      forall p | p in r.sessions ensures r.sessions[p].snap.lastVisit <= r.snapTick { DatedPeer(s, cfg, op, p); }
    }
  }

  lemma TickOf(s: ServerState)
    ensures SnapView(s).tick == s.snapTick
  {
  }

  lemma FanTickTurn(s: ServerState, scans: nat, sends: nat)
    requires Fanout.FanOk(s.fan)
    ensures FanTick(s, scans, sends).snapTick == s.snapTick && FanTick(s, scans, sends).snapCursor == s.snapCursor
  {
    hide Fanout.FanOk, Fanout.Process;
  }

  /** Short of a snapshot tick, a session's cursor is what it was, or that of a newcomer. */
  lemma DatedPeer(s: ServerState, cfg: Config, op: Op, p: nat)
    requires Inv(s, cfg) && OpOk(op, cfg) && Fanout.FanOk(s.fan) && cfg.cellSize > 0.0 && !op.SnapOp?
    requires p in Step(s, cfg, op).sessions
    ensures
      var r := Step(s, cfg, op);
      if p in s.sessions then r.sessions[p].snap == s.sessions[p].snap else r.sessions[p].snap.lastVisit == 0
  {
    hide Inv, OnHello, OnClientState, OnChat, OnDisconnect, AoiTick, SnapTick, FanTick, ClockTick, Fanout.FanOk, Aoi.Visit, AoiTurn,
         DirtyFlush.Tick, DirtyFlush.FlushAll;
    match op
    case HelloOp(peer, hello, at, now, dbOk) => HelloElsewhere(s, cfg, peer, hello, at, now, dbOk, p);
    case StateOp(peer, position, now) => StateFrame(s, cfg, peer, position, now);
    case LeaveOp(peer, refused) => DisconnectInv(s, cfg, peer, refused);
    case AoiOp(moorings, down) =>
      AoiTickPeople(s, moorings, down);
      AoiTickFrame(s, cfg, moorings, down, p);
    case _ => SeatlessFrame(s, cfg, op);
  }

  /** Over every run with fewer snapshot ticks left than the 32-bit tick has room for. */
  lemma {:induction false} RunDated(s: ServerState, cfg: Config, ops: seq<Op>)
    requires Inv(s, cfg) && OpsOk(ops, cfg) && Dated(s) && s.snapTick + SnapCount(ops) < Snapshots.U32 - 1
    ensures Dated(Run(s, cfg, ops)) && Run(s, cfg, ops).snapTick == s.snapTick + SnapCount(ops)
    decreases |ops|
  {
    hide Inv, OpsOk, OpOk, Step, Dated, Fanout.FanOk;
    if ops != [] {
      OpsTail(ops, cfg);
      StepInv(s, cfg, ops[0]);
      DatedStep(s, cfg, ops[0]);
      assert [ops[0]][1..] == [];
      RunDated(Step(s, cfg, ops[0]), cfg, ops[1..]);
    }
  }

  // ----- The scenes of a run

  /** Nobody comes or goes in the run. */
  ghost predicate NobodyComesOrGoes(s: ServerState, cfg: Config, ops: seq<Op>)
    requires Inv(s, cfg) && OpsOk(ops, cfg)
    decreases |ops|
  {
    hide Inv, OpsOk, OpOk, Step, Fanout.FanOk;
    ops == [] ||
    (OpsTail(ops, cfg);
     StepInv(s, cfg, ops[0]);
     var next := Step(s, cfg, ops[0]);
     next.sessions.Keys == s.sessions.Keys && NobodyComesOrGoes(next, cfg, ops[1..]))
  }

  /** The scene at each snapshot tick of the run. */
  ghost function SnapScenes(s: ServerState, cfg: Config, ops: seq<Op>): seq<Snapshots.Scene>
    requires Inv(s, cfg) && OpsOk(ops, cfg)
    decreases |ops|
  {
    hide Inv, OpsOk, OpOk, Step, Fanout.FanOk;
    if ops == [] then []
    else
      OpsTail(ops, cfg);
      StepInv(s, cfg, ops[0]);
      (if ops[0].SnapOp? then [Scene(s, cfg)] else []) + SnapScenes(Step(s, cfg, ops[0]), cfg, ops[1..])
  }

  /** What each snapshot tick of the run sends. */
  ghost function SnapSent(s: ServerState, cfg: Config, ops: seq<Op>): seq<seq<Snapshots.Packet>>
    requires Inv(s, cfg) && OpsOk(ops, cfg)
    decreases |ops|
  {
    hide Inv, OpsOk, OpOk, Step, Fanout.FanOk;
    if ops == [] then []
    else
      OpsTail(ops, cfg);
      StepInv(s, cfg, ops[0]);
      (if ops[0].SnapOp? then [SnapTick(s, cfg).1] else []) + SnapSent(Step(s, cfg, ops[0]), cfg, ops[1..])
  }

  /** At every snapshot tick of the run everyone is within everyone's radius. */
  ghost predicate VisibleThroughout(s: ServerState, cfg: Config, ops: seq<Op>)
    requires Inv(s, cfg) && OpsOk(ops, cfg)
    decreases |ops|
  {
    hide Inv, OpsOk, OpOk, Step, Fanout.FanOk;
    ops == [] ||
    (OpsTail(ops, cfg);
     StepInv(s, cfg, ops[0]);
     && (ops[0].SnapOp? ==> MutuallyVisible(s, cfg))
     && VisibleThroughout(Step(s, cfg, ops[0]), cfg, ops[1..]))
  }

  lemma SnapViewStays(s: ServerState, cfg: Config, op: Op)
    requires Inv(s, cfg) && OpOk(op, cfg) && Fanout.FanOk(s.fan) && cfg.cellSize > 0.0 && !op.SnapOp?
    requires Step(s, cfg, op).sessions.Keys == s.sessions.Keys
    ensures SnapView(Step(s, cfg, op)) == SnapView(s)
  {
    hide Inv, Step, Fanout.FanOk;
    StepPeople(s, cfg, op);
    if op.FanOp? { FanStepTurn(s, cfg, op.scans, op.sends); } else { TurnsStay(s, cfg, op); }
    assert SnapView(Step(s, cfg, op)).cursors == SnapView(s).cursors;
  }

  lemma FanStepTurn(s: ServerState, cfg: Config, scans: nat, sends: nat)
    requires Fanout.FanOk(s.fan) && cfg.cellSize > 0.0
    ensures
      var r := Step(s, cfg, FanOp(scans, sends));
      r.snapTick == s.snapTick && r.snapCursor == s.snapCursor
  {
    hide Fanout.FanOk, FanTick;
    FanTickTurn(s, scans, sends);
  }

  /** Between its snapshot ticks the run leaves the scheduler alone: it is the scheduler's run over its scenes. */
  lemma {:induction false} RunIsTicks(s: ServerState, cfg: Config, ops: seq<Op>)
    requires Inv(s, cfg) && OpsOk(ops, cfg) && NobodyComesOrGoes(s, cfg, ops)
    ensures SnapView(Run(s, cfg, ops)) == Snapshots.Ticks(SnapView(s), SnapScenes(s, cfg, ops))
    decreases |ops|
  {
    hide Inv, OpsOk, OpOk, Step, Fanout.FanOk, SnapView, Scene, Snapshots.Broadcast;
    if ops != [] {
      OpsTail(ops, cfg);
      StepInv(s, cfg, ops[0]);
      var next := Step(s, cfg, ops[0]);
      RunIsTicks(next, cfg, ops[1..]);
      var rest := SnapScenes(next, cfg, ops[1..]);
      if ops[0].SnapOp? {
        SnapStep(s, cfg);
        assert ([Scene(s, cfg)] + rest)[1..] == rest;
      } else {
        SnapViewStays(s, cfg, ops[0]);
        assert [] + rest == rest;
      }
    }
  }

  lemma SnapStep(s: ServerState, cfg: Config)
    requires Fanout.FanOk(s.fan) && cfg.cellSize > 0.0
    ensures SnapView(Step(s, cfg, SnapOp)) == Snapshots.Broadcast(SnapView(s), Scene(s, cfg)).0
    ensures SnapTick(s, cfg).1 == Snapshots.Broadcast(SnapView(s), Scene(s, cfg)).1
  {
    hide Fanout.FanOk, SnapTick, SnapView, Scene, Snapshots.Broadcast;
    SnapTickIsBroadcast(s, cfg);
  }

  /** What the `n`-th snapshot tick of the run sends a peer is what the scheduler sends it there. */
  lemma {:induction false} SentIsSent(s: ServerState, cfg: Config, ops: seq<Op>, n: nat, peer: nat)
    requires Inv(s, cfg) && OpsOk(ops, cfg) && NobodyComesOrGoes(s, cfg, ops) && 1 <= n <= |SnapScenes(s, cfg, ops)|
    ensures |SnapSent(s, cfg, ops)| == |SnapScenes(s, cfg, ops)|
    ensures ToldAt(s, cfg, ops, n, peer) == Snapshots.SentAt(SnapView(s), SnapScenes(s, cfg, ops), n, peer)
    decreases |ops|
  {
    hide Inv, OpsOk, OpOk, Step, Fanout.FanOk, SnapView, Scene, Snapshots.Broadcast, Snapshots.SentTo, Snapshots.SentAt, SnapTick;
    OpsTail(ops, cfg);
    StepInv(s, cfg, ops[0]);
    SentLength(s, cfg, ops);
    var next := Step(s, cfg, ops[0]);
    var scenes, rest := SnapScenes(s, cfg, ops), SnapScenes(next, cfg, ops[1..]);
    var sent, later := SnapSent(s, cfg, ops), SnapSent(next, cfg, ops[1..]);
    if ops[0].SnapOp? {
      SnapStep(s, cfg);
      assert scenes[0] == Scene(s, cfg) && scenes[1..] == rest;
      if n == 1 {
        Snapshots.SentFirst(SnapView(s), scenes, peer);
      } else {
        SentIsSent(next, cfg, ops[1..], n - 1, peer);
        Snapshots.SentLater(SnapView(s), scenes, n - 1, peer);
      }
    } else {
      SnapViewStays(s, cfg, ops[0]);
      assert [] + rest == rest && [] + later == later;
      SentIsSent(next, cfg, ops[1..], n, peer);
    }
  }

  /** What a peer is told at the `n`-th snapshot tick of the run. */
  ghost function ToldAt(s: ServerState, cfg: Config, ops: seq<Op>, n: nat, peer: nat): seq<nat>
    requires Inv(s, cfg) && OpsOk(ops, cfg)
  {
    if 1 <= n <= |SnapSent(s, cfg, ops)| then Snapshots.SentTo(SnapSent(s, cfg, ops)[n - 1], peer) else []
  }

  lemma {:induction false} SentLength(s: ServerState, cfg: Config, ops: seq<Op>)
    requires Inv(s, cfg) && OpsOk(ops, cfg)
    ensures |SnapSent(s, cfg, ops)| == |SnapScenes(s, cfg, ops)| == SnapCount(ops)
    decreases |ops|
  {
    hide Inv, OpsOk, OpOk, Step, Fanout.FanOk, Scene, SnapTick;
    if ops != [] {
      OpsTail(ops, cfg);
      StepInv(s, cfg, ops[0]);
      SentLength(Step(s, cfg, ops[0]), cfg, ops[1..]);
    }
  }

  // ----- The same crowd at every snapshot tick

  lemma PeopleStay(s: ServerState, cfg: Config, op: Op)
    requires Inv(s, cfg) && OpOk(op, cfg) && Fanout.FanOk(s.fan) && cfg.cellSize > 0.0
    requires Step(s, cfg, op).sessions.Keys == s.sessions.Keys
    ensures Snapshots.SameCrowd(Scene(s, cfg), Scene(Step(s, cfg, op), cfg))
  {
    hide Inv, Step, Fanout.FanOk, Whereabouts;
    StepPeople(s, cfg, op);
  }

  lemma SameCrowdThen(a: Snapshots.Scene, b: Snapshots.Scene, c: Snapshots.Scene)
    requires Snapshots.SameCrowd(a, b) && Snapshots.SameCrowd(b, c)
    ensures Snapshots.SameCrowd(a, c)
  {
  }

  lemma SameCrowdBack(a: Snapshots.Scene, b: Snapshots.Scene)
    requires Snapshots.SameCrowd(a, b)
    ensures Snapshots.SameCrowd(b, a)
  {
  }

  /** The scheduler's recipients are the sessions, whatever their cursors. */
  lemma CrowdElsewhere(a: Snapshots.SnapState, b: Snapshots.SnapState, scene: Snapshots.Scene)
    requires a.cursors.Keys == b.cursors.Keys && Snapshots.Crowd(a, scene)
    ensures Snapshots.Crowd(b, scene)
  {
    hide Chebyshev;
    assert |a.cursors| == |a.cursors.Keys| && |b.cursors| == |b.cursors.Keys|;
  }

  lemma ViewKeys(s: ServerState)
    ensures SnapView(s).cursors.Keys == s.sessions.Keys
  {
  }

  lemma {:induction false} ScenesAreCrowd(s: ServerState, cfg: Config, ops: seq<Op>, k: nat)
    requires Inv(s, cfg) && OpsOk(ops, cfg) && NobodyComesOrGoes(s, cfg, ops) && VisibleThroughout(s, cfg, ops)
    requires cfg.cadence >= 1 && k < |SnapScenes(s, cfg, ops)|
    ensures
      var scene := SnapScenes(s, cfg, ops)[k];
      Snapshots.Crowd(SnapView(s), scene) && Snapshots.SameCrowd(Scene(s, cfg), scene)
    decreases |ops|
  {
    hide Inv, OpsOk, OpOk, Step, Fanout.FanOk, Scene, SnapView, Snapshots.Crowd, Snapshots.SameCrowd, MutuallyVisible;
    OpsTail(ops, cfg);
    StepInv(s, cfg, ops[0]);
    if ops[0].SnapOp? && k == 0 {
      SessionsAreCrowd(s, cfg);
      Snapshots.SameCrowdRefl(Scene(s, cfg));
    } else {
      var next := Step(s, cfg, ops[0]);
      var later := if ops[0].SnapOp? then k - 1 else k;
      ScenesAreCrowd(next, cfg, ops[1..], later);
      var scene := SnapScenes(next, cfg, ops[1..])[later];
      PeopleStay(s, cfg, ops[0]);
      SameCrowdThen(Scene(s, cfg), Scene(next, cfg), scene);
      ViewKeys(s);
      ViewKeys(next);
      CrowdElsewhere(SnapView(next), SnapView(s), scene);
    }
  }

  lemma ScenesThroughout(s: ServerState, cfg: Config, ops: seq<Op>)
    requires Inv(s, cfg) && OpsOk(ops, cfg) && NobodyComesOrGoes(s, cfg, ops) && VisibleThroughout(s, cfg, ops)
    requires cfg.cadence >= 1 && SnapCount(ops) > 0
    ensures Snapshots.CrowdThroughout(SnapView(s), SnapScenes(s, cfg, ops)) && SnapScenes(s, cfg, ops)[0].cadence == cfg.cadence
  {
    hide Inv, OpsOk, SnapScenes, NobodyComesOrGoes, VisibleThroughout, Scene, SnapView, Snapshots.Crowd;
    SentLength(s, cfg, ops);
    var scenes := SnapScenes(s, cfg, ops);
    ScenesAreCrowd(s, cfg, ops, 0);
    CadenceOf(s, cfg);
    forall k | 0 <= k < |scenes| ensures Snapshots.Crowd(SnapView(s), scenes[k]) && Snapshots.SameCrowd(scenes[0], scenes[k]) {
      ScenesAreCrowd(s, cfg, ops, k);
      SameCrowdBack(Scene(s, cfg), scenes[0]);
      SameCrowdThen(scenes[0], Scene(s, cfg), scenes[k]);
    }
  }

  lemma CadenceOf(s: ServerState, cfg: Config)
    ensures Scene(s, cfg).cadence == cfg.cadence
  {
  }

  // ----- The recurrence of the server

  /** The same people are seated throughout the run, and it does not wrap the snapshot tick. */
  ghost predicate SteadyRun(s: ServerState, cfg: Config, ops: seq<Op>) {
    && Inv(s, cfg) && OpsOk(ops, cfg) && NobodyComesOrGoes(s, cfg, ops)
    && Dated(s) && s.snapTick + SnapCount(ops) < Snapshots.U32 - 1
  }

  /** At every snapshot tick of such a run the session of rank `i` is told about the same full selection of players. */
  ghost predicate Selected(s: ServerState, cfg: Config, ops: seq<Op>, i: nat, setup: Recurrence.Setup) {
    && SteadyRun(s, cfg, ops) && i < |SnapView(s).cursors| == setup.peers && Snapshots.Dense(setup)
    && Snapshots.AllShow(SnapScenes(s, cfg, ops), Snapshots.Recipient(SnapView(s), i), setup)
  }

  /** People who see each other at every snapshot tick, wherever they move in between, all have such a selection. */
  lemma CrowdIsSelected(s: ServerState, cfg: Config, ops: seq<Op>, i: nat) returns (setup: Recurrence.Setup)
    requires SteadyRun(s, cfg, ops) && VisibleThroughout(s, cfg, ops)
    requires cfg.cadence >= 1 && 2 <= |s.sessions| && i < |s.sessions| && SnapCount(ops) > 0
    ensures Selected(s, cfg, ops, i, setup) && setup.peers == |s.sessions| && setup.cadence == cfg.cadence
  {
    hide Inv, OpsOk, NobodyComesOrGoes, VisibleThroughout, SnapScenes, Dated, SnapView, Snapshots.CrowdThroughout, Snapshots.Recipient,
         Snapshots.Elect, Snapshots.AllShow, Snapshots.Dense;
    ViewKeys(s);
    assert |SnapView(s).cursors| == |SnapView(s).cursors.Keys| && |s.sessions| == |s.sessions.Keys|;
    ScenesThroughout(s, cfg, ops);
    Snapshots.CrowdShows(SnapView(s), SnapScenes(s, cfg, ops), i);
    SentLength(s, cfg, ops);
    setup := Snapshots.SetupOf(SnapView(s), SnapScenes(s, cfg, ops)[0], i);
  }

  /** The peer is told about the player at the `n`-th snapshot tick of the run, and at none before. */
  ghost predicate NextToldAt(s: ServerState, cfg: Config, ops: seq<Op>, peer: nat, player: nat, n: nat) {
    && Inv(s, cfg) && OpsOk(ops, cfg)
    && player in ToldAt(s, cfg, ops, n, peer) && forall t :: 1 <= t < n ==> player !in ToldAt(s, cfg, ops, t, peer)
  }

  /** The recipient has just been told about its `k`-th player, and there are enough ticks to come for a whole sweep. */
  ghost predicate LastsASweep(st: Snapshots.SnapState, ticks: nat, i: nat, setup: Recurrence.Setup, base: nat, j: nat, k: nat) {
    Snapshots.JustTold(st, i, setup, base, j, k) && Snapshots.SweepTime(st, i, setup) <= ticks
  }

  /** The session hears of its `k`-th player again at exactly the tick that completes a sweep. */
  ghost predicate RecursAfterASweep(s: ServerState, cfg: Config, ops: seq<Op>, i: nat, setup: Recurrence.Setup, k: nat) {
    var st := SnapView(s);
    && Snapshots.Anchored(st) && i < |st.cursors| == setup.peers && setup.cadence >= 1 && k < |setup.sel|
    && Snapshots.GapOf(setup, Snapshots.SweepTime(st, i, setup))
    && NextToldAt(s, cfg, ops, Snapshots.Recipient(st, i), setup.sel[k], Snapshots.SweepTime(st, i, setup))
  }

  /**
    * Snapshot recurrence of the server, for a session whose selection stays full and the same at every snapshot
    * tick, whatever messages and other work come in between and whoever moves where. A player it has just been
    * told about is told to it again at exactly the `SweepTime`-th snapshot tick and at none before, which is at
    * most chunks * (cadence + ceil(P / 32) - 1), and the closed formula when P <= 32 or 32 divides P.
    */
  lemma SnapshotsRecur(s: ServerState, cfg: Config, ops: seq<Op>, i: nat, setup: Recurrence.Setup, base: nat, j: nat, k: nat)
    requires Selected(s, cfg, ops, i, setup) && LastsASweep(SnapView(s), SnapCount(ops), i, setup, base, j, k)
    ensures RecursAfterASweep(s, cfg, ops, i, setup, k)
  {
    hide Inv, OpsOk, NobodyComesOrGoes, SnapScenes, SnapSent, ToldAt, Dated, SnapView, Snapshots.Recipient, Snapshots.AllShow,
         Snapshots.OffsetOf, Snapshots.SentAt, Recurrence.VisitTime, Recurrence.Chunk, Recurrence.RecurrenceTicks,
         Recurrence.Rounds, Recurrence.AtPhase, Recurrence.JustVisited, Snapshots.Visited, Snapshots.LaneOf, Snapshots.SweepTime;
    SentLength(s, cfg, ops);
    var st, scenes := SnapView(s), SnapScenes(s, cfg, ops);
    ViewTick(s);
    Snapshots.SchedulerRecurrence(st, scenes, i, setup, base, j, k);
    var n, peer := Snapshots.SweepTime(st, i, setup), Snapshots.Recipient(st, i);
    SentIsSent(s, cfg, ops, n, peer);
    forall t | 1 <= t < n ensures setup.sel[k] !in ToldAt(s, cfg, ops, t, peer) { SentIsSent(s, cfg, ops, t, peer); }
  }

  lemma ViewTick(s: ServerState)
    ensures SnapView(s).tick == s.snapTick
  {
  }

  // ----- Cutting a run in two

  lemma {:induction false} CountConcat(xs: seq<Op>, ys: seq<Op>)
    ensures SnapCount(xs + ys) == SnapCount(xs) + SnapCount(ys)
  {
    if xs == [] {
      assert xs + ys == ys;
    } else {
      assert (xs + ys)[1..] == xs[1..] + ys;
      CountConcat(xs[1..], ys);
    }
  }

  /** A run can be cut right after any of its snapshot ticks. */
  lemma {:induction false} CutAfter(ops: seq<Op>, n: nat) returns (m: nat)
    requires n <= SnapCount(ops)
    ensures m <= |ops| && SnapCount(ops[..m]) == n
  {
    if n == 0 {
      m := 0;
    } else {
      var rest := CutAfter(ops[1..], if ops[0].SnapOp? then n - 1 else n);
      m := rest + 1;
      assert ops[..m][0] == ops[0] && ops[..m][1..] == ops[1..][..rest];
    }
  }

  lemma OpsConcat(xs: seq<Op>, ys: seq<Op>, cfg: Config)
    requires OpsOk(xs + ys, cfg)
    ensures OpsOk(xs, cfg) && OpsOk(ys, cfg)
  {
    hide OpOk;
    assert forall i :: 0 <= i < |xs| ==> xs[i] == (xs + ys)[i];
    assert forall i :: 0 <= i < |ys| ==> ys[i] == (xs + ys)[|xs| + i];
  }

  lemma ConcatTail(xs: seq<Op>, ys: seq<Op>)
    requires xs != []
    ensures (xs + ys)[0] == xs[0] && (xs + ys)[1..] == xs[1..] + ys
  {
  }

  /** What a run does up to a point, and what it does from there, is what it does. */
  ghost predicate Cut(s: ServerState, cfg: Config, xs: seq<Op>, ys: seq<Op>)
    requires Inv(s, cfg) && OpsOk(xs + ys, cfg)
  {
    && OpsOk(xs, cfg) && OpsOk(ys, cfg)
    && var s1 := Run(s, cfg, xs);
       Inv(s1, cfg) && s1.sessions.Keys == s.sessions.Keys
       && NobodyComesOrGoes(s, cfg, xs) && NobodyComesOrGoes(s1, cfg, ys)
       && SnapScenes(s, cfg, xs + ys) == SnapScenes(s, cfg, xs) + SnapScenes(s1, cfg, ys)
  }

  lemma CutStart(s: ServerState, cfg: Config, ys: seq<Op>)
    requires Inv(s, cfg) && OpsOk(ys, cfg) && NobodyComesOrGoes(s, cfg, ys)
    ensures [] + ys == ys && Cut(s, cfg, [], ys)
  {
    hide Inv, OpOk, Step;
    assert [] + ys == ys;
    assert [] + SnapScenes(s, cfg, ys) == SnapScenes(s, cfg, ys);
  }

  lemma {:induction false} CutAnywhere(s: ServerState, cfg: Config, xs: seq<Op>, ys: seq<Op>)
    requires Inv(s, cfg) && OpsOk(xs + ys, cfg) && NobodyComesOrGoes(s, cfg, xs + ys)
    ensures Cut(s, cfg, xs, ys)
    decreases |xs|
  {
    hide Inv, OpsOk, OpOk, Step, Fanout.FanOk, Scene;
    OpsConcat(xs, ys, cfg);
    if xs == [] {
      assert xs + ys == ys;
      CutStart(s, cfg, ys);
    } else {
      ConcatTail(xs, ys);
      OpsTail(xs + ys, cfg);
      OpsTail(xs, cfg);
      StepInv(s, cfg, xs[0]);
      CutAnywhere(Step(s, cfg, xs[0]), cfg, xs[1..], ys);
      SceneConcat(if xs[0].SnapOp? then [Scene(s, cfg)] else [], SnapScenes(Step(s, cfg, xs[0]), cfg, xs[1..]),
                  SnapScenes(Run(s, cfg, xs), cfg, ys));
    }
  }

  lemma SceneConcat(a: seq<Snapshots.Scene>, b: seq<Snapshots.Scene>, c: seq<Snapshots.Scene>)
    ensures a + (b + c) == (a + b) + c
  {
  }

  lemma RestShows(xs: seq<Snapshots.Scene>, ys: seq<Snapshots.Scene>, peer: nat, setup: Recurrence.Setup)
    requires Snapshots.AllShow(xs + ys, peer, setup)
    ensures Snapshots.AllShow(ys, peer, setup)
  {
    hide Snapshots.Shows;
    forall k | 0 <= k < |ys| ensures Snapshots.Shows(ys[k], peer, setup) { assert ys[k] == (xs + ys)[|xs| + k]; }
  }

  /** The rest of a run in which a session keeps its selection is such a run. */
  lemma RestIsSelected(s: ServerState, cfg: Config, xs: seq<Op>, ys: seq<Op>, i: nat, setup: Recurrence.Setup)
    requires Selected(s, cfg, xs + ys, i, setup)
    ensures OpsOk(xs, cfg) && Selected(Run(s, cfg, xs), cfg, ys, i, setup)
    ensures SnapView(Run(s, cfg, xs)) == Snapshots.Ticks(SnapView(s), SnapScenes(s, cfg, xs))
  {
    hide Inv, OpsOk, NobodyComesOrGoes, SnapScenes, Dated, SnapView, Snapshots.Recipient, Snapshots.AllShow, Snapshots.Dense, Run;
    CutAnywhere(s, cfg, xs, ys);
    CountConcat(xs, ys);
    RunDated(s, cfg, xs);
    RunIsTicks(s, cfg, xs);
    var s1 := Run(s, cfg, xs);
    ViewKeys(s);
    ViewKeys(s1);
    var st, st1 := SnapView(s), SnapView(s1);
    assert |st.cursors| == |st.cursors.Keys| && |st1.cursors| == |st1.cursors.Keys|;
    Snapshots.SameRecipient(st, st1, i);
    RestShows(SnapScenes(s, cfg, xs), SnapScenes(s1, cfg, ys), Snapshots.Recipient(st, i), setup);
  }

  /** After `m` operations the session has just been visited between two sweeps, with its selection as before. */
  ghost predicate SettledAt(s: ServerState, cfg: Config, ops: seq<Op>, i: nat, setup: Recurrence.Setup, m: nat, base: nat) {
    && m <= |ops| && Inv(s, cfg) && OpsOk(ops[..m], cfg)
    && SnapCount(ops[..m]) <= 1 + 4 * (setup.cadence + Recurrence.Rounds(setup.peers))
    && var s1 := Run(s, cfg, ops[..m]);
       Selected(s1, cfg, ops[m..], i, setup) && Snapshots.JustServed(SnapView(s1), i, setup, base, 0)
  }

  /**
    * Wherever a session's sweep stands when its selection settles: within a bounded number of snapshot ticks it is
    * between two sweeps and just visited, at a point of the run from which `SnapshotsRecur` gives the exact gap
    * for the rest of it.
    */
  lemma SelectionSettles(s: ServerState, cfg: Config, ops: seq<Op>, i: nat, setup: Recurrence.Setup) returns (m: nat, base: nat)
    requires Selected(s, cfg, ops, i, setup)
    requires 1 + 4 * (setup.cadence + Recurrence.Rounds(setup.peers)) <= SnapCount(ops)
    ensures SettledAt(s, cfg, ops, i, setup, m, base)
  {
    hide Inv, OpsOk, NobodyComesOrGoes, SnapScenes, Dated, SnapView, Snapshots.Recipient, Snapshots.AllShow, Snapshots.Dense,
         Snapshots.JustServed, Recurrence.Rounds, Run, Snapshots.Visited, Snapshots.Ticks;
    SentLength(s, cfg, ops);
    ViewTick(s);
    DatedView(s);
    var n;
    n, base := Snapshots.EveryRecipientSettles(SnapView(s), SnapScenes(s, cfg, ops), i, setup);
    m := CutAfter(ops, n);
    assert ops[..m] + ops[m..] == ops;
    RestIsSelected(s, cfg, ops[..m], ops[m..], i, setup);
    CutAnywhere(s, cfg, ops[..m], ops[m..]);
    SentLength(s, cfg, ops[..m]);
    assert SnapScenes(s, cfg, ops)[..n] == SnapScenes(s, cfg, ops[..m]);
  }

  // ----- From start-up

  /** A state that some run from start-up ends in, short of a wrap of the snapshot tick. */
  ghost predicate Reached(s: ServerState, cfg: Config, db: Db, history: seq<Op>) {
    && ConfigOk(cfg) && IdentitiesOk(db.players, db) && Inv(Boot(db), cfg) && OpsOk(history, cfg)
    && SnapCount(history) < Snapshots.U32 - 1
    && s == Run(Boot(db), cfg, history)
  }

  lemma ReachedIsDated(s: ServerState, cfg: Config, db: Db, history: seq<Op>)
    requires Reached(s, cfg, db, history)
    ensures Inv(s, cfg) && Dated(s) && s.snapTick == SnapCount(history)
  {
    hide Inv, OpsOk, Dated, Run;
    BootDated(db);
    RunInv(Boot(db), cfg, history);
    RunDated(Boot(db), cfg, history);
  }

  /** The people of a run who stay in it and see each other at every snapshot tick of it. */
  ghost predicate CrowdRun(s: ServerState, cfg: Config, ops: seq<Op>) {
    && Inv(s, cfg) && OpsOk(ops, cfg) && NobodyComesOrGoes(s, cfg, ops) && VisibleThroughout(s, cfg, ops)
    && cfg.cadence >= 1 && 2 <= |s.sessions|
  }

  /**
    * From any reachable state, whoever joined, left or moved before: once the same people stay and see each other
    * at every snapshot tick, each session has a full selection that stays the same and is, within a bounded
    * number of snapshot ticks, at a point of the run from which `SnapshotsRecur` gives the exact gap.
    */
  lemma SnapshotsSettle(s: ServerState, cfg: Config, db: Db, history: seq<Op>, ops: seq<Op>, i: nat)
    returns (m: nat, base: nat, setup: Recurrence.Setup)
    requires Reached(s, cfg, db, history) && CrowdRun(s, cfg, ops) && i < |s.sessions|
    requires SnapCount(history) + SnapCount(ops) < Snapshots.U32 - 1
    requires 1 + 4 * (cfg.cadence + Recurrence.Rounds(|s.sessions|)) <= SnapCount(ops)
    ensures setup.peers == |s.sessions| && setup.cadence == cfg.cadence && Selected(s, cfg, ops, i, setup)
    ensures SettledAt(s, cfg, ops, i, setup, m, base)
  {
    hide Inv, OpsOk, NobodyComesOrGoes, VisibleThroughout, Dated, Selected, SettledAt, Recurrence.Rounds, Run, Reached;
    ReachedIsDated(s, cfg, db, history);
    setup := CrowdIsSelected(s, cfg, ops, i);
    m, base := SelectionSettles(s, cfg, ops, i, setup);
  }

  lemma BootDated(db: Db)
    ensures Dated(Boot(db)) && Boot(db).snapTick == 0
  {
  }
}
