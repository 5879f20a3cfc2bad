/** The drain of the dirty-write queue over runs of the server's operations. */
module ServerFlush {
  import opened OrderedSets
  import Fanout
  import DirtyFlush
  import opened Server
  import opened ServerInvariants
  import opened ServerRuns
  import opened ServerFrames

  function FlushCount(ops: seq<Op>): nat {
    if ops == [] then 0 else (if ops[0].FlushOp? then 1 else 0) + FlushCount(ops[1..])
  }

  /** No write is refused, and no further cadence comes. */
  predicate Untroubled(op: Op) {
    && !op.CadenceOp? && !op.ShutdownOp?
    && (op.FlushOp? ==> op.refused == {}) && (op.LeaveOp? ==> !op.refusedWrite)
  }

  ghost predicate AllUntroubled(ops: seq<Op>) {
    forall i :: 0 <= i < |ops| ==> Untroubled(ops[i])
  }

  /** The players whose write an operation gets through. */
  ghost function SavedBy(s: ServerState, cfg: Config, op: Op): set<nat>
    requires OpOk(op, cfg)
  {
    match op
    case LeaveOp(peer, refused) => if peer in s.sessions && !refused then {s.sessions[peer].player} else {}
    case FlushOp(refused) => DirtyFlush.Ids(DirtyFlush.Tick(s.flush, refused).saved)
    case ShutdownOp(attempts) =>
      DirtyFlush.Ids(DirtyFlush.FlushAll(s.flush, set p | p in s.sessions :: s.sessions[p].player, attempts).0.saved)
    case _ => {}
  }

  /** Everyone written in the run. */
  ghost function Saved(s: ServerState, cfg: Config, ops: seq<Op>): set<nat>
    requires Inv(s, cfg) && OpsOk(ops, cfg)
    decreases |ops|
  {
    hide Inv, OpsOk, OpOk, Step, Fanout.FanOk, SavedBy;
    if ops == [] then {}
    else
      OpsTail(ops, cfg);
      StepInv(s, cfg, ops[0]);
      SavedBy(s, cfg, ops[0]) + Saved(Step(s, cfg, ops[0]), cfg, ops[1..])
  }

  lemma LeaveQueue(s: ServerState, peer: nat)
    ensures
      var r := OnDisconnect(s, peer, false);
      && r.flush.paused == s.flush.paused
      && r.flush.flush == (if peer in s.sessions then s.flush.flush - {s.sessions[peer].player} else s.flush.flush)
  {
    hide Unregister;
    UnregisterTurns(s.(limiters := s.limiters.(hello := s.limiters.hello - {peer})), peer);
  }

  /** Joins, movement, chat and other ticks queue nobody; a departure writes its own player and takes it off the queue. */
  lemma QueueOnlyShrinks(s: ServerState, cfg: Config, op: Op)
    requires Inv(s, cfg) && OpOk(op, cfg) && Fanout.FanOk(s.fan) && cfg.cellSize > 0.0
    requires Untroubled(op) && !op.FlushOp? && !s.flush.paused
    ensures Step(s, cfg, op).flush.flush == s.flush.flush - SavedBy(s, cfg, op) && !Step(s, cfg, op).flush.paused
  {
    hide Inv, Fanout.FanOk, Fanout.Process, OnHello, OnClientState, OnChat, OnDisconnect, AoiTick, SnapTick, ClockTick, Live;
    match op
    case HelloOp(peer, hello, at, now, dbOk) => HelloTurns(s, cfg, peer, hello, at, now, dbOk);
    case StateOp(peer, position, now) => StateTurns(s, cfg, peer, position, now);
    case ChatOp(peer, within, bytes, now) => ChatTurns(s, cfg, peer, within, bytes, now);
    case LeaveOp(peer, refused) => LeaveQueue(s, peer);
    case AoiOp(moorings, down) => AoiTurns(s, moorings, down);
    case SnapOp => SnapTurns(s, cfg);
    case ClockOp(bytes) => ClockTurns(s, bytes);
    case FanOp(scans, sends) =>
  }

  lemma FlushTickDrains(s: ServerState, cfg: Config)
    requires Fanout.FanOk(s.fan) && cfg.cellSize > 0.0 && !s.flush.paused
    ensures
      var r := Step(s, cfg, FlushOp({}));
      var n := |s.flush.flush|;
      && !r.flush.paused
      && r.flush.flush == s.flush.flush - SavedBy(s, cfg, FlushOp({}))
      && |r.flush.flush| == n - (if n < DirtyFlush.UPDATES_PER_TICK then n else DirtyFlush.UPDATES_PER_TICK)
  {
    hide Fanout.FanOk, DirtyFlush.Write, DirtyFlush.Batch;
    DirtyFlush.TickDrains(s.flush);
    DirtyFlush.WriteRemoves(s.flush, DirtyFlush.Batch(s.flush));
  }

  /**
    * A failure-free cadence drains over server runs: with n players queued, ceil(n / 8) flush ticks write every one
    * of them and empty the queue, whoever joins, moves, chats, leaves and is worked on in between; and every mark
    * still unsaved then is one that was made since, waiting for the next cadence.
    */
  lemma {:induction false} QueueDrains(s: ServerState, cfg: Config, ops: seq<Op>)
    requires Inv(s, cfg) && OpsOk(ops, cfg) && AllUntroubled(ops) && !s.flush.paused
    requires |s.flush.flush| <= DirtyFlush.UPDATES_PER_TICK * FlushCount(ops)
    ensures
      var r := Run(s, cfg, ops);
      r.flush.flush == {} && !r.flush.paused && r.unsaved <= r.flush.dirty && s.flush.flush <= Saved(s, cfg, ops)
    decreases |ops|
  {
    hide Inv, OpsOk, OpOk, Step, Fanout.FanOk, Untroubled, SavedBy;
    if ops == [] {
      FlushOfInv(s, cfg);
    } else {
      OpsTail(ops, cfg);
      StepInv(s, cfg, ops[0]);
      assert Untroubled(ops[0]);
      var next := Step(s, cfg, ops[0]);
      if ops[0].FlushOp? {
        UntroubledFlush(ops[0]);
        FlushTickDrains(s, cfg);
      } else {
        QueueOnlyShrinks(s, cfg, ops[0]);
        SubsetSize(next.flush.flush, s.flush.flush);
      }
      QueueDrains(next, cfg, ops[1..]);
    }
  }

  lemma UntroubledFlush(op: Op)
    requires Untroubled(op) && op.FlushOp?
    ensures op == FlushOp({})
  {
  }

  /** A cadence queues every mark there is, leaves none waiting and lifts the pause. */
  lemma CadenceQueuesEveryone(s: ServerState, cfg: Config)
    requires Inv(s, cfg) && Fanout.FanOk(s.fan) && cfg.cellSize > 0.0
    ensures
      var r := Step(s, cfg, CadenceOp);
      && r.unsaved == s.unsaved <= r.flush.flush
      && r.flush.flush == s.flush.dirty + s.flush.flush && r.flush.dirty == {} && !r.flush.paused
  {
    hide Inv, Fanout.FanOk;
    FlushOfInv(s, cfg);
  }

  /**
    * Every mark is written: whether or not flushing was paused by a refused write, a cadence followed by ceil(n / 8)
    * untroubled flush ticks, n being the players then marked or queued, writes everyone who was unsaved before it.
    */
  lemma MarkedAreWritten(s: ServerState, cfg: Config, ops: seq<Op>)
    requires Inv(s, cfg) && OpsOk([CadenceOp] + ops, cfg) && AllUntroubled(ops)
    requires |s.flush.dirty + s.flush.flush| <= DirtyFlush.UPDATES_PER_TICK * FlushCount(ops)
    ensures
      var r := Run(s, cfg, [CadenceOp] + ops);
      && s.unsaved <= s.flush.dirty + s.flush.flush <= Saved(s, cfg, [CadenceOp] + ops)
      && r.flush.flush == {} && !r.flush.paused && r.unsaved <= r.flush.dirty
  {
    hide Inv, OpsOk, OpOk, Step, Fanout.FanOk, SavedBy, AllUntroubled;
    var all := [CadenceOp] + ops;
    assert all[1..] == ops;
    OpsTail(all, cfg);
    StepInv(s, cfg, CadenceOp);
    CadenceQueuesEveryone(s, cfg);
    QueueDrains(Step(s, cfg, CadenceOp), cfg, ops);
  }

  /** The last writes reach everyone seated, marked or queued, except exactly those refused three times, who stay queued. */
  lemma ShutdownReachesEveryone(s: ServerState, cfg: Config, attempts: seq<set<nat>>)
    requires Inv(s, cfg) && Fanout.FanOk(s.fan) && cfg.cellSize > 0.0 && |attempts| == DirtyFlush.SHUTDOWN_ATTEMPTS
    ensures
      var op := ShutdownOp(attempts);
      var r := Step(s, cfg, op);
      var everyone := (set p | p in s.sessions :: s.sessions[p].player) + s.flush.dirty + s.flush.flush;
      var left := everyone * attempts[0] * attempts[1] * attempts[2];
      && everyone - left <= SavedBy(s, cfg, op) && SavedBy(s, cfg, op) * left == {}
      && r.flush.flush == left && r.unsaved <= left
  {
    hide Inv, Fanout.FanOk, DirtyFlush.FlushAll, DirtyFlush.Ids;
    FlushOfInv(s, cfg);
    DirtyFlush.ShutdownReport(s.flush, set p | p in s.sessions :: s.sessions[p].player, attempts);
  }
}
