/** What the invariants of the session server buy: spatial elections and sound fanout. */
module ServerLaws {
  import opened Options
  import opened OrderedSets
  import opened Wire
  import opened World
  import RateLimit
  import Transport
  import Recurrence
  import Snapshots
  import Aoi
  import Fanout
  import FanoutExactness
  import DirtyFlush
  import opened Server
  import opened ServerInvariants
  import opened ServerRuns
  import opened ServerFrames

  // ----- Snapshots

  lemma WhereaboutsAreWorld(s: ServerState, cfg: Config)
    requires Inv(s, cfg)
    ensures Whereabouts(s) == s.world.cellOf && s.playerOrder == s.world.cellOf.Keys
    ensures |s.playerOrder| <= cfg.maxPeers
  {
    hide PlacementOk, AwakeOk, GenerationsOk, FanoutOk, IdentitiesOk, AuthenticOk, DirtyFlush.Conserved, LimitersOk, Live;
    forall q | q in s.playerPeers ensures Placed(s.sessions[s.playerPeers[q]], s.world.cellOf, cfg.radius) {}
    PlayersFit(s.sessions, s.playerPeers);
    SessionsFit(s, cfg);
  }

  lemma {:induction false} PlayersFit(sessions: map<nat, Session>, playerPeers: map<nat, nat>)
    requires forall q :: q in playerPeers ==> playerPeers[q] in sessions && sessions[playerPeers[q]].player == q
    ensures |playerPeers.Keys| <= |sessions|
    decreases |playerPeers|
  {
    if playerPeers.Keys != {} {
      var q :| q in playerPeers;
      var p := playerPeers[q];
      PlayersFit(sessions - {p}, playerPeers - {q});
      assert |sessions - {p}| == |sessions| - 1;
      assert (playerPeers - {q}).Keys == playerPeers.Keys - {q};
    }
  }

  /**
    * In every reachable state, whoever a session is told about is what a spatial query around it finds:
    * the first fifteen, in circular id order after itself, of the players within the radius.
    */
  lemma SnapshotsAreSpatial(s: ServerState, cfg: Config, peer: nat)
    requires Inv(s, cfg) && peer in s.sessions
    ensures
      var me := s.sessions[peer];
      Snapshots.Elect(Scene(s, cfg), Snapshots.Member(me.player, me.cell)) ==
      After(EntitiesInRadius(s.world, me.cell, cfg.radius) - {me.player}, Some(me.player), Recurrence.VISIBILITY_CEILING)
  {
    hide Core, Snapshots.Elect, After, Whereabouts, EntitiesInRadius;
    WhereaboutsAreWorld(s, cfg);
    var me := s.sessions[peer];
    Snapshots.ElectionIsSpatial(Scene(s, cfg), Snapshots.Member(me.player, me.cell), s.world);
  }

  lemma SceneFrame(a: ServerState, b: ServerState, cfg: Config)
    requires a.playerPeers == b.playerPeers && a.playerOrder == b.playerOrder && a.sessions.Keys == b.sessions.Keys
    requires forall p :: p in a.sessions ==> a.sessions[p].player == b.sessions[p].player && a.sessions[p].cell == b.sessions[p].cell
    ensures Scene(a, cfg) == Scene(b, cfg)
  {
    assert Whereabouts(a) == Whereabouts(b);
    assert Scene(a, cfg).members == Scene(b, cfg).members;
  }

  lemma BroadcastKeys(st: Snapshots.SnapState, scene: Snapshots.Scene)
    ensures Snapshots.Broadcast(st, scene).0.cursors.Keys == st.cursors.Keys
  {
    hide Snapshots.VisitAll, OrderedSets.After;
    Snapshots.VisitAllKeys(st.cursors, scene, (st.tick + 1) % Snapshots.U32,
                           After(st.cursors.Keys, st.cursor, Recurrence.PACKETS_PER_TICK));
  }

  /** A server tick is a tick of the snapshot scheduler in the scene the sessions make, which it leaves as it was. */
  lemma SnapTickIsBroadcast(s: ServerState, cfg: Config)
    ensures
      var (r, packets) := SnapTick(s, cfg);
      && (SnapView(r), packets) == Snapshots.Broadcast(SnapView(s), Scene(s, cfg))
      && Scene(r, cfg) == Scene(s, cfg)
  {
    hide Snapshots.Broadcast, Scene;
    BroadcastKeys(SnapView(s), Scene(s, cfg));
    var r := SnapTick(s, cfg).0;
    assert SnapView(r).cursors == Snapshots.Broadcast(SnapView(s), Scene(s, cfg)).0.cursors;
    SceneFrame(r, s, cfg);
  }

  /** Everyone is within everyone's interest radius. */
  ghost predicate MutuallyVisible(s: ServerState, cfg: Config) {
    forall p, q :: p in s.sessions && q in s.sessions ==> Chebyshev(s.sessions[p].cell, s.sessions[q].cell) <= cfg.radius
  }

  lemma {:induction false} SeatsFit(sessions: map<nat, Session>, playerPeers: map<nat, nat>)
    requires forall p :: p in sessions ==> sessions[p].player in playerPeers && playerPeers[sessions[p].player] == p
    ensures |sessions| <= |playerPeers.Keys|
    decreases |sessions|
  {
    if sessions.Keys != {} {
      var p :| p in sessions;
      var q := sessions[p].player;
      SeatsFit(sessions - {p}, playerPeers - {q});
      assert |sessions - {p}| == |sessions| - 1;
      assert (playerPeers - {q}).Keys == playerPeers.Keys - {q};
    }
  }

  /** Sessions that all see each other are the crowd that the recurrence results are about. */
  lemma SessionsAreCrowd(s: ServerState, cfg: Config)
    requires Inv(s, cfg) && MutuallyVisible(s, cfg) && cfg.cadence >= 1
    ensures Snapshots.Crowd(SnapView(s), Scene(s, cfg)) && |SnapView(s).cursors| == |s.sessions|
  {
    hide PlacedOk, AwakeOk, GenerationsOk, FanoutOk, IdentitiesOk, AuthenticOk, DirtyFlush.Conserved, LimitersOk, Live, Tracks,
         Chebyshev;
    PlayersFit(s.sessions, s.playerPeers);
    SeatsFit(s.sessions, s.playerPeers);
    SessionsFit(s, cfg);
    assert SnapView(s).cursors.Keys == s.sessions.Keys == Scene(s, cfg).members.Keys;
    assert |SnapView(s).cursors| == |SnapView(s).cursors.Keys| && |s.sessions| == |s.sessions.Keys|;
    assert Whereabouts(s).Keys == s.playerOrder;
    assert |s.playerPeers| == |s.playerPeers.Keys|;
  }

  // ----- Fanout over whole runs

  /**
    * Over every run of joins, leaves, peer reuse, movement and re-keying: nothing was delivered to a session
    * other than the one captured, no job reached a peer twice, chats arrived in the order they were queued,
    * and a capture made now, cached or not, is exactly the live sessions.
    */
  lemma FanoutIsSound(cfg: Config, db: Db, ops: seq<Op>)
    requires ConfigOk(cfg) && IdentitiesOk(db.players, db) && OpsOk(ops, cfg)
    ensures Inv(Boot(db), cfg)
    ensures
      var r := Run(Boot(db), cfg, ops);
      && Fanout.LogSound(r.heard)
      && (r.fan.cache.Some? ==> r.fan.cache.value.recipients == Fanout.FreshCapture(Live(r.sessions)))
      && r.fan.chatBytes == Fanout.TotalBytes(r.fan.chats) <= Fanout.CHAT_QUEUE_BYTES
  {
    hide Inv, OpsOk, Run, Live, Fanout.LogSound, Fanout.FreshCapture, ListenersBelow, Fanout.LogBehindQueues, Fanout.QueuesFaithful;
    BootInv(cfg, db);
    RunInv(Boot(db), cfg, ops);
    var r := Run(Boot(db), cfg, ops);
    FanoutOfInv(r, cfg);
    Fanout.ChatBytesBounded(r.fan);
  }

  /** The captured session is the live one on its peer and, for a chat, the speaker's cell is within its radius. */
  ghost predicate InEarshot(s: ServerState, cfg: Config, r: Fanout.Recipient, cell: Option<Cell>) {
    && r.peer in s.sessions && s.sessions[r.peer].generation == r.generation
    && (cell.Some? ==> Chebyshev(cell.value, s.sessions[r.peer].cell) <= cfg.radius)
  }

  lemma HearsIff(s: ServerState, cfg: Config, r: Fanout.Recipient, cell: Option<Cell>)
    requires Inv(s, cfg)
    ensures Fanout.Hears(r, cell, Live(s.sessions)) <==> InEarshot(s, cfg, r, cell)
  {
    hide IndexesOk, PlacementOk, AwakeOk, GenerationsOk, FanoutOk, IdentitiesOk, AuthenticOk, DirtyFlush.Conserved, LimitersOk, Tracks;
    if r.peer in s.sessions { assert Placed(s.sessions[r.peer], s.world.cellOf, cfg.radius); }
  }

  /**
    * A fanout tick, for every queued job and every recipient of it: it is sent to exactly those recipients that the tick
    * passed and that are still the captured session, within the interest radius of the cell a chat was spoken in.
    */
  lemma FanTickReaches(s: ServerState, cfg: Config, scans: nat, sends: nat, j: Fanout.Job, index: nat)
    requires Inv(s, cfg) && FanoutExactness.Queued(s.fan, j) && index < |j.audience.recipients|
    ensures Fanout.FanOk(s.fan)
    ensures
      var r := FanTick(s, scans, sends);
      && s.heard <= r.heard
      && (FanoutExactness.Sent(r.heard[|s.heard|..], j.serial, index) <==>
          j.next <= index < FanoutExactness.CursorOf(r.fan, j) && InEarshot(s, cfg, j.audience.recipients[index], j.cell))
  {
    hide Inv, Live, Fanout.Process, Fanout.FanOk, Fanout.Hears, FanoutExactness.CursorOf, FanoutExactness.Sent, InEarshot,
         FanoutExactness.Queued;
    QueuesOfInv(s, cfg);
    HearsIff(s, cfg, j.audience.recipients[index], j.cell);
    FanoutExactness.TickDeliversExactly(s.fan, Live(s.sessions), scans, sends, j, index);
    var w := Fanout.Process(s.fan, Live(s.sessions), scans, sends);
    assert (s.heard + w.delivered)[|s.heard|..] == w.delivered;
  }

  // ----- The clock's turn over whole runs

  /**
    * Chat jobs that complete in a run before the pending clock does, or before it is dropped; a clock that is
    * replaced by a newer one while pending still counts as pending.
    */
  function Overtaking(s: ServerState, cfg: Config, ops: seq<Op>): nat
    requires Inv(s, cfg) && OpsOk(ops, cfg)
    decreases |ops|
  {
    hide Inv, OpsOk, OpOk, Step, Fanout.Process, Fanout.FanOk, Live;
    if ops == [] || s.fan.clock.None? then 0
    else
      OpsTail(ops, cfg);
      StepInv(s, cfg, ops[0]);
      var next := Step(s, cfg, ops[0]);
      if ops[0].FanOp? then
        var done := Fanout.Process(s.fan, Live(s.sessions), ops[0].scans, ops[0].sends).completed;
        Fanout.ChatsBeforeClock(done) + if true in done then 0 else Overtaking(next, cfg, ops[1..])
      else Overtaking(next, cfg, ops[1..])
  }

  lemma FanStepIsProcess(s: ServerState, cfg: Config, scans: nat, sends: nat)
    requires Fanout.FanOk(s.fan) && cfg.cellSize > 0.0
    ensures Step(s, cfg, FanOp(scans, sends)).fan == Fanout.Process(s.fan, Live(s.sessions), scans, sends).state
  {
    hide Fanout.FanOk, Fanout.Process, Live;
  }

  /**
    * Over every run, with chats arriving, players joining and leaving, clocks replaced and generations re-keyed
    * between ticks: from any moment on, at most one chat job completes before the pending clock does.
    */
  lemma {:induction false} ClockWaitsForOneChat(s: ServerState, cfg: Config, ops: seq<Op>)
    requires Inv(s, cfg) && OpsOk(ops, cfg)
    ensures Overtaking(s, cfg, ops) <= Fanout.Patience(s.fan) <= 1
    decreases |ops|
  {
    hide Inv, OpsOk, OpOk, Step, Fanout.Process, Fanout.FanOk, Live;
    if ops != [] && s.fan.clock.Some? {
      OpsTail(ops, cfg);
      StepInv(s, cfg, ops[0]);
      ClockWaitsForOneChat(Step(s, cfg, ops[0]), cfg, ops[1..]);
      if ops[0].FanOp? {
        FanStepIsProcess(s, cfg, ops[0].scans, ops[0].sends);
        Fanout.ClockIsOvertakenAtMostOnce(s.fan, Live(s.sessions), ops[0].scans, ops[0].sends);
      } else {
        TurnsStay(s, cfg, ops[0]);
      }
    }
  }

  /** Clock jobs that complete in a run before a waiting chat does, or before the chats are dropped. */
  function Passing(s: ServerState, cfg: Config, ops: seq<Op>): nat
    requires Inv(s, cfg) && OpsOk(ops, cfg)
    decreases |ops|
  {
    hide Inv, OpsOk, OpOk, Step, Fanout.Process, Fanout.FanOk, Live;
    if ops == [] || s.fan.chats == [] then 0
    else
      OpsTail(ops, cfg);
      StepInv(s, cfg, ops[0]);
      var next := Step(s, cfg, ops[0]);
      if ops[0].FanOp? then
        var done := Fanout.Process(s.fan, Live(s.sessions), ops[0].scans, ops[0].sends).completed;
        Fanout.ClocksBeforeChat(done) + if false in done then 0 else Passing(next, cfg, ops[1..])
      else Passing(next, cfg, ops[1..])
  }

  /** Nor do clocks starve chats: over every run at most one clock job completes before a waiting chat does. */
  lemma {:induction false} ChatsWaitForOneClock(s: ServerState, cfg: Config, ops: seq<Op>)
    requires Inv(s, cfg) && OpsOk(ops, cfg)
    ensures Passing(s, cfg, ops) <= Fanout.ChatPatience(s.fan) <= 1
    decreases |ops|
  {
    hide Inv, OpsOk, OpOk, Step, Fanout.Process, Fanout.FanOk, Live;
    if ops != [] && s.fan.chats != [] {
      OpsTail(ops, cfg);
      StepInv(s, cfg, ops[0]);
      ChatsWaitForOneClock(Step(s, cfg, ops[0]), cfg, ops[1..]);
      if ops[0].FanOp? {
        FanStepIsProcess(s, cfg, ops[0].scans, ops[0].sends);
        Fanout.ChatIsOvertakenAtMostOnce(s.fan, Live(s.sessions), ops[0].scans, ops[0].sends);
      } else {
        TurnsStay(s, cfg, ops[0]);
      }
    }
  }

  // ----- The ceiling on retained audiences over whole runs

  /** The queues are untouched, or the cached audience is dropped, with all that is queued or nothing of it. */
  predicate OnlyCache(f: Fanout.FanState, g: Fanout.FanState) {
    || g == f
    || (g.cache.None? && g.nextArc == f.nextArc && ((g.chats == f.chats && g.clock == f.clock) || (g.chats == [] && g.clock.None?)))
  }

  lemma HelloFan(s: ServerState, cfg: Config, peer: nat, hello: Hello, at: Option<Transport.Conn>, now: int, dbOk: bool)
    requires cfg.cellSize > 0.0
    ensures
      var r := OnHello(s, cfg, peer, hello, at, now, dbOk).server;
      OnlyCache(s.fan, r.fan)
  {
    hide Seat, RateLimit.KeyedAllow, RateLimit.BoundedAllow, PassLimits, Server.Admit;
    var s1 := s.(limiters := s.limiters.(hello := RateLimit.KeyedAllow(s.limiters.hello, cfg.helloMs, peer, now).0));
    if at.Some? {
      var known := if hello.identity in s.identities then Some(s.identities[hello.identity]) else None;
      var s2 := s1.(limiters := PassLimits(s1.limiters, cfg, at.value.addr.ip, known, now).0);
      var admission := Server.Admit(s2.db, hello.identity, cfg.maxPlayerRows);
      if admission.Admitted? {
        var player := admission.player;
        var s3 := s2.(db := admission.db);
        var s4 := if known.Some? then s3 else
                    s3.(identities := s3.identities[hello.identity := player],
                        limiters := s3.limiters.(reconnect :=
                          RateLimit.BoundedAllow(s3.limiters.reconnect, cfg.helloMs, cfg.reconnectKeys, player, now).0));
        SeatFan(s4, cfg, peer, player, hello.identity, at.value);
      }
    }
  }

  lemma SeatFan(s: ServerState, cfg: Config, peer: nat, player: nat, identity: Identity, conn: Transport.Conn)
    requires cfg.cellSize > 0.0
    ensures
      var r := Seat(s, cfg, peer, player, identity, conn);
      OnlyCache(s.fan, r.fan)
  {
    hide Register, NewSession, Unregister, PlaceInCell;
    var pp := Superseded(s, player, peer);
    if pp.Some? { UnregisterFan(s, pp.value); }
    var s1 := if pp.Some? then Evict(s, pp.value) else s;
    var session := NewSession(s1.nextSerial, cfg, player, identity, conn);
    RegisterFan(s1.(world := PlaceInCell(s1.world, player, session.cell)), cfg.maxPeers, peer, session);
  }

  lemma UnregisterFan(s: ServerState, peer: nat)
    ensures OnlyCache(s.fan, Unregister(s, peer).fan)
  {
  }

  lemma RegisterFan(s: ServerState, maxPeers: nat, peer: nat, session: Session)
    ensures Register(s, maxPeers, peer, session).Some? ==> OnlyCache(s.fan, Register(s, maxPeers, peer, session).value.fan)
  {
    hide Rekeyed;
  }

  lemma NoCacheArcs(f: Fanout.FanState, g: Fanout.FanState)
    requires Fanout.ArcsOk(f) && g.cache.None? && g.nextArc == f.nextArc
    requires (g.chats == f.chats && g.clock == f.clock) || (g.chats == [] && g.clock.None?)
    ensures Fanout.ArcsOk(g)
  {
    forall a | Fanout.Uses(g, a) ensures Fanout.Uses(f, a) {}
    Fanout.FewerUses(f, g);
  }

  lemma PushedArcs(f: Fanout.FanState, g: Fanout.FanState, audience: Fanout.Audience)
    requires Fanout.ArcsOk(f) && f.cache == Some(audience) && g.cache == f.cache && g.nextArc == f.nextArc
    requires
      || (g.clock == f.clock && |g.chats| == |f.chats| + 1 && g.chats[..|f.chats|] == f.chats && g.chats[|f.chats|].audience == audience)
      || (g.chats == f.chats && g.clock.Some? && g.clock.value.audience == audience)
    ensures Fanout.ArcsOk(g)
  {
    forall a | Fanout.Uses(g, a) ensures Fanout.Uses(f, a) {
      if exists i :: 0 <= i < |g.chats| && g.chats[i].audience == a {
        var i :| 0 <= i < |g.chats| && g.chats[i].audience == a;
        if i < |f.chats| { assert f.chats[i] == g.chats[..|f.chats|][i]; }
      }
    }
    Fanout.FewerUses(f, g);
  }

  lemma ChatArcs(s: ServerState, cfg: Config, peer: nat, within: bool, bytes: nat, now: int)
    requires Fanout.ArcsOk(s.fan)
    ensures Fanout.ArcsOk(OnChat(s, cfg, peer, within, bytes, now).fan)
  {
    hide RateLimit.KeyedAllow, Fanout.Capture, Live, Fanout.ArcsOk;
    Fanout.CaptureArcs(s.fan, Live(s.sessions));
    var (f, audience) := Fanout.Capture(s.fan, Live(s.sessions));
    if peer in s.sessions && audience.Some? {
      PushedArcs(f, PushChat(f, bytes, s.sessions[peer].cell, audience.value), audience.value);
    }
  }

  lemma ClockArcs(s: ServerState, bytes: nat)
    requires Fanout.ArcsOk(s.fan)
    ensures Fanout.ArcsOk(ClockTick(s, bytes).fan)
  {
    hide Fanout.Capture, Live, Fanout.ArcsOk;
    var f0 := s.fan.(clock := None);
    assert Fanout.ArcsOk(f0) by {
      forall a | Fanout.Uses(f0, a) ensures Fanout.Uses(s.fan, a) {}
      Fanout.FewerUses(s.fan, f0);
    }
    Fanout.CaptureArcs(f0, Live(s.sessions));
    var (f, audience) := Fanout.Capture(f0, Live(s.sessions));
    if audience.Some? { PushedArcs(f, PushClock(f, bytes, audience.value), audience.value); }
  }

  lemma ChatSnug(s: ServerState, cfg: Config, peer: nat, within: bool, bytes: nat, now: int)
    requires Inv(s, cfg) && Fanout.Snug(s.fan)
    ensures Fanout.Snug(OnChat(s, cfg, peer, within, bytes, now).fan)
  {
    hide Inv, RateLimit.KeyedAllow, Fanout.FreshCapture, Live, FanoutOk, ListenersBelow, Fanout.Retained, Fanout.Audiences;
  }

  lemma ClockSnug(s: ServerState, bytes: nat)
    ensures Fanout.Snug(ClockTick(s, bytes).fan)
  {
    hide Fanout.FreshCapture, Live, Fanout.Retained, Fanout.Audiences;
  }

  lemma StepArcs(s: ServerState, cfg: Config, op: Op)
    requires Inv(s, cfg) && OpOk(op, cfg) && Fanout.FanOk(s.fan) && cfg.cellSize > 0.0 && Fanout.ArcsOk(s.fan)
    ensures Fanout.ArcsOk(Step(s, cfg, op).fan)
  {
    hide Inv, OnHello, OnClientState, OnChat, OnDisconnect, AoiTick, SnapTick, ClockTick, Fanout.FanOk, DirtyFlush.Tick, DirtyFlush.FlushAll,
         Fanout.Process, Live, Fanout.ArcsOk;
    var r := Step(s, cfg, op);
    match op
    case HelloOp(peer, hello, at, now, dbOk) =>
      HelloFan(s, cfg, peer, hello, at, now, dbOk);
      if r.fan != s.fan { NoCacheArcs(s.fan, r.fan); }
    case StateOp(peer, position, now) => StateFan(s, cfg, peer, position, now);
    case ChatOp(peer, within, bytes, now) => ChatArcs(s, cfg, peer, within, bytes, now);
    case LeaveOp(peer, refused) =>
      LeaveFan(s, peer, refused);
      if r.fan != s.fan { NoCacheArcs(s.fan, r.fan); }
    case AoiOp(moorings, down) => AoiFan(s, moorings, down);
    case SnapOp => SnapTurns(s, cfg);
    case ClockOp(bytes) => ClockArcs(s, bytes);
    case FanOp(scans, sends) => Fanout.ProcessArcs(s.fan, Live(s.sessions), scans, sends);
    case _ =>
  }

  lemma StepSnug(s: ServerState, cfg: Config, op: Op)
    requires Inv(s, cfg) && OpOk(op, cfg) && Fanout.FanOk(s.fan) && cfg.cellSize > 0.0 && Fanout.Snug(s.fan)
    ensures Fanout.Snug(Step(s, cfg, op).fan)
  {
    hide Inv, OnHello, OnClientState, OnChat, OnDisconnect, AoiTick, SnapTick, ClockTick, Fanout.FanOk, DirtyFlush.Tick, DirtyFlush.FlushAll,
         Fanout.Process, Live;
    match op
    case HelloOp(peer, hello, at, now, dbOk) => HelloFan(s, cfg, peer, hello, at, now, dbOk);
    case StateOp(peer, position, now) => StateFan(s, cfg, peer, position, now);
    case ChatOp(peer, within, bytes, now) => ChatSnug(s, cfg, peer, within, bytes, now);
    case LeaveOp(peer, refused) => LeaveFan(s, peer, refused);
    case AoiOp(moorings, down) => AoiFan(s, moorings, down);
    case SnapOp => SnapTurns(s, cfg);
    case ClockOp(bytes) => ClockSnug(s, bytes);
    case FanOp(scans, sends) => Fanout.ProcessSnug(s.fan, Live(s.sessions), scans, sends);
    case _ =>
  }

  lemma StateFan(s: ServerState, cfg: Config, peer: nat, position: Option<(real, real)>, now: int)
    requires cfg.cellSize > 0.0
    ensures OnClientState(s, cfg, peer, position, now).fan == s.fan
  {
    hide RateLimit.KeyedAllow, CellOf, Clamp, PlaceInCell, Block;
  }

  lemma LeaveFan(s: ServerState, peer: nat, refused: bool)
    ensures
      var r := OnDisconnect(s, peer, refused);
      OnlyCache(s.fan, r.fan)
  {
    hide RemoveEntity, DirtyFlush.Leave;
  }

  lemma {:induction false} VisitsFan(s: ServerState, peers: seq<nat>, moorings: map<nat, Aoi.Mooring>, down: set<nat>)
    ensures AoiVisits(s, peers, moorings, down).fan == s.fan
    decreases |peers|
  {
    hide Aoi.Visit, AoiEnv;
    if peers != [] { VisitsFan(AoiVisit(s, peers[0], AoiEnv(s, moorings, peers[0] !in down)), peers[1..], moorings, down); }
  }

  lemma AoiFan(s: ServerState, moorings: map<nat, Aoi.Mooring>, down: set<nat>)
    ensures AoiTick(s, moorings, down).fan == s.fan
  {
    hide AoiVisits, After;
    var peers := After(s.aoiRecipients, s.aoiCursor, AOI_WORK_ITEMS_PER_TICK);
    VisitsFan(if peers == [] then s else s.(aoiCursor := Some(peers[|peers| - 1])), peers, moorings, down);
  }

  lemma {:induction false} RunSnug(s: ServerState, cfg: Config, ops: seq<Op>)
    requires Inv(s, cfg) && OpsOk(ops, cfg) && Fanout.Snug(s.fan) && Fanout.ArcsOk(s.fan)
    ensures Fanout.Snug(Run(s, cfg, ops).fan) && Fanout.ArcsOk(Run(s, cfg, ops).fan)
    decreases |ops|
  {
    hide Inv, OpsOk, OpOk, Step, Fanout.FanOk, Fanout.Snug, Fanout.ArcsOk;
    if ops != [] {
      OpsTail(ops, cfg);
      StepInv(s, cfg, ops[0]);
      StepSnug(s, cfg, ops[0]);
      StepArcs(s, cfg, ops[0]);
      RunSnug(Step(s, cfg, ops[0]), cfg, ops[1..]);
    }
  }

  /**
    * Over every run from start-up shared audiences are told apart by their identity, and the captured recipients held in
    * memory, counted once for each, stay within their ceiling.
    */
  lemma RetainedStaysBounded(cfg: Config, db: Db, ops: seq<Op>)
    requires ConfigOk(cfg) && IdentitiesOk(db.players, db) && OpsOk(ops, cfg)
    ensures Inv(Boot(db), cfg)
    ensures
      var f := Run(Boot(db), cfg, ops).fan;
      Fanout.ArcsOk(f) && Fanout.Retained(Fanout.Audiences(f), {}) <= Fanout.FANOUT_QUEUE_RECIPIENTS
  {
    hide Inv, OpsOk, Run, Live, Fanout.LogOk, Fanout.FreshCapture, ListenersBelow, Fanout.QueuesFaithful, Fanout.Retained, Fanout.Audiences,
         Fanout.Snug, Fanout.FanOk, Fanout.CacheOk, Fanout.ArcsOk;
    BootInv(cfg, db);
    RunInv(Boot(db), cfg, ops);
    BootSnug(db);
    RunSnug(Boot(db), cfg, ops);
    var r := Run(Boot(db), cfg, ops);
    FanoutOfInv(r, cfg);
    Fanout.RetainedIsBounded(r.fan, Live(r.sessions));
  }

  lemma BootSnug(db: Db)
    ensures Fanout.Snug(Boot(db).fan) && Fanout.ArcsOk(Boot(db).fan)
  {
  }
}
