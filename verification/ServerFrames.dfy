/** What each operation of the session server leaves alone. */
module ServerFrames {
  import opened Options
  import opened OrderedSets
  import opened Wire
  import opened World
  import RateLimit
  import Transport
  import Recurrence
  import Snapshots
  import Aoi
  import Fanout
  import DirtyFlush
  import opened Server
  import opened ServerInvariants
  import opened ServerRuns

  // ----- Whose turn it is

  predicate SameTurns(a: ServerState, b: ServerState) {
    a.fan.preferClock == b.fan.preferClock && a.snapCursor == b.snapCursor && a.snapTick == b.snapTick
  }

  /** Nobody was queued for writing or taken off the queue, and flushing is as paused as it was. */
  predicate SameQueued(a: ServerState, b: ServerState) {
    a.flush.flush == b.flush.flush && a.flush.paused == b.flush.paused
  }

  /** Only a fanout tick moves the preference between clock and chats, and only a snapshot tick the scheduler's turn. */
  lemma TurnsStay(s: ServerState, cfg: Config, op: Op)
    requires Inv(s, cfg) && OpOk(op, cfg) && !op.FanOp?
    ensures Fanout.FanOk(s.fan) && cfg.cellSize > 0.0
    ensures op.SnapOp? || SameTurns(s, Step(s, cfg, op))
    ensures Step(s, cfg, op).fan.preferClock == s.fan.preferClock
  {
    hide Inv, Fanout.FanOk, OnHello, OnClientState, OnChat, OnDisconnect, AoiTick, SnapTick, ClockTick;
    QueuesOfInv(s, cfg);
    match op
    case HelloOp(peer, hello, at, now, dbOk) => HelloTurns(s, cfg, peer, hello, at, now, dbOk);
    case StateOp(peer, position, now) => StateTurns(s, cfg, peer, position, now);
    case ChatOp(peer, within, bytes, now) => ChatTurns(s, cfg, peer, within, bytes, now);
    case LeaveOp(peer, refused) => LeaveTurns(s, peer, refused);
    case AoiOp(moorings, down) => AoiTurns(s, moorings, down);
    case SnapOp => SnapTurns(s, cfg);
    case ClockOp(bytes) => ClockTurns(s, bytes);
    case _ =>
  }

  lemma CaptureTurns(f: Fanout.FanState, live: map<nat, Fanout.Listener>)
    ensures Fanout.Capture(f, live).0.preferClock == f.preferClock
  {
    hide Fanout.FreshCapture, Fanout.Retained, Fanout.Audiences;
  }

  lemma UnregisterTurns(s: ServerState, peer: nat)
    ensures SameTurns(s, Unregister(s, peer)) && SameQueued(s, Unregister(s, peer))
  {
  }

  lemma RegisterTurns(s: ServerState, maxPeers: nat, peer: nat, session: Session)
    ensures
      var r := Register(s, maxPeers, peer, session);
      r.Some? ==> SameTurns(s, r.value) && SameQueued(s, r.value)
  {
    hide Rekeyed;
  }

  lemma SeatTurns(s: ServerState, cfg: Config, peer: nat, player: nat, identity: Identity, conn: Transport.Conn)
    requires cfg.cellSize > 0.0
    ensures SameTurns(s, Seat(s, cfg, peer, player, identity, conn)) && SameQueued(s, Seat(s, cfg, peer, player, identity, conn))
  {
    hide Register, NewSession, Unregister, PlaceInCell;
    var pp := Superseded(s, player, peer);
    if pp.Some? { UnregisterTurns(s, pp.value); }
    var s1 := if pp.Some? then Evict(s, pp.value) else s;
    var session := NewSession(s1.nextSerial, cfg, player, identity, conn);
    RegisterTurns(s1.(world := PlaceInCell(s1.world, player, session.cell)), cfg.maxPeers, peer, session);
  }

  lemma HelloTurns(s: ServerState, cfg: Config, peer: nat, hello: Hello, at: Option<Transport.Conn>, now: int, dbOk: bool)
    requires cfg.cellSize > 0.0
    ensures SameTurns(s, OnHello(s, cfg, peer, hello, at, now, dbOk).server) && SameQueued(s, OnHello(s, cfg, peer, hello, at, now, dbOk).server)
  {
    hide Seat, RateLimit.KeyedAllow, RateLimit.BoundedAllow, PassLimits, Server.Admit;
    var s1 := s.(limiters := s.limiters.(hello := RateLimit.KeyedAllow(s.limiters.hello, cfg.helloMs, peer, now).0));
    if at.Some? {
      var known := if hello.identity in s.identities then Some(s.identities[hello.identity]) else None;
      var s2 := s1.(limiters := PassLimits(s1.limiters, cfg, at.value.addr.ip, known, now).0);
      var admission := Server.Admit(s2.db, hello.identity, cfg.maxPlayerRows);
      if admission.Admitted? {
        var player := admission.player;
        var s3 := s2.(db := admission.db);
        var s4 := if known.Some? then s3 else
                    s3.(identities := s3.identities[hello.identity := player],
                        limiters := s3.limiters.(reconnect :=
                          RateLimit.BoundedAllow(s3.limiters.reconnect, cfg.helloMs, cfg.reconnectKeys, player, now).0));
        SeatTurns(s4, cfg, peer, player, hello.identity, at.value);
      }
    }
  }

  lemma StateTurns(s: ServerState, cfg: Config, peer: nat, position: Option<(real, real)>, now: int)
    requires cfg.cellSize > 0.0
    ensures SameTurns(s, OnClientState(s, cfg, peer, position, now)) && SameQueued(s, OnClientState(s, cfg, peer, position, now))
  {
    hide RateLimit.KeyedAllow, CellOf, Clamp, PlaceInCell, Block;
  }

  lemma ChatTurns(s: ServerState, cfg: Config, peer: nat, within: bool, bytes: nat, now: int)
    ensures SameTurns(s, OnChat(s, cfg, peer, within, bytes, now)) && SameQueued(s, OnChat(s, cfg, peer, within, bytes, now))
  {
    hide RateLimit.KeyedAllow, Fanout.Capture, Live;
    CaptureTurns(s.fan, Live(s.sessions));
  }

  lemma LeaveTurns(s: ServerState, peer: nat, refused: bool)
    ensures SameTurns(s, OnDisconnect(s, peer, refused))
  {
    hide Unregister, RemoveEntity, DirtyFlush.Leave;
    UnregisterTurns(s.(limiters := s.limiters.(hello := s.limiters.hello - {peer})), peer);
  }

  lemma {:induction false} VisitsTurns(s: ServerState, peers: seq<nat>, moorings: map<nat, Aoi.Mooring>, down: set<nat>)
    ensures SameTurns(s, AoiVisits(s, peers, moorings, down)) && SameQueued(s, AoiVisits(s, peers, moorings, down))
    decreases |peers|
  {
    hide Aoi.Visit, AoiEnv;
    if peers != [] {
      var env := AoiEnv(s, moorings, peers[0] !in down);
      VisitsTurns(AoiVisit(s, peers[0], env), peers[1..], moorings, down);
    }
  }

  lemma AoiTurns(s: ServerState, moorings: map<nat, Aoi.Mooring>, down: set<nat>)
    ensures SameTurns(s, AoiTick(s, moorings, down)) && SameQueued(s, AoiTick(s, moorings, down))
  {
    hide AoiVisits, After;
    var peers := After(s.aoiRecipients, s.aoiCursor, AOI_WORK_ITEMS_PER_TICK);
    VisitsTurns(if peers == [] then s else s.(aoiCursor := Some(peers[|peers| - 1])), peers, moorings, down);
  }

  lemma SnapTurns(s: ServerState, cfg: Config)
    ensures SnapTick(s, cfg).0.fan == s.fan && SameQueued(s, SnapTick(s, cfg).0)
  {
    hide Snapshots.Broadcast, Scene, SnapView;
  }

  lemma ClockTurns(s: ServerState, bytes: nat)
    ensures SameTurns(s, ClockTick(s, bytes)) && SameQueued(s, ClockTick(s, bytes))
  {
    hide Fanout.Capture, Live;
    CaptureTurns(s.fan.(clock := None), Live(s.sessions));
  }

  // ----- Who is seated, where, and with what work

  /** Nobody came, went, moved or was worked on. */
  predicate SameSeats(a: ServerState, b: ServerState) {
    && a.sessions == b.sessions && a.playerPeers == b.playerPeers && a.playerOrder == b.playerOrder
    && a.aoiRecipients == b.aoiRecipients && a.aoiCursor == b.aoiCursor && a.world == b.world
  }

  /** A hello that is not granted a session changes limiters and the player table at most. */
  lemma HelloRefused(s: ServerState, cfg: Config, peer: nat, hello: Hello, at: Option<Transport.Conn>, now: int, dbOk: bool)
    requires Inv(s, cfg) && cfg.cellSize > 0.0 && (peer in s.sessions || !Granted(s, cfg, peer, hello, at, now, dbOk))
    ensures SameSeats(s, OnHello(s, cfg, peer, hello, at, now, dbOk).server)
  {
    hide Inv, Seat, LimitersOk, IdentitiesOk, RateLimit.KeyedAllow, RateLimit.BoundedAllow, PassLimits, Server.Admit,
         MayJoin, LimitsCharged, RateLimit.Recent;
    LimitersOfInv(s, cfg);
    AdmitAgrees(s.identities, s.db, hello.identity, cfg.maxPlayerRows);
    if at.Some? { LimitsOfHello(s, cfg, peer, hello.identity, at.value.addr.ip, now); }
  }

  /** The seat of a session that was neither evicted nor just taken. */
  lemma HelloElsewhere(s: ServerState, cfg: Config, peer: nat, hello: Hello, at: Option<Transport.Conn>, now: int, dbOk: bool, p: nat)
    requires Inv(s, cfg) && cfg.cellSize > 0.0 && 1 <= peer <= cfg.maxPeers
    ensures
      var r := OnHello(s, cfg, peer, hello, at, now, dbOk).server;
      && (p in s.sessions && p in r.sessions ==> r.sessions[p] == s.sessions[p].(generation := r.sessions[p].generation))
      && (p !in s.sessions && p in r.sessions ==>
            r.sessions[p].snap == Recurrence.SnapCursor(None, 0, 0) && r.sessions[p].aoi.published == {})
      && (r.sessions.Keys == s.sessions.Keys ==> SameSeats(s, r))
  {
    hide Inv, OnHello, Granted, SameSeats;
    HelloInv(s, cfg, peer, hello, at, now, dbOk);
    if peer in s.sessions || !Granted(s, cfg, peer, hello, at, now, dbOk) {
      HelloRefused(s, cfg, peer, hello, at, now, dbOk);
      SeatsOf(s, OnHello(s, cfg, peer, hello, at, now, dbOk).server);
    } else {
      var r := OnHello(s, cfg, peer, hello, at, now, dbOk).server;
      SeatedElsewhere(s, r, peer, r.identities[hello.identity], hello.identity, at.value, p);
    }
  }

  lemma SeatedElsewhere(s: ServerState, r: ServerState, peer: nat, player: nat, identity: Identity, conn: Transport.Conn, p: nat)
    requires SeatedOnly(s, r, peer, player, identity, conn) && peer !in s.sessions
    ensures p in s.sessions && p in r.sessions ==> r.sessions[p] == s.sessions[p].(generation := r.sessions[p].generation)
    ensures p !in s.sessions && p in r.sessions ==>
      r.sessions[p].snap == Recurrence.SnapCursor(None, 0, 0) && r.sessions[p].aoi.published == {}
  {
    if p in r.sessions && p != peer { assert p in r.sessions - {peer}; }
  }

  lemma SeatsOf(a: ServerState, b: ServerState)
    requires SameSeats(a, b)
    ensures a.sessions == b.sessions
  {
  }

  /** The session after a client state: at most its place and its interest block differ. */
  predicate OnlyMoved(a: Session, b: Session) {
    b == a.(cell := b.cell, center := b.center, aoi := a.aoi.(sub := b.aoi.sub))
  }

  lemma StateFrame(s: ServerState, cfg: Config, peer: nat, position: Option<(real, real)>, now: int)
    requires Inv(s, cfg) && cfg.cellSize > 0.0
    ensures
      var r := OnClientState(s, cfg, peer, position, now);
      && r.sessions.Keys == s.sessions.Keys && r.playerPeers == s.playerPeers && r.playerOrder == s.playerOrder
      && (forall p :: p in s.sessions ==> OnlyMoved(s.sessions[p], r.sessions[p]) && (p != peer ==> r.sessions[p] == s.sessions[p]))
      && (peer in s.sessions && r.sessions[peer].cell == s.sessions[peer].cell ==>
            r.sessions[peer].aoi == s.sessions[peer].aoi && r.aoiRecipients == s.aoiRecipients)
      && (peer !in s.sessions ==> r == s)
  {
    hide Inv, RateLimit.KeyedAllow, CellOf, Clamp, PlaceInCell, Block;
    if peer in s.sessions { CenterOfInv(s, cfg, peer); }
  }

  lemma CenterOfInv(s: ServerState, cfg: Config, peer: nat)
    requires Inv(s, cfg) && peer in s.sessions
    ensures s.sessions[peer].center == Some(s.sessions[peer].cell)
  {
    hide IndexesOk, PlacementOk, AwakeOk, GenerationsOk, FanoutOk, IdentitiesOk, AuthenticOk, DirtyFlush.Conserved, LimitersOk,
         Live, Tracks;
    assert Placed(s.sessions[peer], s.world.cellOf, cfg.radius);
  }

  lemma ChatSeats(s: ServerState, cfg: Config, peer: nat, within: bool, bytes: nat, now: int)
    ensures SameSeats(s, OnChat(s, cfg, peer, within, bytes, now))
  {
    hide RateLimit.KeyedAllow, Fanout.Capture, Live, PushChat;
  }

  lemma LeaveSeats(s: ServerState, peer: nat, refused: bool)
    ensures peer !in s.sessions ==> SameSeats(s, OnDisconnect(s, peer, refused))
  {
    hide Unregister, Departed;
  }

  lemma ClockSeats(s: ServerState, bytes: nat)
    ensures SameSeats(s, ClockTick(s, bytes))
  {
    hide Fanout.Capture, Live, PushClock;
  }

  /** The work of a delivery tick on each session: one visit if it is among the peers of the tick, nothing otherwise. */
  lemma {:induction false} VisitsFrame(s: ServerState, cfg: Config, peers: seq<nat>, moorings: map<nat, Aoi.Mooring>, down: set<nat>, p: nat)
    requires Inv(s, cfg) && Distinct(peers) && p in s.sessions
    ensures
      var r := AoiVisits(s, peers, moorings, down);
      && r.sessions.Keys == s.sessions.Keys && r.playerPeers == s.playerPeers && r.playerOrder == s.playerOrder
      && r.sessions[p] == (if p in peers then
                             Visited(s.sessions[p], Aoi.Visit(s.sessions[p].aoi, AoiEnv(s, moorings, p !in down)))
                           else s.sessions[p])
      && Whereabouts(r) == Whereabouts(s)
    decreases |peers|
  {
    hide Inv, AoiVisit, Visited, Aoi.Visit;
    if peers != [] {
      var env := AoiEnv(s, moorings, peers[0] !in down);
      var s1 := AoiVisit(s, peers[0], env);
      AoiVisitInv(s, cfg, peers[0], env);
      VisitFrame(s, peers[0], env);
      VisitsFrame(s1, cfg, peers[1..], moorings, down, p);
      assert p in peers <==> p == peers[0] || p in peers[1..];
    }
  }

  lemma VisitFrame(s: ServerState, peer: nat, env: Aoi.Env)
    ensures
      var r := AoiVisit(s, peer, env);
      && r.sessions.Keys == s.sessions.Keys && r.playerPeers == s.playerPeers && r.playerOrder == s.playerOrder
      && (forall p :: p in s.sessions && p != peer ==> r.sessions[p] == s.sessions[p])
      && (peer in s.sessions ==> r.sessions[peer] == Visited(s.sessions[peer], Aoi.Visit(s.sessions[peer].aoi, env)))
      && Whereabouts(r) == Whereabouts(s)
  {
    hide Aoi.Visit;
    assert Whereabouts(AoiVisit(s, peer, env)) == Whereabouts(s);
  }

  lemma {:induction false} VisitsPeople(s: ServerState, peers: seq<nat>, moorings: map<nat, Aoi.Mooring>, down: set<nat>)
    ensures
      var r := AoiVisits(s, peers, moorings, down);
      r.sessions.Keys == s.sessions.Keys && r.playerPeers == s.playerPeers && r.playerOrder == s.playerOrder
    decreases |peers|
  {
    hide AoiVisit, AoiEnv;
    if peers != [] {
      var env := AoiEnv(s, moorings, peers[0] !in down);
      VisitFrame(s, peers[0], env);
      VisitsPeople(AoiVisit(s, peers[0], env), peers[1..], moorings, down);
    }
  }

  lemma AoiTickPeople(s: ServerState, moorings: map<nat, Aoi.Mooring>, down: set<nat>)
    ensures
      var r := AoiTick(s, moorings, down);
      r.sessions.Keys == s.sessions.Keys && r.playerPeers == s.playerPeers && r.playerOrder == s.playerOrder
  {
    hide After, AoiVisits;
    var peers := AoiTurn(s);
    VisitsPeople(if peers == [] then s else s.(aoiCursor := Some(peers[|peers| - 1])), peers, moorings, down);
  }

  /** The peers a delivery tick visits. */
  function AoiTurn(s: ServerState): seq<nat> {
    After(s.aoiRecipients, s.aoiCursor, AOI_WORK_ITEMS_PER_TICK)
  }

  lemma AoiTickFrame(s: ServerState, cfg: Config, moorings: map<nat, Aoi.Mooring>, down: set<nat>, p: nat)
    requires Inv(s, cfg) && p in s.sessions
    ensures
      var r := AoiTick(s, moorings, down);
      && r.sessions.Keys == s.sessions.Keys && r.playerPeers == s.playerPeers && r.playerOrder == s.playerOrder
      && r.sessions[p] == (if p in AoiTurn(s) then
                             Visited(s.sessions[p], Aoi.Visit(s.sessions[p].aoi, AoiEnv(s, moorings, p !in down)))
                           else s.sessions[p])
  {
    hide Inv, After, AoiVisits, Visited, Aoi.Visit, Whereabouts;
    var peers := AoiTurn(s);
    var s1 := if peers == [] then s else s.(aoiCursor := Some(peers[|peers| - 1]));
    if peers != [] { InvCursor(s, cfg, Some(peers[|peers| - 1])); }
    WhereaboutsCursor(s, s1.aoiCursor);
    VisitsFrame(s1, cfg, peers, moorings, down, p);
  }

  lemma WhereaboutsCursor(s: ServerState, cursor: Option<nat>)
    ensures Whereabouts(s.(aoiCursor := cursor)) == Whereabouts(s)
  {
  }

  /** A snapshot tick moves snapshot cursors and nothing else of a session. */
  lemma SnapTickFrame(s: ServerState, cfg: Config)
    ensures
      var r := SnapTick(s, cfg).0;
      && r.sessions.Keys == s.sessions.Keys && r.playerPeers == s.playerPeers && r.playerOrder == s.playerOrder
      && r.aoiRecipients == s.aoiRecipients && r.aoiCursor == s.aoiCursor
      && (forall p :: p in s.sessions ==> r.sessions[p] == s.sessions[p].(snap := r.sessions[p].snap))
  {
    hide Snapshots.Broadcast, Scene, SnapView;
  }

  /** Operations that touch no seat at all, whatever happens. */
  predicate Seatless(op: Op) {
    op.ChatOp? || op.FanOp? || op.ClockOp? || op.FlushOp? || op.CadenceOp? || op.ShutdownOp?
  }

  lemma SeatlessFrame(s: ServerState, cfg: Config, op: Op)
    requires Seatless(op) && OpOk(op, cfg) && Fanout.FanOk(s.fan) && cfg.cellSize > 0.0
    ensures SameSeats(s, Step(s, cfg, op))
  {
    hide Fanout.FanOk, Fanout.Process, OnChat, ClockTick, DirtyFlush.Tick, DirtyFlush.FlushAll, Live;
    match op
    case ChatOp(peer, within, bytes, now) => ChatSeats(s, cfg, peer, within, bytes, now);
    case ClockOp(bytes) => ClockSeats(s, bytes);
    case _ =>
  }

  /** While nobody comes or goes, everybody stays who they are, and only a snapshot tick moves a snapshot cursor. */
  lemma StepPeople(s: ServerState, cfg: Config, op: Op)
    requires Inv(s, cfg) && OpOk(op, cfg) && Fanout.FanOk(s.fan) && cfg.cellSize > 0.0
    requires Step(s, cfg, op).sessions.Keys == s.sessions.Keys
    ensures
      var r := Step(s, cfg, op);
      && r.playerPeers == s.playerPeers && r.playerOrder == s.playerOrder
      && (forall p :: p in s.sessions ==> r.sessions[p].player == s.sessions[p].player)
      && (!op.SnapOp? ==> forall p :: p in s.sessions ==> r.sessions[p].snap == s.sessions[p].snap)
  {
    hide Inv, OnHello, OnClientState, OnChat, OnDisconnect, AoiTick, SnapTick, FanTick, ClockTick, Fanout.FanOk, Aoi.Visit, AoiTurn,
         DirtyFlush.Tick, DirtyFlush.FlushAll;
    match op
    case HelloOp(peer, hello, at, now, dbOk) => HelloElsewhere(s, cfg, peer, hello, at, now, dbOk, peer);
    case StateOp(peer, position, now) => StateFrame(s, cfg, peer, position, now);
    case LeaveOp(peer, refused) =>
      DisconnectInv(s, cfg, peer, refused);
      LeaveSeats(s, peer, refused);
    case AoiOp(moorings, down) =>
      AoiTickPeople(s, moorings, down);
      forall p | p in s.sessions
        ensures Step(s, cfg, op).sessions[p].player == s.sessions[p].player && Step(s, cfg, op).sessions[p].snap == s.sessions[p].snap
      {
        AoiTickFrame(s, cfg, moorings, down, p);
      }
    case SnapOp => SnapTickFrame(s, cfg);
    case _ => SeatlessFrame(s, cfg, op);
  }
}
