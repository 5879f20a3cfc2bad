/** The session server over whole runs: every message and tick keeps the invariants of `ServerInvariants`. */
module ServerRuns {
  import opened Options
  import opened OrderedSets
  import opened Wire
  import opened World
  import RateLimit
  import Transport
  import Snapshots
  import Aoi
  import Fanout
  import DirtyFlush
  import opened Server
  import opened ServerInvariants

  // ----- Hello

  lemma InvLimiters(s: ServerState, cfg: Config, l: Limiters)
    requires Inv(s, cfg) && LimitersOk(l, cfg)
    ensures Inv(s.(limiters := l), cfg)
  {
    hide IndexesOk, PlacedOk, AwakeOk, GenerationsOk, FanoutOk, IdentitiesOk, AuthenticOk, DirtyFlush.Conserved,
         LimitersOk, Live, Tracks;
  }

  lemma LimitersOfInv(s: ServerState, cfg: Config)
    requires Inv(s, cfg)
    ensures LimitersOk(s.limiters, cfg) && IdentitiesOk(s.identities, s.db) && ConfigOk(cfg)
  {
    hide IndexesOk, PlacedOk, AwakeOk, GenerationsOk, FanoutOk, IdentitiesOk, AuthenticOk, DirtyFlush.Conserved,
         LimitersOk, Live, Tracks;
  }

  lemma InvIdentity(s: ServerState, cfg: Config, identity: Identity, player: nat, db: Db)
    requires Inv(s, cfg) && identity !in s.identities && IdentitiesOk(s.identities[identity := player], db)
    ensures Inv(s.(identities := s.identities[identity := player], db := db), cfg)
  {
    hide IndexesOk, PlacedOk, AwakeOk, GenerationsOk, FanoutOk, IdentitiesOk, AuthenticOk, DirtyFlush.Conserved,
         LimitersOk, Live, Tracks;
    AuthenticGrows(s.sessions, s.identities, identity, player);
  }

  /** What a hello may do to the sessions: nothing, or seat exactly one player, evicting its previous peer. */
  ghost predicate HelloEffect(s: ServerState, r: Handled, peer: nat, hello: Hello, at: Option<Transport.Conn>) {
    || (r.evicted.None? && r.server.sessions == s.sessions)
    || (at.Some? && peer !in s.sessions && hello.wellFormed
        && hello.identity in r.server.identities
        && r.evicted == Superseded(s, r.server.identities[hello.identity], peer)
        && SeatedOnly(s, r.server, peer, r.server.identities[hello.identity], hello.identity, at.value))
  }

  /** When a hello from a peer without a session is granted one. */
  ghost predicate Granted(s: ServerState, cfg: Config, peer: nat, hello: Hello, at: Option<Transport.Conn>, now: int, dbOk: bool) {
    && !RateLimit.Recent(s.limiters.hello, cfg.helloMs, peer, now)
    && hello.wellFormed && at.Some? && dbOk
    && MayJoin(s.limiters, cfg, at.value.addr.ip, Known(s, hello.identity), now)
    && (hello.identity in s.identities || |s.identities| < cfg.maxPlayerRows)
  }

  /** The player whose identity this is, if it has joined before. */
  function Known(s: ServerState, identity: Identity): Option<nat> {
    if identity in s.identities then Some(s.identities[identity]) else None
  }

  /** What the limits say to a hello, once its peer's own throttle let it through. */
  lemma LimitsOfHello(s: ServerState, cfg: Config, peer: nat, identity: Identity, source: nat, now: int)
    requires LimitersOk(s.limiters, cfg) && ConfigOk(cfg)
    ensures
      var (allowed, ok) := RateLimit.KeyedAllow(s.limiters.hello, cfg.helloMs, peer, now);
      var (r, pass) := PassLimits(s.limiters.(hello := allowed), cfg, source, Known(s, identity), now);
      && (ok <==> !RateLimit.Recent(s.limiters.hello, cfg.helloMs, peer, now))
      && allowed == (if ok then s.limiters.hello[peer := now] else s.limiters.hello)
      && (pass <==> MayJoin(s.limiters, cfg, source, Known(s, identity), now))
      && LimitsCharged(s.limiters.(hello := allowed), r, cfg, source, Known(s, identity), now)
      && LimitersOk(r, cfg) && r.hello == allowed
  {
    hide RateLimit.KeyedAllow, LimitersOk, PassLimits, RateLimit.Saturated, RateLimit.Charged;
    RateLimit.KeyedAdmitsIff(s.limiters.hello, cfg.helloMs, peer, now);
    var l := s.limiters.(hello := RateLimit.KeyedAllow(s.limiters.hello, cfg.helloMs, peer, now).0);
    LimitersFrame(s.limiters, l, cfg);
    PassLimitsIff(l, cfg, source, Known(s, identity), now);
    PassLimitsOk(l, cfg, source, Known(s, identity), now);
  }

  lemma RecentIff(log: map<nat, int>, interval: int, key: nat, now: int)
    ensures RateLimit.Recent(log, interval, key, now) <==> key in log && now - log[key] < interval
  {
  }

  /** The admitted identity, indexed, with the limiters already charged. */
  lemma AdmittedHello(s: ServerState, cfg: Config, peer: nat, identity: Identity, conn: Transport.Conn)
    requires Inv(s, cfg) && peer !in s.sessions && 1 <= peer <= cfg.maxPeers
    requires identity in s.identities
    ensures
      var player := s.identities[identity];
      var r := Seat(s, cfg, peer, player, identity, conn);
      Inv(r, cfg) && SeatedOnly(s, r, peer, player, identity, conn) && r.identities == s.identities && peer in r.sessions
  {
    hide Inv, Seat, OnlyGenerations;
    LimitersOfInv(s, cfg);
    SeatCore(s, cfg, peer, s.identities[identity], identity, conn);
  }

  lemma SeatedFrame(s: ServerState, s': ServerState, r: ServerState, peer: nat, player: nat, identity: Identity, conn: Transport.Conn)
    requires SeatedOnly(s', r, peer, player, identity, conn)
    requires s'.sessions == s.sessions && s'.playerPeers == s.playerPeers
    ensures SeatedOnly(s, r, peer, player, identity, conn) && Superseded(s', player, peer) == Superseded(s, player, peer)
  {
    hide OnlyGenerations;
  }

  /** The server and its outcome for a hello that passed the limits and whose row the database admitted. */
  lemma HelloAdmitted(s: ServerState, cfg: Config, peer: nat, hello: Hello, conn: Transport.Conn, now: int, dbOk: bool)
    requires Inv(s, cfg) && peer !in s.sessions && 1 <= peer <= cfg.maxPeers && hello.wellFormed
    requires !RateLimit.Recent(s.limiters.hello, cfg.helloMs, peer, now)
    ensures
      var r := OnHello(s, cfg, peer, hello, Some(conn), now, dbOk);
      && Inv(r.server, cfg) && HelloEffect(s, r, peer, hello, Some(conn))
      && (peer in r.server.sessions <==> Granted(s, cfg, peer, hello, Some(conn), now, dbOk))
  {
    hide Inv, Seat, SeatedOnly, LimitersOk, IdentitiesOk, RateLimit.KeyedAllow, RateLimit.BoundedAllow, PassLimits, Server.Admit,
         MayJoin, LimitsCharged, RateLimit.Recent;
    LimitersOfInv(s, cfg);
    var l1 := s.limiters.(hello := RateLimit.KeyedAllow(s.limiters.hello, cfg.helloMs, peer, now).0);
    var known := Known(s, hello.identity);
    LimitsOfHello(s, cfg, peer, hello.identity, conn.addr.ip, now);
    var (l2, pass) := PassLimits(l1, cfg, conn.addr.ip, known, now);
    InvLimiters(s, cfg, l2);
    var s2 := s.(limiters := l2);
    AdmitAgrees(s.identities, s.db, hello.identity, cfg.maxPlayerRows);
    var admission := Server.Admit(s.db, hello.identity, cfg.maxPlayerRows);
    if pass && dbOk && admission.Admitted? {
      if known.Some? {
        AdmittedHello(s2, cfg, peer, hello.identity, conn);
        SeatedFrame(s, s2, Seat(s2, cfg, peer, known.value, hello.identity, conn), peer, known.value, hello.identity, conn);
      } else {
        var player := admission.player;
        InvIdentity(s2, cfg, hello.identity, player, admission.db);
        ReconnectOk(l2, cfg, player, now);
        var l3 := l2.(reconnect := RateLimit.BoundedAllow(l2.reconnect, cfg.helloMs, cfg.reconnectKeys, player, now).0);
        var s3 := s2.(identities := s.identities[hello.identity := player], db := admission.db);
        InvLimiters(s3, cfg, l3);
        var s4 := s3.(limiters := l3);
        AdmittedHello(s4, cfg, peer, hello.identity, conn);
        SeatedFrame(s, s4, Seat(s4, cfg, peer, player, hello.identity, conn), peer, player, hello.identity, conn);
      }
    }
  }

  /** Every hello keeps every invariant, and gets its peer a session if and only if it has one or is granted one. */
  lemma HelloInv(s: ServerState, cfg: Config, peer: nat, hello: Hello, at: Option<Transport.Conn>, now: int, dbOk: bool)
    requires Inv(s, cfg) && 1 <= peer <= cfg.maxPeers
    ensures
      var r := OnHello(s, cfg, peer, hello, at, now, dbOk);
      && Inv(r.server, cfg) && HelloEffect(s, r, peer, hello, at)
      && (peer in r.server.sessions <==> peer in s.sessions || Granted(s, cfg, peer, hello, at, now, dbOk))
  {
    hide Inv, Seat, SeatedOnly, LimitersOk, IdentitiesOk, RateLimit.KeyedAllow, RateLimit.BoundedAllow, PassLimits, Server.Admit,
         MayJoin, RateLimit.Recent;
    LimitersOfInv(s, cfg);
    RateLimit.KeyedAdmitsIff(s.limiters.hello, cfg.helloMs, peer, now);
    RecentIff(s.limiters.hello, cfg.helloMs, peer, now);
    var (allowed, ok) := RateLimit.KeyedAllow(s.limiters.hello, cfg.helloMs, peer, now);
    if ok {
      if !hello.wellFormed || peer in s.sessions || at.None? {
        var l1 := s.limiters.(hello := allowed);
        LimitersFrame(s.limiters, l1, cfg);
        InvLimiters(s, cfg, l1);
      } else {
        HelloAdmitted(s, cfg, peer, hello, at.value, now, dbOk);
      }
    }
  }

  // ----- Movement, chat and departure

  lemma IndexesTouch(sessions: map<nat, Session>, playerPeers: map<nat, nat>, playerOrder: set<nat>, snapRecipients: set<nat>,
                     aoiRecipients: set<nat>, maxPeers: nat, peer: nat, session: Session, aoiRecipients': set<nat>)
    requires IndexesOk(sessions, playerPeers, playerOrder, snapRecipients, aoiRecipients, maxPeers)
    requires peer in sessions && session.player == sessions[peer].player && aoiRecipients' <= aoiRecipients + {peer}
    ensures IndexesOk(sessions[peer := session], playerPeers, playerOrder, snapRecipients, aoiRecipients', maxPeers)
  {
  }

  /** The same session still: whoever captured it, counted it or authenticated it sees no difference. */
  predicate SameSession(a: Session, b: Session) {
    && a.generation == b.generation && a.serial == b.serial && a.player == b.player
    && a.identity == b.identity && a.conn == b.conn
  }

  lemma GenerationsTouch(sessions: map<nat, Session>, nextGen: nat, nextSerial: nat, identities: map<Identity, nat>, peer: nat, session: Session)
    requires peer in sessions && SameSession(sessions[peer], session)
    ensures GenerationsOk(sessions, nextGen, nextSerial) ==> GenerationsOk(sessions[peer := session], nextGen, nextSerial)
    ensures AuthenticOk(sessions, identities) ==> AuthenticOk(sessions[peer := session], identities)
    ensures SameListeners(Live(sessions), Live(sessions[peer := session]))
  {
  }

  lemma OtherPlayers(sessions: map<nat, Session>, playerPeers: map<nat, nat>, playerOrder: set<nat>, snapRecipients: set<nat>,
                     aoiRecipients: set<nat>, maxPeers: nat, peer: nat)
    requires IndexesOk(sessions, playerPeers, playerOrder, snapRecipients, aoiRecipients, maxPeers) && peer in sessions
    ensures forall p :: p in sessions && p != peer ==> sessions[p].player != sessions[peer].player
    ensures sessions[peer].player in playerPeers
  {
  }

  lemma PlacedMove(sessions: map<nat, Session>, world: Placement, radius: nat, peer: nat, session: Session)
    requires PlacedOk(sessions, world, radius) && peer in sessions && session.player == sessions[peer].player
    requires forall p :: p in sessions && p != peer ==> sessions[p].player != session.player
    requires session.center == Some(session.cell) && session.aoi.sub == Block(session.cell, radius)
    ensures PlacedOk(sessions[peer := session], PlaceInCell(world, session.player, session.cell), radius)
    ensures PlaceInCell(world, session.player, session.cell).cellOf == world.cellOf[session.player := session.cell]
  {
    hide PlacementOk, PlaceInCell;
    PlaceOk(world, session.player, session.cell);
  }

  /** A movement wakes the session whenever it gives it work, so no wakeup is lost. */
  lemma AwakeMove(sessions: map<nat, Session>, aoiRecipients: set<nat>, peer: nat, session: Session, aoiRecipients': set<nat>)
    requires AwakeOk(sessions, aoiRecipients) && peer in sessions
    requires session.aoi == sessions[peer].aoi.(sub := session.aoi.sub) && session.mirror == sessions[peer].mirror
    requires aoiRecipients <= aoiRecipients'
    requires session.aoi.sub == sessions[peer].aoi.sub || peer in aoiRecipients'
    ensures AwakeOk(sessions[peer := session], aoiRecipients')
  {
  }

  lemma MovedInv(s: ServerState, cfg: Config, peer: nat, cell: Cell)
    requires Inv(s, cfg) && peer in s.sessions
    ensures Inv(Moved(s, cfg, peer, cell), cfg)
    ensures Moved(s, cfg, peer, cell).sessions.Keys == s.sessions.Keys
    ensures forall p :: p in s.sessions ==> SameSession(s.sessions[p], Moved(s, cfg, peer, cell).sessions[p])
  {
    hide IndexesOk, PlacementOk, AwakeOk, GenerationsOk, FanoutOk, IdentitiesOk, AuthenticOk, DirtyFlush.Conserved,
         LimitersOk, Live, PlaceInCell, DirtyFlush.Mark, SameListeners;
    var r := Moved(s, cfg, peer, cell);
    var session := r.sessions[peer];
    OtherPlayers(s.sessions, s.playerPeers, s.playerOrder, s.snapRecipients, s.aoiRecipients, cfg.maxPeers, peer);
    IndexesTouch(s.sessions, s.playerPeers, s.playerOrder, s.snapRecipients, s.aoiRecipients, cfg.maxPeers, peer, session, r.aoiRecipients);
    assert Placed(s.sessions[peer], s.world.cellOf, cfg.radius);
    PlacedMove(s.sessions, s.world, cfg.radius, peer, session);
    AwakeMove(s.sessions, s.aoiRecipients, peer, session, r.aoiRecipients);
    GenerationsTouch(s.sessions, s.nextGen, s.nextSerial, s.identities, peer, session);
    FanoutFrame(s.fan, Live(s.sessions), Live(r.sessions), s.nextGen, s.heard);
    MarkConserves(s.flush, s.unsaved, session.player);
    assert s.world.cellOf[session.player := session.cell].Keys == s.world.cellOf.Keys;
  }

  /** The same sessions, each still itself. */
  ghost predicate SameSessions(a: map<nat, Session>, b: map<nat, Session>) {
    a.Keys == b.Keys && forall p :: p in a ==> SameSession(a[p], b[p])
  }

  lemma ClientStateInv(s: ServerState, cfg: Config, peer: nat, position: Option<(real, real)>, now: int)
    requires Inv(s, cfg)
    ensures Inv(OnClientState(s, cfg, peer, position, now), cfg)
    ensures SameSessions(s.sessions, OnClientState(s, cfg, peer, position, now).sessions)
  {
    hide Inv, Moved, RateLimit.KeyedAllow, CellOf, Clamp, LimitersOk, IdentitiesOk;
    LimitersOfInv(s, cfg);
    if peer in s.sessions {
      var l1 := s.limiters.(clientState := RateLimit.KeyedAllow(s.limiters.clientState, cfg.clientStateMs, s.sessions[peer].player, now).0);
      LimitersFrame(s.limiters, l1, cfg);
      InvLimiters(s, cfg, l1);
      if position.Some? {
        MovedInv(s.(limiters := l1), cfg, peer, CellOf(Clamp(position.value.0), Clamp(position.value.1), cfg.cellSize));
      }
    }
  }

  lemma InvFan(s: ServerState, cfg: Config, fan: Fanout.FanState, heard: seq<Fanout.Delivery>)
    requires Inv(s, cfg) && FanoutOk(fan, Live(s.sessions), s.nextGen, heard)
    ensures Inv(s.(fan := fan, heard := heard), cfg)
  {
    hide IndexesOk, PlacedOk, AwakeOk, GenerationsOk, FanoutOk, IdentitiesOk, AuthenticOk, DirtyFlush.Conserved,
         LimitersOk, Live, Tracks;
  }

  /** What fanout needs to know of the sessions. */
  lemma FanoutOfInv(s: ServerState, cfg: Config)
    requires Inv(s, cfg)
    ensures FanoutOk(s.fan, Live(s.sessions), s.nextGen, s.heard)
    ensures ListenersBelow(Live(s.sessions), s.nextGen)
    ensures |Live(s.sessions)| <= Fanout.DEFAULT_MAX_PEERS
  {
    hide IndexesOk, PlacedOk, AwakeOk, FanoutOk, IdentitiesOk, AuthenticOk, DirtyFlush.Conserved, LimitersOk, Tracks;
    SessionsFit(s, cfg);
    assert Live(s.sessions).Keys == s.sessions.Keys;
    assert |Live(s.sessions)| == |Live(s.sessions).Keys| && |s.sessions| == |s.sessions.Keys|;
  }

  lemma ChatInv(s: ServerState, cfg: Config, peer: nat, withinLimit: bool, bytes: nat, now: int)
    requires Inv(s, cfg)
    ensures Inv(OnChat(s, cfg, peer, withinLimit, bytes, now), cfg)
    ensures OnChat(s, cfg, peer, withinLimit, bytes, now).sessions == s.sessions
  {
    hide Inv, FanoutOk, Live, Fanout.Capture, Fanout.FreshCapture, PushChat, RateLimit.KeyedAllow, LimitersOk, IdentitiesOk, ListenersBelow;
    LimitersOfInv(s, cfg);
    FanoutOfInv(s, cfg);
    if peer in s.sessions && |s.fan.chats| < Fanout.CHAT_QUEUE_ITEMS {
      var l1 := s.limiters.(chat := RateLimit.KeyedAllow(s.limiters.chat, cfg.chatMs, s.sessions[peer].player, now).0);
      LimitersFrame(s.limiters, l1, cfg);
      InvLimiters(s, cfg, l1);
      var s1 := s.(limiters := l1);
      if bytes <= Fanout.PAYLOAD_MAX {
        CaptureOk(s.fan, Live(s.sessions), s.nextGen, s.heard);
        var (f, audience) := Fanout.Capture(s.fan, Live(s.sessions));
        InvFan(s1, cfg, f, s.heard);
        if audience.Some? {
          PushChatOk(f, Live(s.sessions), s.nextGen, s.heard, bytes, s.sessions[peer].cell, audience.value);
          InvFan(s1, cfg, PushChat(f, bytes, s.sessions[peer].cell, audience.value), s.heard);
        }
      }
    }
  }

  lemma ClockInv(s: ServerState, cfg: Config, bytes: nat)
    requires Inv(s, cfg)
    ensures Inv(ClockTick(s, bytes), cfg) && ClockTick(s, bytes).sessions == s.sessions
  {
    hide Inv, FanoutOk, Live, Fanout.Capture, Fanout.FreshCapture, PushClock, ListenersBelow;
    FanoutOfInv(s, cfg);
    var f0 := s.fan.(clock := None);
    ClockDropped(s.fan, Live(s.sessions), s.nextGen, s.heard);
    CaptureOk(f0, Live(s.sessions), s.nextGen, s.heard);
    var (f, audience) := Fanout.Capture(f0, Live(s.sessions));
    InvFan(s, cfg, f, s.heard);
    if audience.Some? {
      PushClockOk(f, Live(s.sessions), s.nextGen, s.heard, bytes, audience.value);
      InvFan(s, cfg, PushClock(f, bytes, audience.value), s.heard);
    }
  }

  lemma ClockDropped(fan: Fanout.FanState, live: map<nat, Fanout.Listener>, nextGen: nat, heard: seq<Fanout.Delivery>)
    requires FanoutOk(fan, live, nextGen, heard)
    ensures FanoutOk(fan.(clock := None), live, nextGen, heard) && |fan.chats| <= Fanout.CHAT_QUEUE_ITEMS
  {
    hide Fanout.LogSound, Fanout.FreshCapture, Fanout.TotalBytes;
  }

  lemma FanTickInv(s: ServerState, cfg: Config, scans: nat, sends: nat)
    requires Inv(s, cfg)
    ensures Fanout.FanOk(s.fan)
    ensures Inv(FanTick(s, scans, sends), cfg) && FanTick(s, scans, sends).sessions == s.sessions
  {
    hide Inv, Live, Fanout.Process, Fanout.FanOk, Fanout.LogOk, Fanout.QueuesFaithful, ListenersBelow;
    FanoutOfInv(s, cfg);
    Fanout.ProcessOk(s.fan, Live(s.sessions), scans, sends);
    Fanout.ProcessKeepsLog(s.heard, s.fan, Live(s.sessions), s.nextGen, scans, sends);
    var w := Fanout.Process(s.fan, Live(s.sessions), scans, sends);
    InvFan(s, cfg, w.state, s.heard + w.delivered);
  }

  lemma PlacedWithout(sessions: map<nat, Session>, world: Placement, radius: nat, player: nat)
    requires PlacedOk(sessions, world, radius) && forall p :: p in sessions ==> sessions[p].player != player
    ensures PlacedOk(sessions, RemoveEntity(world, player), radius)
    ensures RemoveEntity(world, player).cellOf.Keys == world.cellOf.Keys - {player}
  {
    hide PlacementOk, RemoveEntity;
    RemoveOk(world, player);
  }

  lemma LeaveConserves(f: DirtyFlush.FlushState, player: nat, refused: bool, unsaved: set<nat>)
    requires DirtyFlush.Conserved(f, unsaved)
    ensures
      var w := DirtyFlush.Leave(f, player, refused);
      DirtyFlush.Conserved(w.state, unsaved - DirtyFlush.Ids(w.saved))
  {
    hide DirtyFlush.Leave;
    DirtyFlush.DoConserves(f, DirtyFlush.LeaveOp(player, refused), unsaved);
  }

  lemma DepartInv(u: ServerState, cfg: Config, player: nat, refused: bool)
    requires ConfigOk(cfg) && Core(u, cfg) && u.world.cellOf.Keys - {player} == u.playerPeers.Keys
    requires forall p :: p in u.sessions ==> u.sessions[p].player != player
    ensures Inv(Departed(u, player, refused), cfg) && Departed(u, player, refused).sessions == u.sessions
  {
    hide IndexesOk, PlacedOk, AwakeOk, GenerationsOk, FanoutOk, IdentitiesOk, AuthenticOk, DirtyFlush.Conserved,
         LimitersOk, Live, RemoveEntity, DirtyFlush.Leave, DirtyFlush.Ids;
    PlacedWithout(u.sessions, u.world, cfg.radius, player);
    LeaveConserves(u.flush, player, refused, u.unsaved);
    LimitersFrame(u.limiters, Departed(u, player, refused).limiters, cfg);
  }

  lemma UnregisterFrame(s: ServerState, peer: nat)
    ensures
      var r := Unregister(s, peer);
      r.sessions == s.sessions - {peer} && r.world == s.world
  {
    if peer !in s.sessions { assert s.sessions - {peer} == s.sessions; }
  }

  lemma TracksOfInv(s: ServerState, cfg: Config)
    requires Inv(s, cfg)
    ensures Core(s, cfg) && s.world.cellOf.Keys == s.playerPeers.Keys
  {
    hide Core;
  }

  lemma SeatedDisconnectInv(s: ServerState, cfg: Config, peer: nat, refused: bool)
    requires Inv(s, cfg) && peer in s.sessions
    ensures
      var r := Departed(Unregister(s, peer), s.sessions[peer].player, refused);
      Inv(r, cfg) && r.sessions == s.sessions - {peer}
  {
    hide Inv, Core, Unregister, Departed, ConfigOk, LimitersOk, IdentitiesOk;
    LimitersOfInv(s, cfg);
    TracksOfInv(s, cfg);
    UnregisterCore(s, cfg, peer);
    UnregisterFrame(s, peer);
    var u := Unregister(s, peer);
    assert u.world.cellOf.Keys - {s.sessions[peer].player} == u.playerPeers.Keys;
    DepartInv(u, cfg, s.sessions[peer].player, refused);
  }

  lemma DisconnectInv(s: ServerState, cfg: Config, peer: nat, refused: bool)
    requires Inv(s, cfg)
    ensures Inv(OnDisconnect(s, peer, refused), cfg)
    ensures OnDisconnect(s, peer, refused).sessions == s.sessions - {peer}
  {
    hide Inv, Unregister, Departed, ConfigOk, LimitersOk, IdentitiesOk;
    var s1 := s.(limiters := s.limiters.(hello := s.limiters.hello - {peer}));
    LimitersOfInv(s, cfg);
    LimitersFrame(s.limiters, s1.limiters, cfg);
    InvLimiters(s, cfg, s1.limiters);
    if peer in s.sessions {
      SeatedDisconnectInv(s1, cfg, peer, refused);
    } else {
      assert s.sessions - {peer} == s.sessions;
    }
  }

  // ----- Ticks

  /** The session with other delivery state, for the same interest block. */
  predicate OnlyDelivery(a: Session, b: Session) {
    b == a.(aoi := b.aoi, mirror := b.mirror) && b.aoi.sub == a.aoi.sub
  }

  lemma PlacedRework(sessions: map<nat, Session>, world: Placement, radius: nat, peer: nat, session: Session)
    requires PlacedOk(sessions, world, radius) && peer in sessions && OnlyDelivery(sessions[peer], session)
    ensures PlacedOk(sessions[peer := session], world, radius)
  {
    hide PlacementOk;
  }

  lemma AwakeRework(sessions: map<nat, Session>, aoiRecipients: set<nat>, peer: nat, session: Session)
    requires AwakeOk(sessions, aoiRecipients) && peer in sessions && DeliveryOk(session)
    ensures AwakeOk(sessions[peer := session],
                    if Aoi.HasWork(session.aoi) then aoiRecipients - {peer} + {peer} else aoiRecipients - {peer})
  {
    hide DeliveryOk, Aoi.HasWork;
  }

  lemma LiveRework(sessions: map<nat, Session>, peer: nat, session: Session)
    requires peer in sessions && OnlyDelivery(sessions[peer], session)
    ensures Live(sessions[peer := session]) == Live(sessions)
  {
  }

  /** A visit keeps the session's delivery consistent and its client's mirror exact. */
  lemma VisitedOk(session: Session, env: Aoi.Env)
    requires DeliveryOk(session)
    ensures
      var v := Aoi.Visit(session.aoi, env);
      && OnlyDelivery(session, Visited(session, v)) && DeliveryOk(Visited(session, v))
      && (v.more <==> Aoi.HasWork(v.state))
  {
    hide Aoi.Visit, Aoi.AoiOk, Aoi.HasWork, Aoi.Mirror;
    Aoi.VisitOk(session.aoi, env);
    Aoi.VisitMirror(session.aoi, env);
  }

  lemma AoiVisitInv(s: ServerState, cfg: Config, peer: nat, env: Aoi.Env)
    requires Inv(s, cfg)
    ensures Inv(AoiVisit(s, peer, env), cfg) && SameSessions(s.sessions, AoiVisit(s, peer, env).sessions)
  {
    hide IndexesOk, PlacedOk, AwakeOk, GenerationsOk, FanoutOk, IdentitiesOk, AuthenticOk, DirtyFlush.Conserved,
         LimitersOk, Live, Aoi.Visit, Aoi.HasWork, DeliveryOk, Aoi.Mirror, Tracks, SameListeners;
    if peer in s.sessions {
      DeliveryOfSession(s.sessions, s.aoiRecipients, peer);
      VisitedOk(s.sessions[peer], env);
      var session := Visited(s.sessions[peer], Aoi.Visit(s.sessions[peer].aoi, env));
      var r := AoiVisit(s, peer, env);
      IndexesTouch(s.sessions, s.playerPeers, s.playerOrder, s.snapRecipients, s.aoiRecipients, cfg.maxPeers, peer, session, r.aoiRecipients);
      PlacedRework(s.sessions, s.world, cfg.radius, peer, session);
      AwakeRework(s.sessions, s.aoiRecipients, peer, session);
      GenerationsTouch(s.sessions, s.nextGen, s.nextSerial, s.identities, peer, session);
      LiveRework(s.sessions, peer, session);
    } else {
      SleeperIsAbsent(s, cfg, peer);
    }
  }

  lemma DeliveryOfSession(sessions: map<nat, Session>, aoiRecipients: set<nat>, peer: nat)
    requires AwakeOk(sessions, aoiRecipients) && peer in sessions
    ensures DeliveryOk(sessions[peer])
  {
  }

  lemma SleeperIsAbsent(s: ServerState, cfg: Config, peer: nat)
    requires IndexesOk(s.sessions, s.playerPeers, s.playerOrder, s.snapRecipients, s.aoiRecipients, cfg.maxPeers)
    requires peer !in s.sessions
    ensures s.aoiRecipients - {peer} == s.aoiRecipients
  {
  }

  lemma SameSessionsThen(a: map<nat, Session>, b: map<nat, Session>, c: map<nat, Session>)
    requires SameSessions(a, b) && SameSessions(b, c)
    ensures SameSessions(a, c)
  {
  }

  lemma {:induction false} AoiVisitsInv(s: ServerState, cfg: Config, peers: seq<nat>, moorings: map<nat, Aoi.Mooring>, down: set<nat>)
    requires Inv(s, cfg)
    ensures
      var r := AoiVisits(s, peers, moorings, down);
      Inv(r, cfg) && SameSessions(s.sessions, r.sessions)
    decreases |peers|
  {
    hide Inv, AoiVisit, AoiEnv;
    if peers != [] {
      var env := AoiEnv(s, moorings, peers[0] !in down);
      AoiVisitInv(s, cfg, peers[0], env);
      var s1 := AoiVisit(s, peers[0], env);
      AoiVisitsInv(s1, cfg, peers[1..], moorings, down);
      SameSessionsThen(s.sessions, s1.sessions, AoiVisits(s1, peers[1..], moorings, down).sessions);
    }
  }

  lemma InvCursor(s: ServerState, cfg: Config, cursor: Option<nat>)
    requires Inv(s, cfg)
    ensures Inv(s.(aoiCursor := cursor), cfg)
  {
    hide IndexesOk, PlacedOk, AwakeOk, GenerationsOk, FanoutOk, IdentitiesOk, AuthenticOk, DirtyFlush.Conserved,
         LimitersOk, Live, Tracks;
  }

  lemma AoiTickInv(s: ServerState, cfg: Config, moorings: map<nat, Aoi.Mooring>, down: set<nat>)
    requires Inv(s, cfg)
    ensures Inv(AoiTick(s, moorings, down), cfg) && SameSessions(s.sessions, AoiTick(s, moorings, down).sessions)
  {
    hide Inv, AoiVisits, After;
    var peers := After(s.aoiRecipients, s.aoiCursor, AOI_WORK_ITEMS_PER_TICK);
    if peers == [] {
      AoiVisitsInv(s, cfg, peers, moorings, down);
    } else {
      InvCursor(s, cfg, Some(peers[|peers| - 1]));
      AoiVisitsInv(s.(aoiCursor := Some(peers[|peers| - 1])), cfg, peers, moorings, down);
    }
  }

  /** The sessions with other snapshot cursors. */
  lemma SnapFrame(a: map<nat, Session>, b: map<nat, Session>, playerPeers: map<nat, nat>, playerOrder: set<nat>,
                  snapRecipients: set<nat>, aoiRecipients: set<nat>, maxPeers: nat, world: Placement, radius: nat)
    requires a.Keys == b.Keys && forall p :: p in a ==> b[p] == a[p].(snap := b[p].snap)
    ensures IndexesOk(a, playerPeers, playerOrder, snapRecipients, aoiRecipients, maxPeers) ==>
            IndexesOk(b, playerPeers, playerOrder, snapRecipients, aoiRecipients, maxPeers)
    ensures AwakeOk(a, aoiRecipients) ==> AwakeOk(b, aoiRecipients)
    ensures PlacedOk(a, world, radius) ==> PlacedOk(b, world, radius)
  {
    hide Aoi.AoiOk, Aoi.HasWork, PlacementOk;
  }

  lemma SnapFrame2(a: map<nat, Session>, b: map<nat, Session>, nextGen: nat, nextSerial: nat, identities: map<Identity, nat>)
    requires a.Keys == b.Keys && forall p :: p in a ==> b[p] == a[p].(snap := b[p].snap)
    ensures GenerationsOk(a, nextGen, nextSerial) ==> GenerationsOk(b, nextGen, nextSerial)
    ensures AuthenticOk(a, identities) ==> AuthenticOk(b, identities)
    ensures Live(a) == Live(b)
  {
  }

  lemma SnapTickInv(s: ServerState, cfg: Config)
    requires Inv(s, cfg)
    ensures Inv(SnapTick(s, cfg).0, cfg) && SameSessions(s.sessions, SnapTick(s, cfg).0.sessions)
  {
    hide IndexesOk, PlacedOk, AwakeOk, GenerationsOk, FanoutOk, IdentitiesOk, AuthenticOk, DirtyFlush.Conserved,
         LimitersOk, Live, Tracks, Snapshots.Broadcast, Scene, SnapView;
    var r := SnapTick(s, cfg).0;
    SnapFrame(s.sessions, r.sessions, s.playerPeers, s.playerOrder, s.snapRecipients, s.aoiRecipients, cfg.maxPeers, s.world, cfg.radius);
    SnapFrame2(s.sessions, r.sessions, s.nextGen, s.nextSerial, s.identities);
  }

  lemma InvFlush(s: ServerState, cfg: Config, flush: DirtyFlush.FlushState, unsaved: set<nat>)
    requires Inv(s, cfg) && DirtyFlush.Conserved(flush, unsaved)
    ensures Inv(s.(flush := flush, unsaved := unsaved), cfg)
  {
    hide IndexesOk, PlacedOk, AwakeOk, GenerationsOk, FanoutOk, IdentitiesOk, AuthenticOk, DirtyFlush.Conserved,
         LimitersOk, Live, Tracks;
  }

  lemma FlushOfInv(s: ServerState, cfg: Config)
    requires Inv(s, cfg)
    ensures DirtyFlush.Conserved(s.flush, s.unsaved)
  {
    hide IndexesOk, PlacedOk, AwakeOk, GenerationsOk, FanoutOk, IdentitiesOk, AuthenticOk, DirtyFlush.Conserved,
         LimitersOk, Live, Tracks;
  }

  lemma FlushOpInv(s: ServerState, cfg: Config, op: DirtyFlush.Op)
    requires Inv(s, cfg) && DirtyFlush.OpOk(op)
    ensures
      var w := DirtyFlush.Do(s.flush, op);
      Inv(s.(flush := w.state, unsaved := DirtyFlush.Unsaved(s.unsaved, op, w.saved)), cfg)
  {
    hide Inv, DirtyFlush.Do, DirtyFlush.Unsaved;
    FlushOfInv(s, cfg);
    DirtyFlush.DoConserves(s.flush, op, s.unsaved);
    var w := DirtyFlush.Do(s.flush, op);
    InvFlush(s, cfg, w.state, DirtyFlush.Unsaved(s.unsaved, op, w.saved));
  }

  // ----- Whole runs

  /** Everything that can happen to the server, with what its surroundings answer. */
  datatype Op =
    | HelloOp(peer: nat, hello: Hello, at: Option<Transport.Conn>, now: int, dbOk: bool)
    | StateOp(peer: nat, position: Option<(real, real)>, now: int)
    | ChatOp(peer: nat, withinLimit: bool, bytes: nat, now: int)
    | LeaveOp(peer: nat, refusedWrite: bool)
    | AoiOp(moorings: map<nat, Aoi.Mooring>, down: set<nat>)
    | SnapOp
    | FanOp(scans: nat, sends: nat)
    | ClockOp(bytes: nat)
    | FlushOp(refused: set<nat>)
    | CadenceOp
    | ShutdownOp(attempts: seq<set<nat>>)

  /** Peer ids are the transport's: one to its ceiling. */
  predicate OpOk(op: Op, cfg: Config) {
    && (op.HelloOp? ==> 1 <= op.peer <= cfg.maxPeers)
    && (op.ShutdownOp? ==> |op.attempts| == DirtyFlush.SHUTDOWN_ATTEMPTS)
  }

  ghost predicate OpsOk(ops: seq<Op>, cfg: Config) {
    forall i :: 0 <= i < |ops| ==> OpOk(ops[i], cfg)
  }

  lemma OpsTail(ops: seq<Op>, cfg: Config)
    requires OpsOk(ops, cfg) && ops != []
    ensures OpOk(ops[0], cfg) && OpsOk(ops[1..], cfg)
  {
    hide OpOk;
  }

  function Step(s: ServerState, cfg: Config, op: Op): ServerState
    requires OpOk(op, cfg) && cfg.cellSize > 0.0 && Fanout.FanOk(s.fan)
  {
    match op
    case HelloOp(peer, hello, at, now, dbOk) => OnHello(s, cfg, peer, hello, at, now, dbOk).server
    case StateOp(peer, position, now) => OnClientState(s, cfg, peer, position, now)
    case ChatOp(peer, within, bytes, now) => OnChat(s, cfg, peer, within, bytes, now)
    case LeaveOp(peer, refused) => OnDisconnect(s, peer, refused)
    case AoiOp(moorings, down) => AoiTick(s, moorings, down)
    case SnapOp => SnapTick(s, cfg).0
    case FanOp(scans, sends) => FanTick(s, scans, sends)
    case ClockOp(bytes) => ClockTick(s, bytes)
    case FlushOp(refused) => FlushTick(s, refused)
    case CadenceOp => BeginFlush(s)
    case ShutdownOp(attempts) => FlushEveryone(s, attempts)
  }

  lemma QueuesOfInv(s: ServerState, cfg: Config)
    requires Inv(s, cfg)
    ensures Fanout.FanOk(s.fan) && cfg.cellSize > 0.0
  {
    hide IndexesOk, PlacedOk, AwakeOk, GenerationsOk, IdentitiesOk, AuthenticOk, DirtyFlush.Conserved, LimitersOk, Live, Tracks,
         Fanout.FanOk, Fanout.QueuesFaithful, Fanout.CacheOk, Fanout.LogOk;
  }

  lemma TickInv(s: ServerState, cfg: Config, op: Op)
    requires Inv(s, cfg) && OpOk(op, cfg) && Fanout.FanOk(s.fan) && cfg.cellSize > 0.0
    requires !op.HelloOp? && !op.StateOp? && !op.ChatOp? && !op.LeaveOp?
    ensures Inv(Step(s, cfg, op), cfg) && SameSessions(s.sessions, Step(s, cfg, op).sessions)
  {
    hide Inv, AoiTick, SnapTick, FanTick, ClockTick, Fanout.FanOk, DirtyFlush.Tick, DirtyFlush.FlushAll, DirtyFlush.Ids;
    match op
    case AoiOp(moorings, down) => AoiTickInv(s, cfg, moorings, down);
    case SnapOp => SnapTickInv(s, cfg);
    case FanOp(scans, sends) => FanTickInv(s, cfg, scans, sends);
    case ClockOp(bytes) => ClockInv(s, cfg, bytes);
    case FlushOp(refused) => FlushOpInv(s, cfg, DirtyFlush.TickOp(refused));
    case CadenceOp =>
      FlushOpInv(s, cfg, DirtyFlush.BeginOp);
      assert s.unsaved - DirtyFlush.Ids([]) == s.unsaved by { NoIds(s.unsaved); }
    case ShutdownOp(attempts) =>
      var online := set p | p in s.sessions :: s.sessions[p].player;
      FlushOpInv(s, cfg, DirtyFlush.ShutdownOp(online, attempts));
  }

  lemma NoIds(x: set<nat>)
    ensures x - DirtyFlush.Ids([]) == x
  {
  }

  /** Every operation keeps every invariant. */
  lemma StepInv(s: ServerState, cfg: Config, op: Op)
    requires Inv(s, cfg) && OpOk(op, cfg)
    ensures Fanout.FanOk(s.fan) && cfg.cellSize > 0.0 && Inv(Step(s, cfg, op), cfg)
  {
    hide Inv, OnHello, OnClientState, OnChat, OnDisconnect, Fanout.FanOk;
    QueuesOfInv(s, cfg);
    match op
    case HelloOp(peer, hello, at, now, dbOk) => HelloInv(s, cfg, peer, hello, at, now, dbOk);
    case StateOp(peer, position, now) => ClientStateInv(s, cfg, peer, position, now);
    case ChatOp(peer, within, bytes, now) => ChatInv(s, cfg, peer, within, bytes, now);
    case LeaveOp(peer, refused) => DisconnectInv(s, cfg, peer, refused);
    case _ => TickInv(s, cfg, op);
  }

  function Run(s: ServerState, cfg: Config, ops: seq<Op>): ServerState
    requires Inv(s, cfg) && OpsOk(ops, cfg)
    decreases |ops|
  {
    hide Inv, OpsOk, OpOk;
    if ops == [] then s
    else
      OpsTail(ops, cfg);
      StepInv(s, cfg, ops[0]);
      Run(Step(s, cfg, ops[0]), cfg, ops[1..])
  }

  /** Over every run from start-up, whatever arrives in whatever order, every invariant holds. */
  lemma {:induction false} RunInv(s: ServerState, cfg: Config, ops: seq<Op>)
    requires Inv(s, cfg) && OpsOk(ops, cfg)
    ensures Inv(Run(s, cfg, ops), cfg)
    decreases |ops|
  {
    hide Inv, OpsOk, OpOk, Step;
    if ops != [] {
      OpsTail(ops, cfg);
      StepInv(s, cfg, ops[0]);
      RunInv(Step(s, cfg, ops[0]), cfg, ops[1..]);
    }
  }

  /** The state in which the `i`-th operation of a run finds the server. */
  ghost function StateAt(s: ServerState, cfg: Config, ops: seq<Op>, i: nat): (r: ServerState)
    requires Inv(s, cfg) && OpsOk(ops, cfg) && i <= |ops|
    ensures Inv(r, cfg)
    decreases i
  {
    hide Inv, OpsOk, OpOk, Step, Fanout.FanOk;
    if i == 0 then s
    else
      OpsTail(ops, cfg);
      StepInv(s, cfg, ops[0]);
      StateAt(Step(s, cfg, ops[0]), cfg, ops[1..], i - 1)
  }

  lemma OpsFrom(ops: seq<Op>, cfg: Config, i: nat)
    requires OpsOk(ops, cfg) && i <= |ops|
    ensures OpsOk(ops[i..], cfg)
  {
    hide OpOk;
  }

  /** A run is what its first operations do and then what the rest does from there. */
  lemma {:induction false} RunFrom(s: ServerState, cfg: Config, ops: seq<Op>, i: nat)
    requires Inv(s, cfg) && OpsOk(ops, cfg) && i <= |ops|
    ensures OpsOk(ops[i..], cfg) && Run(s, cfg, ops) == Run(StateAt(s, cfg, ops, i), cfg, ops[i..])
    decreases i
  {
    hide Inv, OpsOk, OpOk, Step, Fanout.FanOk;
    OpsFrom(ops, cfg, i);
    if i == 0 {
      assert ops[0..] == ops;
    } else {
      OpsTail(ops, cfg);
      StepInv(s, cfg, ops[0]);
      assert ops[1..][i - 1..] == ops[i..];
      RunFrom(Step(s, cfg, ops[0]), cfg, ops[1..], i - 1);
    }
  }

  lemma {:induction false} RunThen(s: ServerState, cfg: Config, xs: seq<Op>, ys: seq<Op>)
    requires Inv(s, cfg) && OpsOk(xs, cfg) && OpsOk(ys, cfg)
    ensures OpsOk(xs + ys, cfg) && Inv(Run(s, cfg, xs), cfg) && Run(s, cfg, xs + ys) == Run(Run(s, cfg, xs), cfg, ys)
    decreases |xs|
  {
    hide Inv, OpsOk, OpOk, Step, Fanout.FanOk;
    BothOk(xs, ys, cfg);
    if xs == [] {
      assert xs + ys == ys;
    } else {
      assert (xs + ys)[0] == xs[0] && (xs + ys)[1..] == xs[1..] + ys;
      OpsTail(xs, cfg);
      StepInv(s, cfg, xs[0]);
      RunThen(Step(s, cfg, xs[0]), cfg, xs[1..], ys);
    }
  }

  lemma BothOk(xs: seq<Op>, ys: seq<Op>, cfg: Config)
    requires OpsOk(xs, cfg) && OpsOk(ys, cfg)
    ensures OpsOk(xs + ys, cfg)
  {
    hide OpOk;
  }
}
