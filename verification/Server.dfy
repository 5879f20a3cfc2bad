/**
  * The session server: one map of sessions with its redundant indexes, re-keyed generations, scheduled area
  * of interest work, captured fanout and the dirty-write sets. This module is the specification; the
  * imperative server of `ServerObject.dfy` is proved against it.
  *
  * A session's `conn`, `serial` and `mirror` are history: the connection that authenticated it, its own identity,
  * and the cells that a client which has applied every update it was sent believes it sees.
  * `heard` and `unsaved` are history too: every fanout delivery so far, and every mark not yet written.
  */
module Server {
  import opened Options
  import opened Numbers
  import opened OrderedSets
  import opened Wire
  import opened World
  import RateLimit
  import Transport
  import Recurrence
  import Snapshots
  import Aoi
  import Fanout
  import DirtyFlush

  const MAX_PLAYER_ROWS := 1000000

  datatype Config = Config(
    maxPeers: nat, radius: nat, cellSize: real, cadence: nat, maxPlayerRows: nat,
    helloMs: int, sourceMs: int, newSessionMs: int, clientStateMs: int, chatMs: int, reconnectKeys: nat)

  /** A session as created by an accepted hello; its subscription is the centre cell and `aoi.sub`. */
  datatype Session = Session(
    generation: nat, player: nat, identity: Identity, cell: Cell, center: Option<Cell>,
    snap: Recurrence.SnapCursor, aoi: Aoi.AoiState, conn: Transport.Conn, serial: nat, mirror: set<Cell>)

  datatype Limiters = Limiters(
    hello: map<nat, int>, source: RateLimit.Bounded, reconnect: RateLimit.Bounded, newSession: Option<int>,
    clientState: map<nat, int>, chat: map<nat, int>)

  /** The player table: ids are handed out in order and never reused. */
  datatype Db = Db(players: map<Identity, nat>, nextId: nat)

  datatype ServerState = ServerState(
    sessions: map<nat, Session>,
    playerPeers: map<nat, nat>,
    playerOrder: set<nat>,
    snapRecipients: set<nat>,
    snapCursor: Option<nat>,
    snapTick: nat,
    aoiRecipients: set<nat>,
    aoiCursor: Option<nat>,
    fan: Fanout.FanState,
    flush: DirtyFlush.FlushState,
    identities: map<Identity, nat>,
    nextGen: nat,
    world: Placement,
    limiters: Limiters,
    db: Db,
    nextSerial: nat,
    heard: seq<Fanout.Delivery>,
    unsaved: set<nat>)

  // ----- Registration

  function Live(sessions: map<nat, Session>): map<nat, Fanout.Listener> {
    map p | p in sessions :: Fanout.Listener(sessions[p].generation, sessions[p].serial, sessions[p].aoi.sub)
  }

  function ScheduleAoi(s: ServerState, peer: nat): ServerState {
    if peer in s.sessions then s.(aoiRecipients := s.aoiRecipients + {peer}) else s
  }

  /** Drop every queued fanout job; the generations they captured are about to be reassigned. */
  function InvalidateFanout(f: Fanout.FanState): Fanout.FanState {
    f.(chats := [], chatBytes := 0, clock := None, cache := None)
  }

  function Rekeyed(sessions: map<nat, Session>): map<nat, Session> {
    var peers := Sorted(sessions.Keys);
    map p | p in sessions :: sessions[p].(generation := RankOf(peers, p) + 1)
  }

  function RankOf(peers: seq<nat>, p: nat): (r: nat)
    ensures p in peers ==> r < |peers| && peers[r] == p
  {
    match Recurrence.IndexOf(peers, p)
    case Some(i) => i
    case None => 0
  }

  /** Reassign every live generation from one, once the counter is exhausted. */
  function Rekey(s: ServerState): ServerState {
    s.(sessions := Rekeyed(s.sessions), fan := InvalidateFanout(s.fan), nextGen := |s.sessions|)
  }

  /** Make room in the generation counter if it is exhausted; fails if there are more sessions than peers. */
  function AllocateGeneration(s: ServerState, maxPeers: nat): Option<ServerState> {
    if s.nextGen < U64_MAX then Some(s.(nextGen := s.nextGen + 1))
    else if |s.sessions| > maxPeers then None
    else Some(Rekey(s).(nextGen := |s.sessions| + 1))
  }

  function Register(s: ServerState, maxPeers: nat, peer: nat, session: Session): Option<ServerState> {
    if peer in s.sessions || session.player in s.playerPeers then None
    else
      var room := AllocateGeneration(s, maxPeers);
      if room.None? then None else Some(Enrolled(room.value, peer, session.(generation := room.value.nextGen)))
  }

  /** The new session, entered in every index, marked dirty and scheduled. */
  function Enrolled(s: ServerState, peer: nat, session: Session): ServerState {
    s.(sessions := s.sessions[peer := session],
       playerPeers := s.playerPeers[session.player := peer],
       playerOrder := s.playerOrder + {session.player},
       snapRecipients := s.snapRecipients + {peer},
       aoiRecipients := s.aoiRecipients + {peer},
       fan := s.fan.(cache := None),
       flush := DirtyFlush.Mark(s.flush, session.player),
       unsaved := s.unsaved + {session.player},
       nextSerial := s.nextSerial + 1)
  }

  function Unregister(s: ServerState, peer: nat): ServerState {
    if peer !in s.sessions then s
    else
      var player := s.sessions[peer].player;
      var mine := player in s.playerPeers && s.playerPeers[player] == peer;
      s.(sessions := s.sessions - {peer},
         playerPeers := if mine then s.playerPeers - {player} else s.playerPeers,
         playerOrder := if mine then s.playerOrder - {player} else s.playerOrder,
         snapRecipients := s.snapRecipients - {peer},
         aoiRecipients := s.aoiRecipients - {peer},
         fan := s.fan.(cache := None))
  }

  // ----- Hello

  datatype Admission = Admitted(db: Db, player: nat) | CapacityReached

  /** `admit_player_by_token`: an identity keeps its row; a new one gets a fresh row while there is room. */
  function Admit(db: Db, identity: Identity, maxRows: nat): Admission {
    if identity in db.players then Admitted(db, db.players[identity])
    else if |db.players| >= maxRows then CapacityReached
    else Admitted(Db(db.players[identity := db.nextId], db.nextId + 1), db.nextId)
  }

  /** The rate limits a hello for a new session has to pass, in order; `None` when one refuses it. */
  function PassLimits(l: Limiters, cfg: Config, source: nat, known: Option<nat>, now: int): (Limiters, bool) {
    var (source', ok) := RateLimit.BoundedAllow(l.source, cfg.sourceMs, cfg.maxPeers, source, now);
    var l1 := l.(source := source');
    if !ok then (l1, false)
    else if known.Some? then
      var (r, ok') := RateLimit.BoundedAllow(l.reconnect, cfg.helloMs, cfg.reconnectKeys, known.value, now);
      (l1.(reconnect := r), ok')
    else
      var (g, ok') := RateLimit.GlobalAllow(l.newSession, cfg.newSessionMs, now);
      (l1.(newSession := g), ok')
  }

  /** The peer that must give way when `player` joins from `peer`. */
  function Superseded(s: ServerState, player: nat, peer: nat): Option<nat> {
    if player in s.playerPeers && s.playerPeers[player] != peer then Some(s.playerPeers[player]) else None
  }

  function Evict(s: ServerState, pp: nat): ServerState {
    var u := Unregister(s, pp);
    u.(limiters := u.limiters.(hello := u.limiters.hello - {pp}))
  }

  function NewSession(serial: nat, cfg: Config, player: nat, identity: Identity, conn: Transport.Conn): Session
    requires cfg.cellSize > 0.0
  {
    var origin := CellOf(0.0, 0.0, cfg.cellSize);
    Session(0, player, identity, origin, Some(origin), Recurrence.SnapCursor(None, 0, 0),
            Aoi.AoiState(Block(origin, cfg.radius), {}, {}, None, None), conn, serial, {})
  }

  /** Seat an admitted player on a peer that has no session, evicting its previous session if there is one. */
  function Seat(s: ServerState, cfg: Config, peer: nat, player: nat, identity: Identity, conn: Transport.Conn): ServerState
    requires cfg.cellSize > 0.0
  {
    var pp := Superseded(s, player, peer);
    var s1 := if pp.Some? then Evict(s, pp.value) else s;
    var session := NewSession(s1.nextSerial, cfg, player, identity, conn);
    var s2 := s1.(world := PlaceInCell(s1.world, player, session.cell));
    var r := Register(s2, cfg.maxPeers, peer, session);
    if r.None? then s2 else ScheduleAoi(r.value, peer)
  }

  datatype Handled = Handled(server: ServerState, evicted: Option<nat>)

  function OnHello(s: ServerState, cfg: Config, peer: nat, hello: Hello, at: Option<Transport.Conn>, now: int, dbOk: bool): Handled
    requires cfg.cellSize > 0.0
  {
    var (allowed, ok) := RateLimit.KeyedAllow(s.limiters.hello, cfg.helloMs, peer, now);
    var s1 := s.(limiters := s.limiters.(hello := allowed));
    if !ok then Handled(s, None)
    else if !hello.wellFormed || peer in s.sessions || at.None? then Handled(s1, None)
    else
      var known := if hello.identity in s.identities then Some(s.identities[hello.identity]) else None;
      var (limits, pass) := PassLimits(s1.limiters, cfg, at.value.addr.ip, known, now);
      var s2 := s1.(limiters := limits);
      if !pass || !dbOk then Handled(s2, None)
      else match Admit(s2.db, hello.identity, cfg.maxPlayerRows)
        case CapacityReached => Handled(s2, None)
        case Admitted(db, player) =>
          var s3 := s2.(db := db);
          if known.Some? && known.value != player then Handled(s3, None)
          else if known.None? && |s3.identities| >= MAX_PLAYER_ROWS then Handled(s3, None)
          else
            var s4 := if known.Some? then s3 else
                        s3.(identities := s3.identities[hello.identity := player],
                            limiters := s3.limiters.(reconnect :=
                              RateLimit.BoundedAllow(s3.limiters.reconnect, cfg.helloMs, cfg.reconnectKeys, player, now).0));
            Handled(Seat(s4, cfg, peer, player, hello.identity, at.value), Superseded(s4, player, peer))
  }

  // ----- Other messages

  function OnClientState(s: ServerState, cfg: Config, peer: nat, position: Option<(real, real)>, now: int): ServerState
    requires cfg.cellSize > 0.0
  {
    if peer !in s.sessions then s
    else
      var session := s.sessions[peer];
      var (allowed, ok) := RateLimit.KeyedAllow(s.limiters.clientState, cfg.clientStateMs, session.player, now);
      if !ok then s
      else
        var s1 := s.(limiters := s.limiters.(clientState := allowed));
        if position.None? then s1
        else
          var cell := CellOf(Clamp(position.value.0), Clamp(position.value.1), cfg.cellSize);
          Moved(s1, cfg, peer, cell)
  }

  /** Move a session to a cell: world, subscription, dirty mark, and a wakeup if the interest set changed. */
  function Moved(s: ServerState, cfg: Config, peer: nat, cell: Cell): ServerState
    requires peer in s.sessions
  {
    var session := s.sessions[peer];
    var stays := session.center == Some(cell);
    var sub := if stays then session.aoi.sub else Block(cell, cfg.radius);
    var moved := session.(cell := cell, center := Some(cell), aoi := session.aoi.(sub := sub));
    s.(sessions := s.sessions[peer := moved],
       world := PlaceInCell(s.world, session.player, cell),
       flush := DirtyFlush.Mark(s.flush, session.player),
       unsaved := s.unsaved + {session.player},
       aoiRecipients := if sub == session.aoi.sub then s.aoiRecipients else s.aoiRecipients + {peer})
  }

  function PushChat(f: Fanout.FanState, bytes: nat, cell: Cell, audience: Fanout.Audience): Fanout.FanState {
    f.(chatBytes := f.chatBytes + bytes,
       chats := f.chats + [Fanout.Job(f.nextJob, bytes, Some(cell), audience, 0)],
       nextJob := f.nextJob + 1)
  }

  function OnChat(s: ServerState, cfg: Config, peer: nat, withinLimit: bool, bytes: nat, now: int): ServerState {
    if peer !in s.sessions || !withinLimit
       || |s.fan.chats| >= Fanout.CHAT_QUEUE_ITEMS
       || s.fan.chatBytes > Fanout.CHAT_QUEUE_BYTES - Fanout.PAYLOAD_MAX then s
    else
      var session := s.sessions[peer];
      var (allowed, ok) := RateLimit.KeyedAllow(s.limiters.chat, cfg.chatMs, session.player, now);
      if !ok then s
      else
        var s1 := s.(limiters := s.limiters.(chat := allowed));
        if bytes > Fanout.PAYLOAD_MAX then s1
        else
          var (f, audience) := Fanout.Capture(s1.fan, Live(s1.sessions));
          if audience.None? then s1.(fan := f) else s1.(fan := PushChat(f, bytes, session.cell, audience.value))
  }

  function OnDisconnect(s: ServerState, peer: nat, refusedWrite: bool): ServerState {
    var s1 := s.(limiters := s.limiters.(hello := s.limiters.hello - {peer}));
    if peer !in s.sessions then s1 else Departed(Unregister(s1, peer), s.sessions[peer].player, refusedWrite)
  }

  /** A player whose session has gone: out of the world, its throttles dropped, its last write attempted. */
  function Departed(s: ServerState, player: nat, refusedWrite: bool): ServerState {
    var w := DirtyFlush.Leave(s.flush, player, refusedWrite);
    s.(world := RemoveEntity(s.world, player),
       limiters := s.limiters.(clientState := s.limiters.clientState - {player}, chat := s.limiters.chat - {player}),
       flush := w.state,
       unsaved := s.unsaved - DirtyFlush.Ids(w.saved))
  }

  // ----- Tick work

  /** Each player's cell, found through the player index as the source does. */
  function Whereabouts(s: ServerState): map<nat, Cell> {
    map p | p in s.playerPeers && s.playerPeers[p] in s.sessions && s.sessions[s.playerPeers[p]].player == p
      :: s.sessions[s.playerPeers[p]].cell
  }

  function AoiEnv(s: ServerState, moorings: map<nat, Aoi.Mooring>, dbOk: bool): Aoi.Env {
    Aoi.Env(s.playerOrder, Whereabouts(s), moorings, dbOk)
  }

  function Visited(session: Session, v: Aoi.Visited): Session {
    session.(aoi := v.state, mirror := Aoi.Mirror(session.mirror, v.emission))
  }

  /** Give one scheduled session its unit of work, rescheduling it if it asks for more. */
  function AoiVisit(s: ServerState, peer: nat, env: Aoi.Env): ServerState {
    var s1 := s.(aoiRecipients := s.aoiRecipients - {peer});
    if peer !in s1.sessions then s1
    else
      var v := Aoi.Visit(s1.sessions[peer].aoi, env);
      var s2 := s1.(sessions := s1.sessions[peer := Visited(s1.sessions[peer], v)]);
      if v.more then ScheduleAoi(s2, peer) else s2
  }

  function AoiVisits(s: ServerState, peers: seq<nat>, moorings: map<nat, Aoi.Mooring>, down: set<nat>): ServerState
    decreases |peers|
  {
    if peers == [] then s
    else AoiVisits(AoiVisit(s, peers[0], AoiEnv(s, moorings, peers[0] !in down)), peers[1..], moorings, down)
  }

  const AOI_WORK_ITEMS_PER_TICK := 8

  /** One tick of area-of-interest delivery; `down` are the sessions whose query the database fails. */
  function AoiTick(s: ServerState, moorings: map<nat, Aoi.Mooring>, down: set<nat>): ServerState {
    var peers := After(s.aoiRecipients, s.aoiCursor, AOI_WORK_ITEMS_PER_TICK);
    var s1 := if peers == [] then s else s.(aoiCursor := Some(peers[|peers| - 1]));
    AoiVisits(s1, peers, moorings, down)
  }

  function Scene(s: ServerState, cfg: Config): Snapshots.Scene {
    Snapshots.Scene(map p | p in s.sessions :: Snapshots.Member(s.sessions[p].player, s.sessions[p].cell),
                    s.playerOrder, Whereabouts(s), cfg.radius, cfg.cadence)
  }

  function SnapView(s: ServerState): Snapshots.SnapState {
    Snapshots.SnapState(map p | p in s.sessions :: s.sessions[p].snap, s.snapCursor, s.snapTick)
  }

  function SnapTick(s: ServerState, cfg: Config): (ServerState, seq<Snapshots.Packet>) {
    var (r, packets) := Snapshots.Broadcast(SnapView(s), Scene(s, cfg));
    (s.(sessions := map p | p in s.sessions :: if p in r.cursors then s.sessions[p].(snap := r.cursors[p]) else s.sessions[p],
        snapCursor := r.cursor, snapTick := r.tick),
     packets)
  }

  function FanTick(s: ServerState, scans: nat, sends: nat): ServerState
    requires Fanout.FanOk(s.fan)
  {
    var w := Fanout.Process(s.fan, Live(s.sessions), scans, sends);
    s.(fan := w.state, heard := s.heard + w.delivered)
  }

  /** Queue the clock, replacing one that is still pending. */
  function ClockTick(s: ServerState, bytes: nat): ServerState {
    var (f, audience) := Fanout.Capture(s.fan.(clock := None), Live(s.sessions));
    if audience.None? then s.(fan := f) else s.(fan := PushClock(f, bytes, audience.value))
  }

  function PushClock(f: Fanout.FanState, bytes: nat, audience: Fanout.Audience): Fanout.FanState {
    f.(clock := Some(Fanout.Job(f.nextJob, bytes, None, audience, 0)), nextJob := f.nextJob + 1)
  }

  function FlushTick(s: ServerState, refused: set<nat>): ServerState {
    var w := DirtyFlush.Tick(s.flush, refused);
    s.(flush := w.state, unsaved := s.unsaved - DirtyFlush.Ids(w.saved))
  }

  function BeginFlush(s: ServerState): ServerState {
    s.(flush := DirtyFlush.Begin(s.flush))
  }

  /** The last writes, for every seated player and everyone still queued. */
  function FlushEveryone(s: ServerState, refused: seq<set<nat>>): ServerState
    requires |refused| == DirtyFlush.SHUTDOWN_ATTEMPTS
  {
    var online := set p | p in s.sessions :: s.sessions[p].player;
    var w := DirtyFlush.FlushAll(s.flush, online, refused).0;
    s.(flush := w.state, unsaved := s.unsaved - DirtyFlush.Ids(w.saved))
  }
}
