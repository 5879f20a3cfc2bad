/**
  * The imperative session server: the source's fields, updated in place, proved against `Server`. The limiter,
  * fanout and flush fields are held as the values that the objects of their own modules are proved against.
  */
module ServerObject {
  import opened Options
  import opened Numbers
  import opened OrderedSets
  import opened Wire
  import opened World
  import RateLimit
  import Transport
  import Aoi
  import Fanout
  import DirtyFlush
  import opened Server
  import opened ServerInvariants
  import ServerRuns

  class SessionServer {
    const cfg: Config
    var sessions: map<nat, Session>
    var playerPeers: map<nat, nat>
    var playerOrder: set<nat>
    var snapRecipients: set<nat>
    var snapCursor: Option<nat>
    var snapTick: nat
    var aoiRecipients: set<nat>
    var aoiCursor: Option<nat>
    var fan: Fanout.FanState
    var flush: DirtyFlush.FlushState
    var identities: map<Identity, nat>
    var nextGen: nat
    var world: Placement
    var limiters: Limiters
    var db: Db
    var nextSerial: nat
    ghost var heard: seq<Fanout.Delivery>
    ghost var unsaved: set<nat>

    ghost function View(): ServerState
      reads this
    {
      ServerState(sessions, playerPeers, playerOrder, snapRecipients, snapCursor, snapTick, aoiRecipients, aoiCursor, fan,
                  flush, identities, nextGen, world, limiters, db, nextSerial, heard, unsaved)
    }

    ghost predicate Ok()
      reads this
    {
      Inv(View(), cfg)
    }

    constructor (config: Config, table: Db)
      requires ConfigOk(config) && IdentitiesOk(table.players, table)
      ensures cfg == config && View() == Boot(table) && Ok()
    {
      hide Inv;
      cfg := config;
      sessions, playerPeers, playerOrder := map[], map[], {};
      snapRecipients, snapCursor, snapTick := {}, None, 0;
      aoiRecipients, aoiCursor := {}, None;
      fan, flush := Fanout.NO_FANOUT, DirtyFlush.FlushState({}, {}, false);
      identities, nextGen, nextSerial := table.players, 0, 0;
      world, db := Placement(map[], map[]), table;
      limiters := Limiters(map[], RateLimit.Bounded(map[], {}), RateLimit.Bounded(map[], {}), None, map[], map[]);
      heard, unsaved := [], {};
      BootInv(config, table);
    }

    // ----- Registration

    method ScheduleAoiFor(peer: nat)
      modifies this
      ensures View() == ScheduleAoi(old(View()), peer)
    {
      if peer !in sessions { return; }
      aoiRecipients := aoiRecipients + {peer};
    }

    method InvalidateFanoutJobs()
      modifies this
      ensures View() == old(View()).(fan := InvalidateFanout(old(View()).fan))
    {
      fan := fan.(chats := [], chatBytes := 0, clock := None, cache := None);
    }

    /** Number the sessions from one, in ascending peer order. */
    static method Renumber(sessions: map<nat, Session>) returns (renumbered: map<nat, Session>)
      ensures renumbered == Rekeyed(sessions)
    {
      hide Sorted, RankOf;
      var peers := Sorted(sessions.Keys);
      renumbered := sessions;
      for i := 0 to |peers|
        invariant RekeyedUpTo(sessions, renumbered, peers, i)
      {
        var peer := peers[i];
        assert peer in peers;
        RankIs(peers, i);
        RanksDiffer(sessions, peers, i);
        renumbered := renumbered[peer := renumbered[peer].(generation := i + 1)];
      }
      RankBelow(sessions, peers);
    }

    /** Reassign every live generation, once no queued job can hold one. */
    method RekeyLiveSessionGenerations() returns (ok: bool)
      modifies this
      ensures ok == (|old(sessions)| <= cfg.maxPeers)
      ensures View() == if ok then Rekey(old(View())) else old(View())
    {
      hide Rekeyed, InvalidateFanout;
      if |sessions| > cfg.maxPeers { return false; }
      var count := |sessions|;
      var renumbered := Renumber(sessions);
      InvalidateFanoutJobs();
      sessions := renumbered;
      nextGen := count;
      ok := true;
    }

    static ghost predicate RekeyedUpTo(start: map<nat, Session>, now: map<nat, Session>, peers: seq<nat>, i: nat) {
      && now.Keys == start.Keys
      && (forall p :: p in start ==>
            now[p] == start[p].(generation := if RankOf(peers, p) < i then RankOf(peers, p) + 1 else start[p].generation))
    }

    static lemma RanksDiffer(start: map<nat, Session>, peers: seq<nat>, i: nat)
      requires i < |peers| && SameElements(peers, start.Keys)
      ensures forall p :: p in start && p != peers[i] ==> RankOf(peers, p) != i
    {
      hide RankOf;
      forall p | p in start && p != peers[i] ensures RankOf(peers, p) != i { assert p in peers; }
    }

    static lemma RankBelow(start: map<nat, Session>, peers: seq<nat>)
      requires SameElements(peers, start.Keys)
      ensures forall p :: p in start ==> RankOf(peers, p) < |peers|
    {
      hide RankOf;
      forall p | p in start ensures RankOf(peers, p) < |peers| { assert p in peers; }
    }

    static lemma RankIs(peers: seq<nat>, i: nat)
      requires Ascending(peers) && i < |peers|
      ensures RankOf(peers, peers[i]) == i
    {
      hide RankOf;
      assert peers[i] in peers;
    }

    method AllocateSessionGeneration() returns (generation: Option<nat>)
      requires nextGen <= U64_MAX
      modifies this
      ensures
        var r := AllocateGeneration(old(View()), cfg.maxPeers);
        if r.None? then generation.None? && View() == old(View())
        else generation == Some(nextGen) && View() == r.value
    {
      hide Rekeyed, InvalidateFanout;
      if nextGen == U64_MAX {
        var ok := RekeyLiveSessionGenerations();
        if !ok { return None; }
      }
      nextGen := nextGen + 1;
      generation := Some(nextGen);
    }

    method MarkDirty(player: nat)
      modifies this
      ensures View() == old(View()).(flush := DirtyFlush.Mark(old(flush), player), unsaved := old(unsaved) + {player})
    {
      hide DirtyFlush.Mark;
      flush := DirtyFlush.Mark(flush, player);
      unsaved := unsaved + {player};
    }

    method IndexPlayer(player: nat, peer: nat)
      modifies this
      ensures View() == old(View()).(playerPeers := old(playerPeers)[player := peer], playerOrder := old(playerOrder) + {player},
                                     snapRecipients := old(snapRecipients) + {peer})
    {
      playerPeers := playerPeers[player := peer];
      playerOrder := playerOrder + {player};
      snapRecipients := snapRecipients + {peer};
    }

    method InsertSession(peer: nat, session: Session)
      modifies this
      ensures View() == old(View()).(sessions := old(sessions)[peer := session], fan := old(fan).(cache := None),
                                     nextSerial := old(nextSerial) + 1)
    {
      sessions := sessions[peer := session];
      fan := fan.(cache := None);
      nextSerial := nextSerial + 1;
    }

    method RegisterSession(peer: nat, session: Session) returns (ok: bool)
      requires nextGen <= U64_MAX
      modifies this
      ensures
        var r := Register(old(View()), cfg.maxPeers, peer, session);
        ok == r.Some? && View() == if ok then r.value else old(View())
    {
      hide AllocateGeneration, DirtyFlush.Mark;
      if peer in sessions || session.player in playerPeers { return false; }
      var generation := AllocateSessionGeneration();
      if generation.None? { return false; }
      InsertSession(peer, session.(generation := generation.value));
      IndexPlayer(session.player, peer);
      MarkDirty(session.player);
      ScheduleAoiFor(peer);
      ok := true;
    }

    method DropPlayer(player: nat)
      modifies this
      ensures View() == old(View()).(playerPeers := old(playerPeers) - {player}, playerOrder := old(playerOrder) - {player})
    {
      playerPeers := playerPeers - {player};
      playerOrder := playerOrder - {player};
    }

    method DropRecipient(peer: nat)
      modifies this
      ensures View() == old(View()).(snapRecipients := old(snapRecipients) - {peer}, aoiRecipients := old(aoiRecipients) - {peer},
                                     fan := old(fan).(cache := None))
    {
      snapRecipients := snapRecipients - {peer};
      aoiRecipients := aoiRecipients - {peer};
      fan := fan.(cache := None);
    }

    method UnregisterSession(peer: nat) returns (session: Option<Session>)
      modifies this
      ensures session == if peer in old(sessions) then Some(old(sessions)[peer]) else None
      ensures View() == Unregister(old(View()), peer)
    {
      if peer !in sessions { return None; }
      session := Some(sessions[peer]);
      var player := sessions[peer].player;
      sessions := sessions - {peer};
      if player in playerPeers && playerPeers[player] == peer { DropPlayer(player); }
      DropRecipient(peer);
    }

    // ----- Messages

    /** Seat an admitted player, dropping its previous session. */
    method SeatPlayer(peer: nat, player: nat, identity: Identity, conn: Transport.Conn) returns (evicted: Option<nat>)
      requires cfg.cellSize > 0.0 && nextGen <= U64_MAX
      modifies this
      ensures evicted == Superseded(old(View()), player, peer)
      ensures View() == Seat(old(View()), cfg, peer, player, identity, conn)
    {
      hide Register, NewSession, Unregister, PlaceInCell;
      evicted := None;
      if player in playerPeers && playerPeers[player] != peer {
        var pp := playerPeers[player];
        evicted := Some(pp);
        CounterKept(View(), pp);
        var _ := UnregisterSession(pp);
        limiters := limiters.(hello := limiters.hello - {pp});
      }
      var session := NewSession(nextSerial, cfg, player, identity, conn);
      world := PlaceInCell(world, player, session.cell);
      var ok := RegisterSession(peer, session);
      if ok { ScheduleAoiFor(peer); }
    }

    static lemma CounterKept(s: ServerState, peer: nat)
      ensures Unregister(s, peer).nextGen == s.nextGen
    {
    }

    method ChargeHello(peer: nat, now: int) returns (ok: bool)
      modifies this
      ensures
        var (allowed, yes) := RateLimit.KeyedAllow(old(limiters).hello, cfg.helloMs, peer, now);
        ok == yes && View() == if yes then old(View()).(limiters := old(limiters).(hello := allowed)) else old(View())
    {
      hide RateLimit.KeyedAllow;
      var (allowed, yes) := RateLimit.KeyedAllow(limiters.hello, cfg.helloMs, peer, now);
      if yes { limiters := limiters.(hello := allowed); }
      ok := yes;
    }

    method ChargeSession(source: nat, known: Option<nat>, now: int) returns (pass: bool)
      modifies this
      ensures
        var (limits, ok) := PassLimits(old(limiters), cfg, source, known, now);
        pass == ok && View() == old(View()).(limiters := limits)
    {
      hide PassLimits;
      var (limits, ok) := PassLimits(limiters, cfg, source, known, now);
      limiters := limits;
      pass := ok;
    }

    /**
      * The player table's answer: a known identity keeps its row, a new one gets an id that no row has while
      * there is room, and nothing changes otherwise.
      */
    method AdmitPlayer(identity: Identity) returns (player: Option<nat>)
      requires TableOk(db)
      modifies this
      ensures View() == old(View()).(db := db) && TableOk(db)
      ensures identity in old(db).players ==> db == old(db) && player == Some(old(db).players[identity])
      ensures identity !in old(db).players ==> (player.Some? <==> |old(db).players| < cfg.maxPlayerRows)
      ensures identity !in old(db).players && player.Some? ==>
        player.value !in old(db).players.Values && db.players == old(db).players[identity := player.value]
      ensures player.None? ==> db == old(db)
      ensures Server.Admit(old(db), identity, cfg.maxPlayerRows) ==
              if player.Some? then Server.Admitted(db, player.value) else Server.CapacityReached
    {
      if identity in db.players { return Some(db.players[identity]); }
      if |db.players| >= cfg.maxPlayerRows { return None; }
      player := Some(db.nextId);
      db := Db(db.players[identity := db.nextId], db.nextId + 1);
    }

    /** Ids are handed out in order, so none in the table has been reached again. */
    static ghost predicate TableOk(db: Db) {
      forall i :: i in db.players ==> db.players[i] < db.nextId
    }

    static lemma TableOfInv(s: ServerState, cfg: Config)
      requires Inv(s, cfg)
      ensures TableOk(s.db)
    {
      hide IndexesOk, PlacedOk, AwakeOk, GenerationsOk, FanoutOk, AuthenticOk, DirtyFlush.Conserved, LimitersOk, Live, Tracks;
    }

    method RecordIdentity(identity: Identity, player: nat, now: int)
      modifies this
      ensures View() == old(View()).(
        identities := old(identities)[identity := player],
        limiters := old(limiters).(reconnect :=
          RateLimit.BoundedAllow(old(limiters).reconnect, cfg.helloMs, cfg.reconnectKeys, player, now).0))
    {
      hide RateLimit.BoundedAllow;
      identities := identities[identity := player];
      limiters := limiters.(reconnect :=
        RateLimit.BoundedAllow(limiters.reconnect, cfg.helloMs, cfg.reconnectKeys, player, now).0);
    }

    method OnHelloAt(peer: nat, hello: Hello, at: Option<Transport.Conn>, now: int, dbOk: bool) returns (evicted: Option<nat>)
      requires Ok() && 1 <= peer <= cfg.maxPeers
      modifies this
      ensures cfg.cellSize > 0.0 && Handled(View(), evicted) == OnHello(old(View()), cfg, peer, hello, at, now, dbOk)
      ensures Ok() && ServerRuns.HelloEffect(old(View()), Handled(View(), evicted), peer, hello, at)
    {
      hide Inv, ServerRuns.HelloEffect, TableOk, Seat, RateLimit.KeyedAllow, RateLimit.BoundedAllow, PassLimits, Server.Admit;
      ServerRuns.QueuesOfInv(View(), cfg);
      Counter(View(), cfg);
      TableOfInv(View(), cfg);
      ServerRuns.HelloInv(View(), cfg, peer, hello, at, now, dbOk);
      evicted := None;
      var ok := ChargeHello(peer, now);
      if !ok || !hello.wellFormed || peer in sessions || at.None? { return; }
      var known := if hello.identity in identities then Some(identities[hello.identity]) else None;
      var pass := ChargeSession(at.value.addr.ip, known, now);
      if !pass || !dbOk { return; }
      var admitted := AdmitPlayer(hello.identity);
      if admitted.None? { return; }
      var player := admitted.value;
      if known.Some? {
        if player != known.value { return; }
      } else {
        if |identities| >= MAX_PLAYER_ROWS { return; }
        RecordIdentity(hello.identity, player, now);
      }
      evicted := SeatPlayer(peer, player, hello.identity, at.value);
    }

    static lemma Counter(s: ServerState, cfg: Config)
      requires Inv(s, cfg)
      ensures s.nextGen <= U64_MAX
    {
      CounterBound(s, cfg);
    }

    method MoveSession(peer: nat, cell: Cell)
      requires peer in sessions
      modifies this
      ensures View() == Moved(old(View()), cfg, peer, cell)
    {
      hide PlaceInCell, DirtyFlush.Mark, Block;
      var session := sessions[peer];
      var before := session.aoi.sub;
      if session.center != Some(cell) {
        session := session.(center := Some(cell), aoi := session.aoi.(sub := Block(cell, cfg.radius)));
      }
      session := session.(cell := cell);
      sessions := sessions[peer := session];
      world := PlaceInCell(world, session.player, cell);
      MarkDirty(session.player);
      if session.aoi.sub != before { ScheduleAoiFor(peer); }
    }

    method OnClientStateAt(peer: nat, position: Option<(real, real)>, now: int)
      requires Ok()
      modifies this
      ensures cfg.cellSize > 0.0 && View() == OnClientState(old(View()), cfg, peer, position, now)
      ensures Ok() && ServerRuns.SameSessions(old(sessions), sessions)
    {
      hide Inv, RateLimit.KeyedAllow, CellOf, Clamp, Moved, ServerRuns.SameSessions;
      ServerRuns.QueuesOfInv(View(), cfg);
      ServerRuns.ClientStateInv(View(), cfg, peer, position, now);
      if peer !in sessions { return; }
      var (allowed, ok) := RateLimit.KeyedAllow(limiters.clientState, cfg.clientStateMs, sessions[peer].player, now);
      if !ok { return; }
      limiters := limiters.(clientState := allowed);
      if position.None? { return; }
      MoveSession(peer, CellOf(Clamp(position.value.0), Clamp(position.value.1), cfg.cellSize));
    }

    method OnChatAt(peer: nat, withinLimit: bool, bytes: nat, now: int)
      requires Ok()
      modifies this
      ensures View() == OnChat(old(View()), cfg, peer, withinLimit, bytes, now)
      ensures Ok()
    {
      hide Inv, RateLimit.KeyedAllow, Fanout.Capture, Live;
      ServerRuns.ChatInv(View(), cfg, peer, withinLimit, bytes, now);
      if peer !in sessions || !withinLimit { return; }
      if |fan.chats| >= Fanout.CHAT_QUEUE_ITEMS || fan.chatBytes > Fanout.CHAT_QUEUE_BYTES - Fanout.PAYLOAD_MAX { return; }
      var (allowed, ok) := RateLimit.KeyedAllow(limiters.chat, cfg.chatMs, sessions[peer].player, now);
      if !ok { return; }
      limiters := limiters.(chat := allowed);
      if bytes > Fanout.PAYLOAD_MAX { return; }
      var (f, audience) := Fanout.Capture(fan, Live(sessions));
      fan := f;
      if audience.None? { return; }
      fan := PushChat(fan, bytes, sessions[peer].cell, audience.value);
    }

    /** Forget a player whose session has gone, and attempt its last write. */
    method Depart(player: nat, refusedWrite: bool) returns (failed: bool)
      modifies this
      ensures View() == Departed(old(View()), player, refusedWrite) && failed == refusedWrite
    {
      hide RemoveEntity, DirtyFlush.Ids;
      world := RemoveEntity(world, player);
      limiters := limiters.(clientState := limiters.clientState - {player}, chat := limiters.chat - {player});
      failed := LastWrite(player, refusedWrite);
    }

    method LastWrite(player: nat, refusedWrite: bool) returns (failed: bool)
      modifies this
      ensures
        var w := DirtyFlush.Leave(old(flush), player, refusedWrite);
        View() == old(View()).(flush := w.state, unsaved := old(unsaved) - DirtyFlush.Ids(w.saved)) && failed == refusedWrite
    {
      hide DirtyFlush.Ids;
      var w := DirtyFlush.Leave(flush, player, refusedWrite);
      flush := w.state;
      unsaved := unsaved - DirtyFlush.Ids(w.saved);
      failed := w.failed;
    }

    method OnDisconnectAt(peer: nat, refusedWrite: bool) returns (failed: bool)
      requires Ok()
      modifies this
      ensures View() == OnDisconnect(old(View()), peer, refusedWrite)
      ensures failed == (peer in old(sessions) && refusedWrite)
      ensures Ok() && sessions == old(sessions) - {peer}
    {
      hide Inv, Unregister, Departed;
      ServerRuns.DisconnectInv(View(), cfg, peer, refusedWrite);
      limiters := limiters.(hello := limiters.hello - {peer});
      if peer !in sessions { return false; }
      var session := UnregisterSession(peer);
      failed := Depart(session.value.player, refusedWrite);
    }

    // ----- Ticks

    /** The fields as a value; the history is of no interest to what it is read for. */
    function Image(): ServerState
      reads this
    {
      ServerState(sessions, playerPeers, playerOrder, snapRecipients, snapCursor, snapTick, aoiRecipients, aoiCursor, fan,
                  flush, identities, nextGen, world, limiters, db, nextSerial, [], {})
    }

    lemma SameEnv(moorings: map<nat, Aoi.Mooring>, dbOk: bool)
      ensures AoiEnv(Image(), moorings, dbOk) == AoiEnv(View(), moorings, dbOk)
      ensures Scene(Image(), cfg) == Scene(View(), cfg)
    {
    }

    static lemma {:induction false} VisitsFrom(s: ServerState, peers: seq<nat>, moorings: map<nat, Aoi.Mooring>, down: set<nat>, i: nat)
      requires i < |peers|
      ensures AoiVisits(s, peers[i..], moorings, down) ==
              AoiVisits(AoiVisit(s, peers[i], AoiEnv(s, moorings, peers[i] !in down)), peers[i + 1..], moorings, down)
    {
      hide AoiVisit, AoiEnv;
      assert peers[i..][1..] == peers[i + 1..];
    }

    /** One scheduled session's unit of work, rescheduled if it asks for more. */
    method VisitOne(peer: nat, env: Aoi.Env) returns (visited: bool)
      modifies this
      ensures View() == AoiVisit(old(View()), peer, env)
    {
      hide Aoi.Visit, Aoi.Mirror;
      aoiRecipients := aoiRecipients - {peer};
      if peer !in sessions { return false; }
      var v := Aoi.Visit(sessions[peer].aoi, env);
      sessions := sessions[peer := Visited(sessions[peer], v)];
      if v.more { ScheduleAoiFor(peer); }
      visited := true;
    }

    /** Visit at most eight scheduled sessions round-robin, rescheduling those with work left. */
    method ProcessAoiWork(moorings: map<nat, Aoi.Mooring>, down: set<nat>) returns (visits: nat)
      requires Ok()
      modifies this
      ensures View() == AoiTick(old(View()), moorings, down)
      ensures Ok() && visits <= AOI_WORK_ITEMS_PER_TICK
    {
      hide Inv, After, AoiVisits, AoiEnv, AoiVisit;
      ServerRuns.AoiTickInv(View(), cfg, moorings, down);
      var peers := After(aoiRecipients, aoiCursor, AOI_WORK_ITEMS_PER_TICK);
      if peers != [] { aoiCursor := Some(peers[|peers| - 1]); }
      visits := 0;
      ghost var goal := AoiVisits(View(), peers, moorings, down);
      assert peers[0..] == peers;
      for i := 0 to |peers|
        invariant visits <= i && AoiVisits(View(), peers[i..], moorings, down) == goal
      {
        var peer := peers[i];
        VisitsFrom(View(), peers, moorings, down, i);
        SameEnv(moorings, peer !in down);
        var visited := VisitOne(peer, AoiEnv(Image(), moorings, peer !in down));
        if visited { visits := visits + 1; }
      }
      VisitsDone(View(), peers, moorings, down);
    }

    static lemma VisitsDone(s: ServerState, peers: seq<nat>, moorings: map<nat, Aoi.Mooring>, down: set<nat>)
      ensures AoiVisits(s, peers[|peers|..], moorings, down) == s
    {
      assert peers[|peers|..] == [];
    }

    method BroadcastClock(bytes: nat)
      requires Ok()
      modifies this
      ensures View() == ClockTick(old(View()), bytes)
      ensures Ok()
    {
      hide Inv, Fanout.Capture, Live;
      ServerRuns.ClockInv(View(), cfg, bytes);
      fan := fan.(clock := None);
      var (f, audience) := Fanout.Capture(fan, Live(sessions));
      fan := f;
      if audience.None? { return; }
      fan := PushClock(fan, bytes, audience.value);
    }
  }
}
