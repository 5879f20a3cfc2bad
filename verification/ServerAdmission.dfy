/**
  * Who may join when: what every hello charges and leaves in the player table, and how far apart two joins through
  * one rate limit are, over runs of all the server's operations.
  */
module ServerAdmission {
  import opened Options
  import opened OrderedSets
  import opened Wire
  import opened World
  import RateLimit
  import Transport
  import Snapshots
  import Aoi
  import Fanout
  import DirtyFlush
  import opened Server
  import opened ServerInvariants
  import opened ServerRuns

  // ----- The reconnect limiter never runs out of keys

  /** There is room for every player there is or can be, and only players are tracked. */
  ghost predicate ReconnectRoom(s: ServerState, cfg: Config) {
    && cfg.maxPlayerRows <= cfg.reconnectKeys && |s.identities| <= cfg.reconnectKeys
    && s.limiters.reconnect.last.Keys <= s.identities.Values
  }

  lemma {:induction false} ValuesFit(m: map<Identity, nat>)
    ensures |m.Values| <= |m|
    decreases |m|
  {
    if m == map[] {
      assert m.Values == {};
    } else {
      var k :| k in m;
      var rest := m - {k};
      assert rest.Keys == m.Keys - {k};
      assert |rest| == |rest.Keys| && |m| == |m.Keys|;
      ValuesFit(rest);
      assert m.Values <= rest.Values + {m[k]} by {
        forall v | v in m.Values ensures v in rest.Values + {m[k]} {
          var j :| j in m && m[j] == v;
          if j != k { assert j in rest && rest[j] == v; }
        }
      }
      SubsetSize(m.Values, rest.Values + {m[k]});
    }
  }

  /** The first join of a new player is always recorded by the reconnect limiter. */
  lemma NewcomerIsRecorded(s: ServerState, cfg: Config, now: int)
    requires LimitersOk(s.limiters, cfg) && IdentitiesOk(s.identities, s.db) && IntervalsOk(cfg)
    requires ReconnectRoom(s, cfg) && |s.identities| < cfg.maxPlayerRows
    ensures
      var r := RateLimit.BoundedAllow(s.limiters.reconnect, cfg.helloMs, cfg.reconnectKeys, s.db.nextId, now).0;
      RateLimit.Charged(s.limiters.reconnect.last, r.last, cfg.helloMs, s.db.nextId, now)
  {
    hide RateLimit.BoundedOk, RateLimit.BoundedAllow, RateLimit.Saturated, RateLimit.Charged;
    var b := s.limiters.reconnect;
    ValuesFit(s.identities);
    SubsetSize(b.last.Keys, s.identities.Values);
    assert |b.last| == |b.last.Keys|;
    assert s.db.nextId !in s.identities.Values;
    RateLimit.RoomIsNotSaturated(b, cfg.helloMs, cfg.reconnectKeys, s.db.nextId, now);
    RateLimit.BoundedAdmitsIff(b, cfg.helloMs, cfg.reconnectKeys, s.db.nextId, now);
  }

  // ----- What seating leaves alone

  lemma RegisterGates(s: ServerState, maxPeers: nat, peer: nat, session: Session)
    ensures
      var r := Register(s, maxPeers, peer, session);
      r.Some? ==> r.value.limiters == s.limiters && r.value.identities == s.identities && r.value.db == s.db
  {
    hide Rekeyed;
  }

  /** Seating drops the hello throttle of the peer it evicts, and no other limiter moves. */
  lemma SeatGates(s: ServerState, cfg: Config, peer: nat, player: nat, identity: Identity, conn: Transport.Conn)
    requires cfg.cellSize > 0.0
    ensures
      var r := Seat(s, cfg, peer, player, identity, conn);
      var pp := Superseded(s, player, peer);
      && r.limiters == s.limiters.(hello := s.limiters.hello - (if pp.Some? then {pp.value} else {}))
      && r.identities == s.identities && r.db == s.db
  {
    hide Register, NewSession, PlaceInCell;
    var pp := Superseded(s, player, peer);
    var s1 := if pp.Some? then Evict(s, pp.value) else s;
    assert s.limiters.hello - {} == s.limiters.hello;
    var session := NewSession(s1.nextSerial, cfg, player, identity, conn);
    RegisterGates(s1.(world := PlaceInCell(s1.world, player, session.cell)), cfg.maxPeers, peer, session);
  }

  // ----- What a hello charges

  /** The hello gets as far as the admission limits. */
  predicate Applies(s: ServerState, cfg: Config, peer: nat, hello: Hello, at: Option<Transport.Conn>, now: int) {
    && !RateLimit.Recent(s.limiters.hello, cfg.helloMs, peer, now)
    && hello.wellFormed && peer !in s.sessions && at.Some?
  }

  /** The limiters after a hello that was granted a session: a new player is charged as if it had just reconnected. */
  ghost predicate GrantCharged(s: ServerState, l: Limiters, cfg: Config, source: nat, identity: Identity, now: int) {
    if identity in s.identities then LimitsCharged(s.limiters.(hello := l.hello), l, cfg, source, Known(s, identity), now)
    else
      && LimitsCharged(s.limiters.(hello := l.hello), l.(reconnect := s.limiters.reconnect), cfg, source, None, now)
      && RateLimit.Charged(s.limiters.reconnect.last, l.reconnect.last, cfg.helloMs, s.db.nextId, now)
  }

  /** The player table after a hello that was granted a session: a new identity has the next row, and no row changes. */
  predicate Enlisted(s: ServerState, r: ServerState, identity: Identity) {
    if identity in s.identities then r.identities == s.identities && r.db == s.db
    else r.identities == s.identities[identity := s.db.nextId] && r.db == Db(r.identities, s.db.nextId + 1)
  }

  lemma RefusedCharges(s: ServerState, cfg: Config, peer: nat, hello: Hello, at: Option<Transport.Conn>, now: int, dbOk: bool)
    requires Inv(s, cfg) && cfg.cellSize > 0.0 && (peer in s.sessions || !Granted(s, cfg, peer, hello, at, now, dbOk))
    ensures
      var r := OnHello(s, cfg, peer, hello, at, now, dbOk).server;
      && r == s.(limiters := r.limiters)
      && (Applies(s, cfg, peer, hello, at, now) ==>
            && r.limiters.hello == s.limiters.hello[peer := now]
            && LimitsCharged(s.limiters.(hello := r.limiters.hello), r.limiters, cfg, at.value.addr.ip, Known(s, hello.identity), now))
      && (!Applies(s, cfg, peer, hello, at, now) ==>
            r.limiters == if RateLimit.Recent(s.limiters.hello, cfg.helloMs, peer, now) then s.limiters
                          else s.limiters.(hello := s.limiters.hello[peer := now]))
  {
    hide Inv, Seat, LimitersOk, IdentitiesOk, RateLimit.KeyedAllow, RateLimit.BoundedAllow, PassLimits, Server.Admit,
         MayJoin, LimitsCharged, RateLimit.Recent;
    LimitersOfInv(s, cfg);
    AdmitAgrees(s.identities, s.db, hello.identity, cfg.maxPlayerRows);
    LimitsOfHello(s, cfg, peer, hello.identity, if at.Some? then at.value.addr.ip else 0, now);
  }

  lemma AdmittedRow(s: ServerState, cfg: Config, identity: Identity)
    requires IdentitiesOk(s.identities, s.db) && (identity in s.identities || |s.identities| < cfg.maxPlayerRows)
    requires cfg.maxPlayerRows <= MAX_PLAYER_ROWS
    ensures
      Server.Admit(s.db, identity, cfg.maxPlayerRows) ==
      (if identity in s.identities then Server.Admitted(s.db, s.identities[identity])
       else Server.Admitted(Db(s.identities[identity := s.db.nextId], s.db.nextId + 1), s.db.nextId))
    ensures identity !in s.identities ==> |s.identities| < MAX_PLAYER_ROWS
  {
  }

  /** Which peers are throttled makes no difference to the admission limits. */
  lemma ChargesAnyHello(l: Limiters, r: Limiters, cfg: Config, source: nat, known: Option<nat>, now: int, hello: map<nat, int>)
    requires LimitsCharged(l, r, cfg, source, known, now)
    ensures LimitsCharged(l.(hello := hello), r.(hello := hello), cfg, source, known, now)
  {
    hide RateLimit.Recent, RateLimit.Charged, RateLimit.Saturated;
  }

  lemma NotKnown(l: Limiters, r: Limiters, cfg: Config, source: nat, now: int)
    requires LimitsCharged(l, r, cfg, source, None, now)
    ensures r.reconnect == l.reconnect
  {
  }

  lemma GrantedCharges(s: ServerState, cfg: Config, peer: nat, hello: Hello, at: Option<Transport.Conn>, now: int, dbOk: bool)
    requires Inv(s, cfg) && cfg.cellSize > 0.0 && ReconnectRoom(s, cfg)
    requires peer !in s.sessions && Granted(s, cfg, peer, hello, at, now, dbOk)
    ensures
      var r := OnHello(s, cfg, peer, hello, at, now, dbOk);
      && r.server.limiters.hello == s.limiters.hello[peer := now] - (if r.evicted.Some? then {r.evicted.value} else {})
      && GrantCharged(s, r.server.limiters, cfg, at.value.addr.ip, hello.identity, now)
      && Enlisted(s, r.server, hello.identity)
  {
    hide Inv, Seat, LimitersOk, IdentitiesOk, RateLimit.KeyedAllow, RateLimit.BoundedAllow, PassLimits, Server.Admit,
         RateLimit.Recent, RateLimit.Charged, ReconnectRoom, RateLimit.Saturated, LimitsCharged;
    LimitersOfInv(s, cfg);
    AdmittedRow(s, cfg, hello.identity);
    LimitsOfHello(s, cfg, peer, hello.identity, at.value.addr.ip, now);
    var l1 := s.limiters.(hello := s.limiters.hello[peer := now]);
    var l2 := PassLimits(l1, cfg, at.value.addr.ip, Known(s, hello.identity), now).0;
    var l := OnHello(s, cfg, peer, hello, at, now, dbOk).server.limiters;
    ChargesAnyHello(l1, l2, cfg, at.value.addr.ip, Known(s, hello.identity), now, l.hello);
    if hello.identity in s.identities {
      SeatGates(s.(limiters := l2), cfg, peer, s.identities[hello.identity], hello.identity, at.value);
    } else {
      NewcomerIsRecorded(s, cfg, now);
      assert l2.reconnect == s.limiters.reconnect by { NotKnown(l1, l2, cfg, at.value.addr.ip, now); }
      var player := s.db.nextId;
      var s4 := s.(identities := s.identities[hello.identity := player], db := Db(s.identities[hello.identity := player], player + 1),
                   limiters := l2.(reconnect := RateLimit.BoundedAllow(l2.reconnect, cfg.helloMs, cfg.reconnectKeys, player, now).0));
      SeatGates(s4, cfg, peer, player, hello.identity, at.value);
    }
  }

  /**
    * What a hello leaves behind besides sessions. Within the hello interval of its peer: nothing at all. Otherwise the
    * peer is charged; if it has no session and the hello is well formed, the admission limits that admit it are
    * charged too, whether or not it is granted a session in the end; and only a granted hello touches the player
    * table, giving a new identity the next row. An eviction drops the evicted peer's hello throttle.
    */
  lemma HelloCharges(s: ServerState, cfg: Config, peer: nat, hello: Hello, at: Option<Transport.Conn>, now: int, dbOk: bool)
    requires Inv(s, cfg) && cfg.cellSize > 0.0 && ReconnectRoom(s, cfg)
    ensures
      var r := OnHello(s, cfg, peer, hello, at, now, dbOk);
      var l := r.server.limiters;
      if peer !in s.sessions && Granted(s, cfg, peer, hello, at, now, dbOk) then
        && l.hello == s.limiters.hello[peer := now] - (if r.evicted.Some? then {r.evicted.value} else {})
        && GrantCharged(s, l, cfg, at.value.addr.ip, hello.identity, now)
        && Enlisted(s, r.server, hello.identity)
      else
        && r.server == s.(limiters := l)
        && (if Applies(s, cfg, peer, hello, at, now) then
              && l.hello == s.limiters.hello[peer := now]
              && LimitsCharged(s.limiters.(hello := l.hello), l, cfg, at.value.addr.ip, Known(s, hello.identity), now)
            else if RateLimit.Recent(s.limiters.hello, cfg.helloMs, peer, now) then l == s.limiters
            else l == s.limiters.(hello := s.limiters.hello[peer := now]))
  {
    hide Inv, OnHello, GrantCharged, Enlisted, LimitsCharged, RateLimit.Recent, ReconnectRoom;
    if peer !in s.sessions && Granted(s, cfg, peer, hello, at, now, dbOk) {
      GrantedCharges(s, cfg, peer, hello, at, now, dbOk);
    } else {
      RefusedCharges(s, cfg, peer, hello, at, now, dbOk);
    }
  }

  // ----- Nothing but a hello touches the admission limits

  predicate SameGates(a: ServerState, b: ServerState) {
    && a.limiters.source == b.limiters.source && a.limiters.reconnect == b.limiters.reconnect
    && a.limiters.newSession == b.limiters.newSession && a.identities == b.identities && a.db == b.db
  }

  lemma {:induction false} VisitsGates(s: ServerState, peers: seq<nat>, moorings: map<nat, Aoi.Mooring>, down: set<nat>)
    ensures SameGates(s, AoiVisits(s, peers, moorings, down))
    decreases |peers|
  {
    hide Aoi.Visit, AoiEnv;
    if peers != [] { VisitsGates(AoiVisit(s, peers[0], AoiEnv(s, moorings, peers[0] !in down)), peers[1..], moorings, down); }
  }

  lemma AoiGates(s: ServerState, moorings: map<nat, Aoi.Mooring>, down: set<nat>)
    ensures SameGates(s, AoiTick(s, moorings, down))
  {
    hide AoiVisits, After;
    var peers := After(s.aoiRecipients, s.aoiCursor, AOI_WORK_ITEMS_PER_TICK);
    VisitsGates(if peers == [] then s else s.(aoiCursor := Some(peers[|peers| - 1])), peers, moorings, down);
  }

  lemma StateGates(s: ServerState, cfg: Config, peer: nat, position: Option<(real, real)>, now: int)
    requires cfg.cellSize > 0.0
    ensures SameGates(s, OnClientState(s, cfg, peer, position, now))
  {
    hide RateLimit.KeyedAllow, CellOf, Clamp, PlaceInCell, Block;
  }

  lemma ChatGates(s: ServerState, cfg: Config, peer: nat, within: bool, bytes: nat, now: int)
    ensures SameGates(s, OnChat(s, cfg, peer, within, bytes, now))
  {
    hide RateLimit.KeyedAllow, Fanout.Capture, Live, PushChat;
  }

  lemma LeaveGates(s: ServerState, peer: nat, refused: bool)
    ensures SameGates(s, OnDisconnect(s, peer, refused))
  {
    hide RemoveEntity, DirtyFlush.Leave;
  }

  lemma SnapGates(s: ServerState, cfg: Config)
    ensures SameGates(s, SnapTick(s, cfg).0)
  {
    hide Snapshots.Broadcast, Scene, SnapView;
  }

  lemma OthersKeepGates(s: ServerState, cfg: Config, op: Op)
    requires OpOk(op, cfg) && Fanout.FanOk(s.fan) && cfg.cellSize > 0.0 && !op.HelloOp?
    ensures SameGates(s, Step(s, cfg, op))
  {
    hide Fanout.FanOk, Fanout.Process, Fanout.Capture, OnClientState, OnChat, OnDisconnect, AoiTick, SnapTick, Live,
         DirtyFlush.Tick, DirtyFlush.FlushAll;
    match op
    case StateOp(peer, position, now) => StateGates(s, cfg, peer, position, now);
    case ChatOp(peer, within, bytes, now) => ChatGates(s, cfg, peer, within, bytes, now);
    case LeaveOp(peer, refused) => LeaveGates(s, peer, refused);
    case AoiOp(moorings, down) => AoiGates(s, moorings, down);
    case SnapOp => SnapGates(s, cfg);
    case _ =>
  }

  // ----- Two joins through one gate

  /** The three limits on joining: by source address, by player, and for players not seen before, by process. */
  datatype Gate = SourceGate(ip: nat) | PlayerGate(player: nat) | NewcomerGate

  function Interval(cfg: Config, gate: Gate): int {
    match gate
    case SourceGate(_) => cfg.sourceMs
    case PlayerGate(_) => cfg.helloMs
    case NewcomerGate => cfg.newSessionMs
  }

  /** The operation gets its peer a session, through this gate. */
  ghost predicate Joins(s: ServerState, cfg: Config, op: Op, gate: Gate)
    requires OpOk(op, cfg) && Fanout.FanOk(s.fan) && cfg.cellSize > 0.0
  {
    var r := Step(s, cfg, op);
    && op.HelloOp? && op.peer !in s.sessions && op.peer in r.sessions
    && match gate
       case SourceGate(ip) => r.sessions[op.peer].conn.addr.ip == ip
       case PlayerGate(player) => r.sessions[op.peer].player == player
       case NewcomerGate => op.hello.identity !in s.identities
  }

  /** A join at this time still counts at the gate. */
  ghost predicate Shut(s: ServerState, cfg: Config, gate: Gate, at: int, clock: int) {
    match gate
    case SourceGate(ip) => RateLimit.Fenced(s.limiters.source.last, cfg.sourceMs, ip, at, clock)
    case PlayerGate(player) =>
      player in s.identities.Values && RateLimit.Fenced(s.limiters.reconnect.last, cfg.helloMs, player, at, clock)
    case NewcomerGate => s.limiters.newSession.Some? && s.limiters.newSession.value >= at
  }

  function ClockAfter(op: Op, clock: int): int {
    if op.HelloOp? then op.now else clock
  }

  ghost predicate HelloTimes(ops: seq<Op>, clock: int)
    decreases |ops|
  {
    ops != [] ==> clock <= ClockAfter(ops[0], clock) && HelloTimes(ops[1..], ClockAfter(ops[0], clock))
  }

  lemma ChargedStands(before: map<nat, int>, after: map<nat, int>, interval: int, charged: nat, key: nat, at: int, clock: int, now: int)
    requires RateLimit.Charged(before, after, interval, charged, now) || after == before
    requires RateLimit.Fenced(before, interval, key, at, clock) && at <= clock <= now
    ensures RateLimit.Fenced(after, interval, key, at, now)
  {
  }

  /** What the gates look like after a hello, whatever came of it. */
  lemma HelloMoves(s: ServerState, cfg: Config, op: Op)
    requires Inv(s, cfg) && OpOk(op, cfg) && Fanout.FanOk(s.fan) && cfg.cellSize > 0.0 && ReconnectRoom(s, cfg) && op.HelloOp?
    ensures
      var l, r := s.limiters, Step(s, cfg, op).limiters;
      && (r.source == l.source
          || (op.at.Some? && RateLimit.Charged(l.source.last, r.source.last, cfg.sourceMs, op.at.value.addr.ip, op.now)))
      && (r.reconnect == l.reconnect
          || exists player :: player in Step(s, cfg, op).identities.Values
                              && RateLimit.Charged(l.reconnect.last, r.reconnect.last, cfg.helloMs, player, op.now))
      && (r.newSession == l.newSession || r.newSession == Some(op.now))
  {
    hide Inv, OnHello, RateLimit.Recent, RateLimit.Charged, ReconnectRoom, MaySource, MayJoin;
    HelloCharges(s, cfg, op.peer, op.hello, op.at, op.now, op.dbOk);
    var r := Step(s, cfg, op);
    if op.peer !in s.sessions && Granted(s, cfg, op.peer, op.hello, op.at, op.now, op.dbOk) {
      assert op.hello.identity in r.identities;
      var player := r.identities[op.hello.identity];
      assert player in r.identities.Values;
      assert RateLimit.Charged(s.limiters.reconnect.last, r.limiters.reconnect.last, cfg.helloMs, player, op.now)
             || r.limiters.reconnect == s.limiters.reconnect;
    } else if op.hello.identity in s.identities {
      assert s.identities[op.hello.identity] in s.identities.Values;
    }
  }

  lemma RoomStays(s: ServerState, cfg: Config, op: Op)
    requires Inv(s, cfg) && OpOk(op, cfg) && Fanout.FanOk(s.fan) && cfg.cellSize > 0.0 && ReconnectRoom(s, cfg)
    ensures ReconnectRoom(Step(s, cfg, op), cfg)
  {
    hide Inv, OnHello, Step, LimitsCharged, RateLimit.Recent, MayJoin;
    if op.HelloOp? {
      HelloMoves(s, cfg, op);
      HelloTable(s, cfg, op);
    } else {
      OthersKeepGates(s, cfg, op);
    }
  }

  /** The player table only grows, by one row at most and only within its ceiling. */
  lemma HelloTable(s: ServerState, cfg: Config, op: Op)
    requires Inv(s, cfg) && OpOk(op, cfg) && Fanout.FanOk(s.fan) && cfg.cellSize > 0.0 && ReconnectRoom(s, cfg) && op.HelloOp?
    ensures
      var r := Step(s, cfg, op).identities;
      s.identities.Values <= r.Values && (r == s.identities || |r| <= cfg.maxPlayerRows)
  {
    hide Inv, OnHello, GrantCharged, LimitsCharged, RateLimit.Recent, ReconnectRoom, MayJoin;
    HelloCharges(s, cfg, op.peer, op.hello, op.at, op.now, op.dbOk);
    var r := Step(s, cfg, op).identities;
    if r != s.identities {
      assert r == s.identities[op.hello.identity := s.db.nextId] && op.hello.identity !in s.identities;
      forall v | v in s.identities.Values ensures v in r.Values {
        var i :| i in s.identities && s.identities[i] == v;
        assert i in r && r[i] == v;
      }
    }
  }

  lemma ShutStays(s: ServerState, cfg: Config, op: Op, gate: Gate, at: int, clock: int)
    requires Inv(s, cfg) && OpOk(op, cfg) && Fanout.FanOk(s.fan) && cfg.cellSize > 0.0 && ReconnectRoom(s, cfg)
    requires Shut(s, cfg, gate, at, clock) && at <= clock <= ClockAfter(op, clock)
    ensures Shut(Step(s, cfg, op), cfg, gate, at, ClockAfter(op, clock))
  {
    hide Inv, Step, RateLimit.Fenced, RateLimit.Charged, ReconnectRoom;
    if op.HelloOp? {
      HelloMoves(s, cfg, op);
      HelloTable(s, cfg, op);
      var l, r := s.limiters, Step(s, cfg, op).limiters;
      match gate
      case SourceGate(ip) =>
        ChargedStands(l.source.last, r.source.last, cfg.sourceMs, if op.at.Some? then op.at.value.addr.ip else 0, ip, at, clock, op.now);
      case PlayerGate(player) =>
        if r.reconnect == l.reconnect {
          ChargedStands(l.reconnect.last, r.reconnect.last, cfg.helloMs, 0, player, at, clock, op.now);
        } else {
          var charged :| charged in Step(s, cfg, op).identities.Values
                         && RateLimit.Charged(l.reconnect.last, r.reconnect.last, cfg.helloMs, charged, op.now);
          ChargedStands(l.reconnect.last, r.reconnect.last, cfg.helloMs, charged, player, at, clock, op.now);
        }
      case NewcomerGate =>
    } else {
      OthersKeepGates(s, cfg, op);
    }
  }

  /** Who a granted hello seats. */
  lemma JoinIsGranted(s: ServerState, cfg: Config, op: Op, gate: Gate)
    requires Inv(s, cfg) && OpOk(op, cfg) && Fanout.FanOk(s.fan) && cfg.cellSize > 0.0 && Joins(s, cfg, op, gate)
    ensures
      var r := Step(s, cfg, op);
      && Granted(s, cfg, op.peer, op.hello, op.at, op.now, op.dbOk) && op.hello.identity in r.identities
      && (gate.SourceGate? ==> op.at.value.addr.ip == gate.ip)
      && (gate.PlayerGate? ==> r.identities[op.hello.identity] == gate.player)
  {
    hide Inv, OnHello, Granted, OnlyGenerations;
    HelloInv(s, cfg, op.peer, op.hello, op.at, op.now, op.dbOk);
    GrantedFrom(s, cfg, op.peer, op.hello, op.at, op.now, op.dbOk);
  }

  lemma GrantedFrom(s: ServerState, cfg: Config, peer: nat, hello: Hello, at: Option<Transport.Conn>, now: int, dbOk: bool)
    requires Granted(s, cfg, peer, hello, at, now, dbOk)
    ensures at.Some? && MayJoin(s.limiters, cfg, at.value.addr.ip, Known(s, hello.identity), now)
  {
  }

  /** A join finds its gate open, and shuts it. */
  lemma JoinShuts(s: ServerState, cfg: Config, op: Op, gate: Gate)
    requires Inv(s, cfg) && OpOk(op, cfg) && Fanout.FanOk(s.fan) && cfg.cellSize > 0.0 && ReconnectRoom(s, cfg)
    requires Joins(s, cfg, op, gate)
    ensures Shut(Step(s, cfg, op), cfg, gate, op.now, op.now)
  {
    hide Inv, OnHello, RateLimit.Recent, RateLimit.Charged, RateLimit.Fenced, ReconnectRoom, RateLimit.Saturated;
    JoinIsGranted(s, cfg, op, gate);
    HelloCharges(s, cfg, op.peer, op.hello, op.at, op.now, op.dbOk);
    var l, r := s.limiters, Step(s, cfg, op).limiters;
    var ip, player := op.at.value.addr.ip, Step(s, cfg, op).identities[op.hello.identity];
    RateLimit.ChargedIsFenced(l.source.last, r.source.last, cfg.sourceMs, ip, op.now);
    RateLimit.ChargedIsFenced(l.reconnect.last, r.reconnect.last, cfg.helloMs, player, op.now);
  }

  lemma ShutMeansApart(s: ServerState, cfg: Config, op: Op, gate: Gate, at: int, clock: int)
    requires Inv(s, cfg) && OpOk(op, cfg) && Fanout.FanOk(s.fan) && cfg.cellSize > 0.0 && ReconnectRoom(s, cfg)
    requires Joins(s, cfg, op, gate) && Shut(s, cfg, gate, at, clock) && clock <= op.now
    ensures op.now - at >= Interval(cfg, gate)
  {
    hide Inv, OnHello, RateLimit.Recent, RateLimit.Fenced, ReconnectRoom, RateLimit.Saturated;
    JoinIsGranted(s, cfg, op, gate);
    match gate
    case SourceGate(ip) => RateLimit.FencedLater(s.limiters.source.last, cfg.sourceMs, ip, at, clock, op.now);
    case PlayerGate(player) =>
      JoinKnows(s, cfg, op, player);
      RateLimit.FencedLater(s.limiters.reconnect.last, cfg.helloMs, player, at, clock, op.now);
    case NewcomerGate =>
  }

  /** A player that has a row joins under its own identity. */
  lemma JoinKnows(s: ServerState, cfg: Config, op: Op, player: nat)
    requires Inv(s, cfg) && OpOk(op, cfg) && Fanout.FanOk(s.fan) && cfg.cellSize > 0.0 && ReconnectRoom(s, cfg) && op.HelloOp?
    requires op.peer !in s.sessions && Granted(s, cfg, op.peer, op.hello, op.at, op.now, op.dbOk)
    requires op.hello.identity in Step(s, cfg, op).identities && Step(s, cfg, op).identities[op.hello.identity] == player
    requires player in s.identities.Values
    ensures op.hello.identity in s.identities && Known(s, op.hello.identity) == Some(player)
  {
    hide Inv, OnHello, GrantCharged, LimitsCharged, Granted, ReconnectRoom;
    LimitersOfInv(s, cfg);
    HelloCharges(s, cfg, op.peer, op.hello, op.at, op.now, op.dbOk);
  }

  // ----- ... over every run

  ghost predicate JoinsAt(s: ServerState, cfg: Config, ops: seq<Op>, i: nat, gate: Gate)
    requires Inv(s, cfg) && OpsOk(ops, cfg) && i < |ops|
  {
    hide Inv, OpOk, Step, Fanout.FanOk;
    assert OpOk(ops[i], cfg);
    StepInv(StateAt(s, cfg, ops, i), cfg, ops[i]);
    Joins(StateAt(s, cfg, ops, i), cfg, ops[i], gate)
  }

  lemma JoinsLater(s: ServerState, cfg: Config, ops: seq<Op>, i: nat, gate: Gate)
    requires Inv(s, cfg) && OpsOk(ops, cfg) && 0 < i < |ops| && JoinsAt(s, cfg, ops, i, gate)
    ensures OpOk(ops[0], cfg) && OpsOk(ops[1..], cfg) && Fanout.FanOk(s.fan) && cfg.cellSize > 0.0
    ensures Inv(Step(s, cfg, ops[0]), cfg) && JoinsAt(Step(s, cfg, ops[0]), cfg, ops[1..], i - 1, gate)
  {
    hide Inv, OpsOk, OpOk, Step, Fanout.FanOk, Joins;
    OpsTail(ops, cfg);
    StepInv(s, cfg, ops[0]);
  }

  lemma JoinsFirst(s: ServerState, cfg: Config, ops: seq<Op>, gate: Gate)
    requires Inv(s, cfg) && OpsOk(ops, cfg) && ops != [] && JoinsAt(s, cfg, ops, 0, gate)
    ensures OpOk(ops[0], cfg) && Fanout.FanOk(s.fan) && cfg.cellSize > 0.0 && Joins(s, cfg, ops[0], gate)
  {
    hide Inv, OpsOk, OpOk, Step, Fanout.FanOk, Joins;
    OpsTail(ops, cfg);
    StepInv(s, cfg, ops[0]);
  }

  lemma {:induction false} ApartFrom(s: ServerState, cfg: Config, ops: seq<Op>, gate: Gate, at: int, clock: int, j: nat)
    requires Inv(s, cfg) && OpsOk(ops, cfg) && ReconnectRoom(s, cfg) && HelloTimes(ops, clock)
    requires Shut(s, cfg, gate, at, clock) && at <= clock && j < |ops| && JoinsAt(s, cfg, ops, j, gate)
    ensures ops[j].HelloOp? && ops[j].now - at >= Interval(cfg, gate)
    decreases j
  {
    hide Inv, OpsOk, OpOk, Step, Fanout.FanOk, Shut, ReconnectRoom, JoinsAt, Interval;
    if j == 0 {
      JoinsFirst(s, cfg, ops, gate);
      ShutMeansApart(s, cfg, ops[0], gate, at, clock);
    } else {
      JoinsLater(s, cfg, ops, j, gate);
      ShutStays(s, cfg, ops[0], gate, at, clock);
      RoomStays(s, cfg, ops[0]);
      ApartFrom(Step(s, cfg, ops[0]), cfg, ops[1..], gate, at, ClockAfter(ops[0], clock), j - 1);
    }
  }

  /**
    * Spacing over every run of the server, hellos arriving in the order of their times: two joins from one source are
    * the source interval apart, two of one player the hello interval, and two of players not seen before the
    * process-wide interval, whatever happens in between: departures, evictions, refusals and database failures.
    */
  lemma {:induction false} JoinsAreSpaced(s: ServerState, cfg: Config, ops: seq<Op>, gate: Gate, clock: int, i: nat, j: nat)
    requires Inv(s, cfg) && OpsOk(ops, cfg) && ReconnectRoom(s, cfg) && HelloTimes(ops, clock)
    requires i < j < |ops| && JoinsAt(s, cfg, ops, i, gate) && JoinsAt(s, cfg, ops, j, gate)
    ensures ops[i].HelloOp? && ops[j].HelloOp? && ops[j].now - ops[i].now >= Interval(cfg, gate)
    decreases i
  {
    hide Inv, OpsOk, OpOk, Step, Fanout.FanOk, Shut, ReconnectRoom, JoinsAt, Interval;
    JoinsLater(s, cfg, ops, j, gate);
    RoomStays(s, cfg, ops[0]);
    var next := Step(s, cfg, ops[0]);
    if i == 0 {
      JoinsFirst(s, cfg, ops, gate);
      JoinShuts(s, cfg, ops[0], gate);
      ApartFrom(next, cfg, ops[1..], gate, ops[0].now, ops[0].now, j - 1);
    } else {
      JoinsLater(s, cfg, ops, i, gate);
      JoinsAreSpaced(next, cfg, ops[1..], gate, ClockAfter(ops[0], clock), i - 1, j - 1);
    }
  }

  /** The server starts with room for every player in its reconnect limiter, sized as the source sizes it. */
  lemma StartsWithRoom(cfg: Config, db: Db)
    requires ConfigOk(cfg) && IdentitiesOk(db.players, db)
    requires cfg.reconnectKeys == (if |db.players| > cfg.maxPlayerRows then |db.players| else cfg.maxPlayerRows)
    ensures Inv(Boot(db), cfg) && ReconnectRoom(Boot(db), cfg)
  {
    hide Inv;
    BootInv(cfg, db);
  }
}
