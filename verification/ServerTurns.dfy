/** Whose turn delivery gives: over runs of the server's operations nobody who is scheduled waits for more than one lap. */
module ServerTurns {
  import opened Options
  import opened OrderedSets
  import opened Wire
  import opened World
  import RateLimit
  import Transport
  import Aoi
  import Fanout
  import DirtyFlush
  import opened Server
  import opened ServerInvariants
  import opened ServerRuns
  import opened ServerFrames
  import opened ServerDelivery

  // ----- Going round from a cursor

  /** The turn of `x` comes before that of `y`, in ascending order from the cursor and wrapping round. */
  predicate Sooner(cursor: Option<nat>, x: nat, y: nat) {
    var ahead, behind := cursor.Some? && x > cursor.value, cursor.Some? && y > cursor.value;
    (ahead && !behind) || (ahead == behind && x < y)
  }

  lemma RotatedOrder(s: set<nat>, cursor: Option<nat>, i: nat, j: nat)
    requires i < j < |Rotated(s, cursor)|
    ensures Sooner(cursor, Rotated(s, cursor)[i], Rotated(s, cursor)[j])
  {
    hide Sorted;
    if cursor.Some? {
      var a, b := Sorted(Above(s, cursor.value)), Sorted(UpTo(s, cursor.value));
      if i < |a| { assert a[i] in a; } else { assert b[i - |a|] in b; }
      if j < |a| { assert a[j] in a; } else { assert b[j - |a|] in b; }
    }
  }

  /** Those who may still come between the cursor and `p`, of the ids up to `most`. */
  function Ahead(cursor: Option<nat>, p: nat, most: nat): set<nat> {
    set q | 1 <= q <= most && Sooner(cursor, q, p)
  }

  lemma AheadFits(cursor: Option<nat>, p: nat, most: nat)
    requires 1 <= p <= most
    ensures |Ahead(cursor, p, most)| < most
  {
    PeersFit(Ahead(cursor, p, most) + {p}, most);
    assert p !in Ahead(cursor, p, most);
  }

  /** Whoever comes between `last` and `p`, with `last` before `p`, comes after `last` in the old order too. */
  lemma SoonerFrom(cursor: Option<nat>, last: nat, q: nat, p: nat)
    requires Sooner(cursor, last, p) && Sooner(Some(last), q, p)
    ensures Sooner(cursor, q, p) && Sooner(cursor, last, q) && !Sooner(cursor, q, last) && q != last
  {
  }

  lemma TurnIsPrefix(s: set<nat>, cursor: Option<nat>, limit: nat, p: nat) returns (k: nat)
    requires p in s && p !in After(s, cursor, limit)
    ensures |After(s, cursor, limit)| == limit && After(s, cursor, limit) <= Rotated(s, cursor)
    ensures limit <= k < |Rotated(s, cursor)| && Rotated(s, cursor)[k] == p
  {
    hide Rotated;
    var turn, all := After(s, cursor, limit), Rotated(s, cursor);
    RotatedIsPermutation(s, cursor);
    k :| 0 <= k < |all| && all[k] == p;
    assert forall i :: 0 <= i < |turn| ==> turn[i] == all[i] && turn[i] in turn;
  }

  lemma TurnOrder(s: set<nat>, cursor: Option<nat>, limit: nat, p: nat, i: nat)
    requires p in s && p !in After(s, cursor, limit) && i < limit
    ensures |After(s, cursor, limit)| == limit
    ensures
      var turn := After(s, cursor, limit);
      turn[i] in s && Sooner(cursor, turn[i], p) && (i < limit - 1 ==> Sooner(cursor, turn[i], turn[limit - 1]))
  {
    hide Rotated, Sooner, After;
    var k := TurnIsPrefix(s, cursor, limit, p);
    RotatedOrder(s, cursor, i, k);
    if i < limit - 1 { RotatedOrder(s, cursor, i, limit - 1); }
    assert After(s, cursor, limit)[i] in After(s, cursor, limit);
  }

  /** A turn that passes over `p` gives all its places to ids that come before it, and moves on past them. */
  lemma TurnPasses(s: set<nat>, cursor: Option<nat>, limit: nat, p: nat, most: nat)
    requires p in s && 0 < limit && p !in After(s, cursor, limit) && forall q :: q in s ==> 1 <= q <= most
    ensures |After(s, cursor, limit)| == limit
    ensures |Ahead(Some(After(s, cursor, limit)[limit - 1]), p, most)| + limit <= |Ahead(cursor, p, most)|
  {
    hide After, Sooner;
    var turn := After(s, cursor, limit);
    TurnOrder(s, cursor, limit, p, limit - 1);
    var last := turn[limit - 1];
    var passed := set i | 0 <= i < limit :: turn[i];
    TurnSize(turn, limit);
    var later := Ahead(Some(last), p, most);
    forall x | x in passed ensures x in Ahead(cursor, p, most) && x !in later {
      var i :| 0 <= i < limit && turn[i] == x;
      TurnOrder(s, cursor, limit, p, i);
      if x in later { SoonerFrom(cursor, last, x, p); }
    }
    forall q | q in later ensures q in Ahead(cursor, p, most) { SoonerFrom(cursor, last, q, p); }
    assert passed * later == {};
    SubsetSize(passed + later, Ahead(cursor, p, most));
    assert |passed + later| == |passed| + |later|;
  }

  lemma {:induction false} TurnSize(turn: seq<nat>, n: nat)
    requires Distinct(turn) && n <= |turn|
    ensures |set i | 0 <= i < n :: turn[i]| == n
    decreases n
  {
    var now := set i | 0 <= i < n :: turn[i];
    if n > 0 {
      TurnSize(turn, n - 1);
      var before := set i | 0 <= i < n - 1 :: turn[i];
      assert now == before + {turn[n - 1]};
      assert turn[n - 1] !in before;
    } else {
      assert now == {};
    }
  }

  // ----- What keeps a session's place

  /** The cursor stands where it did, and nobody but `gone` lost a place. */
  predicate KeepsPlaces(a: ServerState, b: ServerState, gone: set<nat>) {
    b.aoiCursor == a.aoiCursor && a.aoiRecipients - gone <= b.aoiRecipients
  }

  lemma RegisterPlaces(s: ServerState, maxPeers: nat, peer: nat, session: Session)
    ensures
      var r := Register(s, maxPeers, peer, session);
      r.Some? ==> KeepsPlaces(s, r.value, {})
  {
    hide Rekeyed;
  }

  lemma SeatPlaces(s: ServerState, cfg: Config, peer: nat, player: nat, identity: Identity, conn: Transport.Conn)
    requires cfg.cellSize > 0.0
    ensures
      var pp := Superseded(s, player, peer);
      KeepsPlaces(s, Seat(s, cfg, peer, player, identity, conn), if pp.Some? then {pp.value} else {})
  {
    hide Register, NewSession, PlaceInCell;
    var pp := Superseded(s, player, peer);
    var s1 := if pp.Some? then Evict(s, pp.value) else s;
    var session := NewSession(s1.nextSerial, cfg, player, identity, conn);
    RegisterPlaces(s1.(world := PlaceInCell(s1.world, player, session.cell)), cfg.maxPeers, peer, session);
  }

  lemma HelloPlaces(s: ServerState, cfg: Config, peer: nat, hello: Hello, at: Option<Transport.Conn>, now: int, dbOk: bool)
    requires cfg.cellSize > 0.0
    ensures
      var r := OnHello(s, cfg, peer, hello, at, now, dbOk);
      KeepsPlaces(s, r.server, if r.evicted.Some? then {r.evicted.value} else {})
  {
    hide Seat, RateLimit.KeyedAllow, RateLimit.BoundedAllow, PassLimits, Server.Admit;
    var s1 := s.(limiters := s.limiters.(hello := RateLimit.KeyedAllow(s.limiters.hello, cfg.helloMs, peer, now).0));
    if at.Some? {
      var known := if hello.identity in s.identities then Some(s.identities[hello.identity]) else None;
      var s2 := s1.(limiters := PassLimits(s1.limiters, cfg, at.value.addr.ip, known, now).0);
      var admission := Server.Admit(s2.db, hello.identity, cfg.maxPlayerRows);
      if admission.Admitted? {
        var player := admission.player;
        var s3 := s2.(db := admission.db);
        var s4 := if known.Some? then s3 else
                    s3.(identities := s3.identities[hello.identity := player],
                        limiters := s3.limiters.(reconnect :=
                          RateLimit.BoundedAllow(s3.limiters.reconnect, cfg.helloMs, cfg.reconnectKeys, player, now).0));
        SeatPlaces(s4, cfg, peer, player, hello.identity, at.value);
      }
    }
  }

  lemma EvictedIsGone(s: ServerState, cfg: Config, peer: nat, hello: Hello, at: Option<Transport.Conn>, now: int, dbOk: bool)
    requires Inv(s, cfg) && cfg.cellSize > 0.0 && 1 <= peer <= cfg.maxPeers
    ensures
      var r := OnHello(s, cfg, peer, hello, at, now, dbOk);
      r.evicted.Some? ==> r.evicted.value !in r.server.sessions
  {
    hide Inv, OnHello, Granted;
    HelloInv(s, cfg, peer, hello, at, now, dbOk);
    var r := OnHello(s, cfg, peer, hello, at, now, dbOk);
    if r.evicted.Some? {
      assert r.evicted.value !in r.server.sessions - {peer};
    }
  }

  lemma StatePlaces(s: ServerState, cfg: Config, peer: nat, position: Option<(real, real)>, now: int)
    requires cfg.cellSize > 0.0
    ensures KeepsPlaces(s, OnClientState(s, cfg, peer, position, now), {})
  {
    hide RateLimit.KeyedAllow, CellOf, Clamp, PlaceInCell, Block;
  }

  lemma LeavePlaces(s: ServerState, peer: nat, refused: bool)
    ensures KeepsPlaces(s, OnDisconnect(s, peer, refused), {peer})
  {
    hide RemoveEntity, DirtyFlush.Leave;
  }

  lemma {:induction false} VisitsPlaces(s: ServerState, peers: seq<nat>, moorings: map<nat, Aoi.Mooring>, down: set<nat>, p: nat)
    requires p in s.aoiRecipients && p !in peers
    ensures
      var r := AoiVisits(s, peers, moorings, down);
      p in r.aoiRecipients && r.aoiCursor == s.aoiCursor
    decreases |peers|
  {
    hide Aoi.Visit, AoiEnv;
    if peers != [] { VisitsPlaces(AoiVisit(s, peers[0], AoiEnv(s, moorings, peers[0] !in down)), peers[1..], moorings, down, p); }
  }

  /** A delivery tick that passes over `p` leaves it its place and moves the cursor to the last it visited. */
  lemma TickPlaces(s: ServerState, moorings: map<nat, Aoi.Mooring>, down: set<nat>, p: nat)
    requires p in s.aoiRecipients && p !in AoiTurn(s)
    ensures
      var r := AoiTick(s, moorings, down);
      p in r.aoiRecipients && (AoiTurn(s) != [] ==> r.aoiCursor == Some(AoiTurn(s)[|AoiTurn(s)| - 1]))
  {
    hide AoiVisits, After;
    var peers := AoiTurn(s);
    VisitsPlaces(if peers == [] then s else s.(aoiCursor := Some(peers[|peers| - 1])), peers, moorings, down, p);
  }

  /** Until its turn comes, nothing but its own departure takes a scheduled session's place. */
  lemma OthersKeepPlace(s: ServerState, cfg: Config, op: Op, p: nat)
    requires Inv(s, cfg) && OpOk(op, cfg) && Fanout.FanOk(s.fan) && cfg.cellSize > 0.0 && !op.AoiOp?
    requires p in s.aoiRecipients && p in Step(s, cfg, op).sessions
    ensures p in Step(s, cfg, op).aoiRecipients && Step(s, cfg, op).aoiCursor == s.aoiCursor
  {
    hide Inv, OnHello, OnClientState, OnChat, OnDisconnect, SnapTick, FanTick, ClockTick, Fanout.FanOk, DirtyFlush.Tick,
         DirtyFlush.FlushAll;
    match op
    case HelloOp(peer, hello, at, now, dbOk) =>
      HelloPlaces(s, cfg, peer, hello, at, now, dbOk);
      EvictedIsGone(s, cfg, peer, hello, at, now, dbOk);
    case StateOp(peer, position, now) => StatePlaces(s, cfg, peer, position, now);
    case LeaveOp(peer, refused) =>
      LeavePlaces(s, peer, refused);
      DisconnectInv(s, cfg, peer, refused);
    case SnapOp => SnapTickFrame(s, cfg);
    case _ => SeatlessFrame(s, cfg, op);
  }

  // ----- Nobody waits for more than one lap

  lemma WaitingFit(s: ServerState, cfg: Config)
    requires Inv(s, cfg)
    ensures forall p :: p in s.aoiRecipients ==> 1 <= p <= cfg.maxPeers
  {
    hide PlacedOk, AwakeOk, GenerationsOk, FanoutOk, IdentitiesOk, AuthenticOk, DirtyFlush.Conserved, LimitersOk, Live, Tracks;
  }

  /** How many more delivery ticks may pass over `p`, in eighths of a tick. */
  ghost function Wait(s: ServerState, cfg: Config, p: nat): nat {
    |Ahead(s.aoiCursor, p, cfg.maxPeers)|
  }

  lemma {:induction false} VisitedInTime(s: ServerState, cfg: Config, ops: seq<Op>, p: nat) returns (k: nat)
    requires Inv(s, cfg) && OpsOk(ops, cfg) && StaysSeated(s, cfg, ops, p) && p in s.aoiRecipients
    requires Wait(s, cfg, p) < AOI_WORK_ITEMS_PER_TICK * AoiCount(ops)
    ensures k < |ops| && ops[k].AoiOp? && p in AoiTurn(StateAt(s, cfg, ops, k))
    decreases |ops|
  {
    hide Inv, OpsOk, OpOk, Step, Fanout.FanOk, StaysSeated, Wait, AoiTurn;
    if ops[0].AoiOp? && p in AoiTurn(s) {
      k := 0;
    } else {
      StaysTail(s, cfg, ops, p);
      var next := Step(s, cfg, ops[0]);
      if ops[0].AoiOp? { TickPasses(s, cfg, ops[0], p); } else { OthersWait(s, cfg, ops[0], p); }
      var later := VisitedInTime(next, cfg, ops[1..], p);
      k := later + 1;
    }
  }

  lemma TickPasses(s: ServerState, cfg: Config, op: Op, p: nat)
    requires Inv(s, cfg) && OpOk(op, cfg) && Fanout.FanOk(s.fan) && cfg.cellSize > 0.0 && op.AoiOp?
    requires p in s.aoiRecipients && p !in AoiTurn(s)
    ensures p in Step(s, cfg, op).aoiRecipients && Wait(Step(s, cfg, op), cfg, p) + AOI_WORK_ITEMS_PER_TICK <= Wait(s, cfg, p)
  {
    hide Inv, Fanout.FanOk, AoiTick, Ahead, After;
    WaitingFit(s, cfg);
    TickPlaces(s, op.moorings, op.down, p);
    TurnPasses(s.aoiRecipients, s.aoiCursor, AOI_WORK_ITEMS_PER_TICK, p, cfg.maxPeers);
  }

  lemma OthersWait(s: ServerState, cfg: Config, op: Op, p: nat)
    requires Inv(s, cfg) && OpOk(op, cfg) && Fanout.FanOk(s.fan) && cfg.cellSize > 0.0 && !op.AoiOp?
    requires p in s.aoiRecipients && p in Step(s, cfg, op).sessions
    ensures p in Step(s, cfg, op).aoiRecipients && Wait(Step(s, cfg, op), cfg, p) == Wait(s, cfg, p)
  {
    hide Inv, Fanout.FanOk, Step;
    OthersKeepPlace(s, cfg, op, p);
  }

  /**
    * Fairness over every run, whoever joins, leaves, moves and is rescheduled meanwhile: a scheduled session that stays is
    * visited by one of any ceil(n / 8) delivery ticks, n being the ceiling on peers.
    */
  lemma EveryoneGetsATurn(s: ServerState, cfg: Config, ops: seq<Op>, p: nat) returns (k: nat)
    requires Inv(s, cfg) && OpsOk(ops, cfg) && StaysSeated(s, cfg, ops, p) && p in s.aoiRecipients
    requires cfg.maxPeers <= AOI_WORK_ITEMS_PER_TICK * AoiCount(ops)
    ensures k < |ops| && ops[k].AoiOp? && p in AoiTurn(StateAt(s, cfg, ops, k))
  {
    hide Inv, OpsOk, StaysSeated, Ahead, AoiTurn, StateAt;
    WaitingFit(s, cfg);
    AheadFits(s.aoiCursor, p, cfg.maxPeers);
    k := VisitedInTime(s, cfg, ops, p);
  }
}
