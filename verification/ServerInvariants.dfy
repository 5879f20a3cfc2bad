/**
  * What every message and every tick of the session server keeps: its redundant indexes agree, every session
  * stands where the world and its subscription say, no area-of-interest wakeup is lost, queued fanout can only
  * reach the sessions it captured, and no dirty mark is dropped.
  *
  * Each invariant is a predicate on the fields it speaks about, so that an operation has to argue only about
  * the ones whose fields it writes.
  */
module ServerInvariants {
  import opened Options
  import opened Numbers
  import opened OrderedSets
  import opened Wire
  import opened World
  import RateLimit
  import Transport
  import Recurrence
  import Aoi
  import Fanout
  import DirtyFlush
  import opened Server

  // ----- The invariants

  const MAX_HELLO_MS := 250
  const MAX_NEW_SESSION_MS := 1000
  const MAX_THROTTLE_MS := 3600000

  /** The intervals that configuration validation admits; the interval per source is derived from the other two. */
  predicate IntervalsOk(cfg: Config) {
    && 1 <= cfg.helloMs <= MAX_HELLO_MS && 1 <= cfg.newSessionMs <= MAX_NEW_SESSION_MS
    && cfg.sourceMs == RateLimit.SourceInterval(cfg.helloMs, cfg.newSessionMs)
    && 0 <= cfg.clientStateMs <= MAX_THROTTLE_MS && 0 <= cfg.chatMs <= MAX_THROTTLE_MS
  }

  /** The ceilings and intervals that configuration validation enforces. */
  predicate ConfigOk(cfg: Config) {
    && 1 <= cfg.maxPeers <= Fanout.DEFAULT_MAX_PEERS
    && 1 <= cfg.radius <= MAX_AOI_RADIUS && cfg.cellSize >= 1.0
    && 1 <= cfg.maxPlayerRows <= MAX_PLAYER_ROWS
    && IntervalsOk(cfg)
  }

  /** Sessions and the player index are mutually inverse, and the ordered sets are exactly their keys. */
  ghost predicate IndexesOk(sessions: map<nat, Session>, playerPeers: map<nat, nat>, playerOrder: set<nat>,
                            snapRecipients: set<nat>, aoiRecipients: set<nat>, maxPeers: nat)
  {
    && (forall p :: p in sessions ==> 1 <= p <= maxPeers)
    && (forall p :: p in sessions ==> sessions[p].player in playerPeers && playerPeers[sessions[p].player] == p)
    && (forall q :: q in playerPeers ==> playerPeers[q] in sessions && sessions[playerPeers[q]].player == q)
    && playerOrder == playerPeers.Keys
    && snapRecipients == sessions.Keys
    && aoiRecipients <= sessions.Keys
  }

  /** A session's cell, its world cell and its subscription block agree. */
  ghost predicate Placed(session: Session, cellOf: map<nat, Cell>, radius: nat) {
    && session.player in cellOf && cellOf[session.player] == session.cell
    && session.center == Some(session.cell)
    && session.aoi.sub == Block(session.cell, radius)
  }

  ghost predicate PlacedOk(sessions: map<nat, Session>, world: Placement, radius: nat) {
    && PlacementOk(world)
    && (forall p :: p in sessions ==> Placed(sessions[p], world.cellOf, radius))
  }

  /** The world holds the indexed players and, in the middle of a handler, the one being seated or removed. */
  ghost predicate Tracks(world: Placement, playerPeers: map<nat, nat>, extra: set<nat>) {
    world.cellOf.Keys == playerPeers.Keys + extra
  }

  /** A session's delivery is consistent, and its client sees exactly the published cells. */
  ghost predicate DeliveryOk(session: Session) {
    Aoi.AoiOk(session.aoi) && session.mirror == session.aoi.published
  }

  /** No lost wakeup: a session with outstanding delivery work is always scheduled. */
  ghost predicate AwakeOk(sessions: map<nat, Session>, aoiRecipients: set<nat>) {
    forall p :: p in sessions ==> DeliveryOk(sessions[p]) && (Aoi.HasWork(sessions[p].aoi) ==> p in aoiRecipients)
  }

  /** Generations are within the counter, and serials are never shared. */
  ghost predicate GenerationsOk(sessions: map<nat, Session>, nextGen: nat, nextSerial: nat) {
    && nextGen <= U64_MAX
    && (forall p :: p in sessions ==> sessions[p].generation <= nextGen && sessions[p].serial < nextSerial)
    && (forall p, q :: p in sessions && q in sessions && p != q ==> sessions[p].serial != sessions[q].serial)
  }

  ghost predicate FanoutOk(fan: Fanout.FanState, live: map<nat, Fanout.Listener>, nextGen: nat, heard: seq<Fanout.Delivery>) {
    && Fanout.FanOk(fan)
    && Fanout.QueuesFaithful(fan, live, nextGen)
    && Fanout.CacheOk(fan, live)
    && Fanout.LogOk(heard, fan)
  }

  /** The identity index is the player table, and hands no player to two identities. */
  ghost predicate IdentitiesOk(identities: map<Identity, nat>, db: Db) {
    && identities == db.players
    && |identities| <= MAX_PLAYER_ROWS
    && (forall i :: i in identities ==> identities[i] < db.nextId)
    && (forall i, j :: i in identities && j in identities && i != j ==> identities[i] != identities[j])
  }

  /** A session acts for the player its own token names. */
  ghost predicate AuthenticOk(sessions: map<nat, Session>, identities: map<Identity, nat>) {
    forall p :: p in sessions ==>
      sessions[p].identity in identities && identities[sessions[p].identity] == sessions[p].player
  }

  ghost predicate LimitersOk(l: Limiters, cfg: Config) {
    RateLimit.BoundedOk(l.source, cfg.maxPeers) && RateLimit.BoundedOk(l.reconnect, cfg.reconnectKeys)
  }

  /** Everything but the agreement of the world's population with the player index. */
  ghost predicate Core(s: ServerState, cfg: Config) {
    && IndexesOk(s.sessions, s.playerPeers, s.playerOrder, s.snapRecipients, s.aoiRecipients, cfg.maxPeers)
    && PlacedOk(s.sessions, s.world, cfg.radius)
    && AwakeOk(s.sessions, s.aoiRecipients)
    && GenerationsOk(s.sessions, s.nextGen, s.nextSerial)
    && FanoutOk(s.fan, Live(s.sessions), s.nextGen, s.heard)
    && IdentitiesOk(s.identities, s.db)
    && AuthenticOk(s.sessions, s.identities)
    && DirtyFlush.Conserved(s.flush, s.unsaved)
    && LimitersOk(s.limiters, cfg)
  }

  ghost predicate Inv(s: ServerState, cfg: Config) {
    ConfigOk(cfg) && Core(s, cfg) && Tracks(s.world, s.playerPeers, {})
  }

  /** The server at start-up: no sessions, and the identity index loaded from the player table. */
  function Boot(db: Db): ServerState {
    ServerState(map[], map[], {}, {}, None, 0, {}, None, Fanout.NO_FANOUT, DirtyFlush.FlushState({}, {}, false),
                db.players, 0, Placement(map[], map[]),
                Limiters(map[], RateLimit.Bounded(map[], {}), RateLimit.Bounded(map[], {}), None, map[], map[]),
                db, 0, [], {})
  }

  lemma BootInv(cfg: Config, db: Db)
    requires ConfigOk(cfg) && IdentitiesOk(db.players, db)
    ensures Inv(Boot(db), cfg)
  {
  }

  lemma {:induction false} PeersFit(peers: set<nat>, maxPeers: nat)
    requires forall p :: p in peers ==> 1 <= p <= maxPeers
    ensures |peers| <= maxPeers
    decreases maxPeers
  {
    if maxPeers in peers {
      PeersFit(peers - {maxPeers}, maxPeers - 1);
    } else if maxPeers > 0 {
      PeersFit(peers, maxPeers - 1);
    } else {
      assert peers == {};
    }
  }

  // ----- Fanout against the live sessions

  /** Nothing fanout relies on differs between the two: same peers, same generations, same sessions. */
  ghost predicate SameListeners(a: map<nat, Fanout.Listener>, b: map<nat, Fanout.Listener>) {
    && a.Keys == b.Keys
    && (forall p :: p in a ==> a[p].generation == b[p].generation && a[p].serial == b[p].serial)
  }

  lemma FreshCaptureFrame(a: map<nat, Fanout.Listener>, b: map<nat, Fanout.Listener>)
    requires SameListeners(a, b)
    ensures Fanout.FreshCapture(a) == Fanout.FreshCapture(b)
  {
    hide Sorted;
    assert |a| == |a.Keys| && |b| == |b.Keys|;
    var x, y := Fanout.FreshCapture(a), Fanout.FreshCapture(b);
    forall i | 0 <= i < |x| ensures x[i] == y[i] { Fanout.SortedMember(a.Keys, i); }
  }

  lemma FanoutFrame(fan: Fanout.FanState, a: map<nat, Fanout.Listener>, b: map<nat, Fanout.Listener>, nextGen: nat,
                    heard: seq<Fanout.Delivery>)
    requires FanoutOk(fan, a, nextGen, heard) && SameListeners(a, b)
    ensures FanoutOk(fan, b, nextGen, heard)
  {
    hide Fanout.FanOk, Fanout.LogOk, Fanout.FreshCapture;
    FreshCaptureFrame(a, b);
  }

  /** Losing a listener never makes a queued recipient ambiguous. */
  lemma FanoutLeave(fan: Fanout.FanState, live: map<nat, Fanout.Listener>, nextGen: nat, heard: seq<Fanout.Delivery>, peer: nat)
    requires FanoutOk(fan, live, nextGen, heard)
    ensures FanoutOk(fan.(cache := None), live - {peer}, nextGen, heard)
  {
    hide Fanout.LogSound, Fanout.FreshCapture, Fanout.TotalBytes;
  }

  /** Nor does a listener with a generation above every captured one. */
  lemma FanoutJoin(fan: Fanout.FanState, live: map<nat, Fanout.Listener>, nextGen: nat, heard: seq<Fanout.Delivery>,
                   peer: nat, l: Fanout.Listener)
    requires FanoutOk(fan, live, nextGen, heard) && l.generation == nextGen + 1
    ensures FanoutOk(fan.(cache := None), live[peer := l], nextGen + 1, heard)
  {
    hide Fanout.LogSound, Fanout.FreshCapture, Fanout.TotalBytes;
  }

  /** With every queue dropped, generations may be reassigned at will. */
  lemma FanoutInvalidated(fan: Fanout.FanState, live: map<nat, Fanout.Listener>, nextGen: nat, heard: seq<Fanout.Delivery>,
                          live': map<nat, Fanout.Listener>, nextGen': nat)
    requires FanoutOk(fan, live, nextGen, heard)
    ensures FanoutOk(InvalidateFanout(fan), live', nextGen', heard)
  {
    hide Fanout.LogSound, Fanout.FreshCapture;
  }

  /** The bound that makes a session's capture unambiguous: its generation is within the counter. */
  ghost predicate ListenersBelow(live: map<nat, Fanout.Listener>, nextGen: nat) {
    forall p :: p in live ==> live[p].generation <= nextGen
  }

  lemma FreshIsFaithful(live: map<nat, Fanout.Listener>, nextGen: nat)
    requires ListenersBelow(live, nextGen)
    ensures Fanout.Faithful(Fanout.FreshCapture(live), live, nextGen)
  {
    hide Fanout.FreshCapture;
    Fanout.FreshCaptureHoldsAll(live);
  }

  /** The queues with one more chat of this audience. */
  lemma PushChatOk(fan: Fanout.FanState, live: map<nat, Fanout.Listener>, nextGen: nat, heard: seq<Fanout.Delivery>,
                   bytes: nat, cell: Cell, audience: Fanout.Audience)
    requires FanoutOk(fan, live, nextGen, heard) && ListenersBelow(live, nextGen)
    requires audience.recipients == Fanout.FreshCapture(live) && 0 < |live| <= Fanout.DEFAULT_MAX_PEERS
    requires |fan.chats| < Fanout.CHAT_QUEUE_ITEMS && bytes <= Fanout.PAYLOAD_MAX
    ensures FanoutOk(PushChat(fan, bytes, cell, audience), live, nextGen, heard)
  {
    hide Fanout.FreshCapture, Fanout.LogSound, Fanout.TotalBytes, Fanout.Faithful;
    FreshIsFaithful(live, nextGen);
    Fanout.FreshCaptureHoldsAll(live);
    Fanout.TotalBytesAppend(fan.chats, Fanout.Job(fan.nextJob, bytes, Some(cell), audience, 0));
  }

  /** The queues with a new clock of this audience in the slot. */
  lemma PushClockOk(fan: Fanout.FanState, live: map<nat, Fanout.Listener>, nextGen: nat, heard: seq<Fanout.Delivery>,
                    bytes: nat, audience: Fanout.Audience)
    requires FanoutOk(fan, live, nextGen, heard) && ListenersBelow(live, nextGen) && fan.clock.None?
    requires audience.recipients == Fanout.FreshCapture(live) && 0 < |live| <= Fanout.DEFAULT_MAX_PEERS
    ensures FanoutOk(PushClock(fan, bytes, audience), live, nextGen, heard)
  {
    hide Fanout.FreshCapture, Fanout.LogSound, Fanout.TotalBytes, Fanout.Faithful;
    FreshIsFaithful(live, nextGen);
    Fanout.FreshCaptureHoldsAll(live);
  }

  lemma CaptureOk(fan: Fanout.FanState, live: map<nat, Fanout.Listener>, nextGen: nat, heard: seq<Fanout.Delivery>)
    requires FanoutOk(fan, live, nextGen, heard) && |live| <= Fanout.DEFAULT_MAX_PEERS
    requires |fan.chats| + (if fan.clock.Some? then 1 else 0) <= Fanout.CHAT_QUEUE_ITEMS
    ensures
      var (f, audience) := Fanout.Capture(fan, live);
      && FanoutOk(f, live, nextGen, heard)
      && f.chats == fan.chats && f.clock == fan.clock
      && (audience.Some? <==> live != map[])
      && (audience.Some? ==> audience.value.recipients == Fanout.FreshCapture(live))
  {
    hide Fanout.Capture, Fanout.FanOk, Fanout.LogSound, Fanout.FreshCapture, Fanout.CacheOk, Fanout.Faithful;
    Fanout.CaptureIsFresh(fan, live);
  }

  // ----- Leaving

  lemma IndexesLeave(s: ServerState, cfg: Config, peer: nat)
    requires IndexesOk(s.sessions, s.playerPeers, s.playerOrder, s.snapRecipients, s.aoiRecipients, cfg.maxPeers)
    requires peer in s.sessions
    ensures
      var r := Unregister(s, peer);
      && IndexesOk(r.sessions, r.playerPeers, r.playerOrder, r.snapRecipients, r.aoiRecipients, cfg.maxPeers)
      && r.playerPeers == s.playerPeers - {s.sessions[peer].player}
      && (forall p :: p in r.sessions ==> r.sessions[p].player != s.sessions[peer].player)
  {
  }

  lemma LiveLeave(sessions: map<nat, Session>, peer: nat)
    ensures Live(sessions - {peer}) == Live(sessions) - {peer}
  {
  }

  /** Dropping a session keeps every invariant of the rest, and frees its player. */
  lemma UnregisterCore(s: ServerState, cfg: Config, peer: nat)
    requires Core(s, cfg) && peer in s.sessions
    ensures
      var r := Unregister(s, peer);
      && Core(r, cfg)
      && r.playerPeers == s.playerPeers - {s.sessions[peer].player}
      && (forall p :: p in r.sessions ==> r.sessions[p].player != s.sessions[peer].player)
  {
    hide IndexesOk, Placed, PlacementOk, FanoutOk, Live, LimitersOk, IdentitiesOk, DirtyFlush.Conserved,
         Aoi.AoiOk, Aoi.HasWork;
    IndexesLeave(s, cfg, peer);
    LiveLeave(s.sessions, peer);
    FanoutLeave(s.fan, Live(s.sessions), s.nextGen, s.heard, peer);
  }

  // ----- Joining

  /** Re-keying gives the live sessions distinct generations from one to their number, and changes nothing else. */
  lemma RekeyedOk(sessions: map<nat, Session>)
    ensures Rekeyed(sessions).Keys == sessions.Keys
    ensures forall p :: p in sessions ==>
      && Rekeyed(sessions)[p] == sessions[p].(generation := Rekeyed(sessions)[p].generation)
      && 1 <= Rekeyed(sessions)[p].generation <= |sessions|
    ensures forall p, q :: p in sessions && q in sessions && p != q ==>
      Rekeyed(sessions)[p].generation != Rekeyed(sessions)[q].generation
  {
    hide Sorted, RankOf;
    var peers := Sorted(sessions.Keys);
    assert |sessions| == |sessions.Keys|;
    forall p | p in sessions ensures RankOf(peers, p) < |sessions| && peers[RankOf(peers, p)] == p {
      assert p in peers;
    }
  }

  /** Sessions that differ in their generations only. */
  ghost predicate OnlyGenerations(a: map<nat, Session>, b: map<nat, Session>) {
    a.Keys == b.Keys && forall p :: p in a ==> b[p] == a[p].(generation := b[p].generation)
  }

  lemma GenerationFrame(a: map<nat, Session>, b: map<nat, Session>, playerPeers: map<nat, nat>, playerOrder: set<nat>,
                        snapRecipients: set<nat>, aoiRecipients: set<nat>, maxPeers: nat)
    requires OnlyGenerations(a, b)
    ensures IndexesOk(a, playerPeers, playerOrder, snapRecipients, aoiRecipients, maxPeers) ==>
            IndexesOk(b, playerPeers, playerOrder, snapRecipients, aoiRecipients, maxPeers)
    ensures AwakeOk(a, aoiRecipients) ==> AwakeOk(b, aoiRecipients)
  {
    hide Aoi.AoiOk, Aoi.HasWork;
  }

  lemma GenerationFrame2(a: map<nat, Session>, b: map<nat, Session>, world: Placement, radius: nat, identities: map<Identity, nat>)
    requires OnlyGenerations(a, b)
    ensures PlacedOk(a, world, radius) ==> PlacedOk(b, world, radius)
    ensures AuthenticOk(a, identities) ==> AuthenticOk(b, identities)
  {
    hide PlacementOk;
  }

  lemma GenerationsRekeyed(a: map<nat, Session>, b: map<nat, Session>, nextGen: nat, nextSerial: nat, nextGen': nat)
    requires OnlyGenerations(a, b) && GenerationsOk(a, nextGen, nextSerial) && nextGen' <= U64_MAX
    requires forall p :: p in b ==> b[p].generation <= nextGen'
    ensures GenerationsOk(b, nextGen', nextSerial)
  {
  }

  lemma SessionsFit(s: ServerState, cfg: Config)
    requires IndexesOk(s.sessions, s.playerPeers, s.playerOrder, s.snapRecipients, s.aoiRecipients, cfg.maxPeers)
    ensures |s.sessions| <= cfg.maxPeers
  {
    PeersFit(s.sessions.Keys, cfg.maxPeers);
    assert |s.sessions| == |s.sessions.Keys|;
  }

  lemma RekeyCore(s: ServerState, cfg: Config)
    requires Core(s, cfg) && ConfigOk(cfg)
    ensures Core(Rekey(s), cfg) && Rekey(s).nextGen <= cfg.maxPeers
    ensures OnlyGenerations(s.sessions, Rekey(s).sessions)
  {
    hide IndexesOk, PlacedOk, AwakeOk, GenerationsOk, AuthenticOk, FanoutOk, Live, LimitersOk, IdentitiesOk,
         DirtyFlush.Conserved, Rekeyed, InvalidateFanout;
    RekeyedOk(s.sessions);
    SessionsFit(s, cfg);
    var b := Rekeyed(s.sessions);
    GenerationFrame(s.sessions, b, s.playerPeers, s.playerOrder, s.snapRecipients, s.aoiRecipients, cfg.maxPeers);
    GenerationFrame2(s.sessions, b, s.world, cfg.radius, s.identities);
    GenerationsRekeyed(s.sessions, b, s.nextGen, s.nextSerial, |s.sessions|);
    FanoutInvalidated(s.fan, Live(s.sessions), s.nextGen, s.heard, Live(b), |s.sessions|);
  }

  lemma IndexesJoin(sessions: map<nat, Session>, playerPeers: map<nat, nat>, playerOrder: set<nat>,
                    snapRecipients: set<nat>, aoiRecipients: set<nat>, maxPeers: nat, peer: nat, session: Session)
    requires IndexesOk(sessions, playerPeers, playerOrder, snapRecipients, aoiRecipients, maxPeers)
    requires peer !in sessions && session.player !in playerPeers && 1 <= peer <= maxPeers
    ensures IndexesOk(sessions[peer := session], playerPeers[session.player := peer], playerOrder + {session.player},
                      snapRecipients + {peer}, aoiRecipients + {peer}, maxPeers)
  {
  }

  lemma LiveJoin(sessions: map<nat, Session>, peer: nat, session: Session)
    ensures Live(sessions[peer := session]) ==
            Live(sessions)[peer := Fanout.Listener(session.generation, session.serial, session.aoi.sub)]
  {
  }

  /** A session fit to be registered: placed, idle or scheduled, authentic and new. */
  ghost predicate Seatable(s: ServerState, cfg: Config, session: Session) {
    && Placed(session, s.world.cellOf, cfg.radius)
    && DeliveryOk(session)
    && session.serial == s.nextSerial
    && session.identity in s.identities && s.identities[session.identity] == session.player
  }

  /** The state before the counter moved. */
  function Before(s: ServerState): ServerState {
    s.(nextGen := if s.nextGen == 0 then 0 else s.nextGen - 1)
  }

  /** The counter has room, or re-keying makes some. */
  lemma AllocateCore(s: ServerState, cfg: Config)
    requires Core(s, cfg) && ConfigOk(cfg)
    ensures
      var r := AllocateGeneration(s, cfg.maxPeers);
      && r.Some? && 1 <= r.value.nextGen <= U64_MAX && Core(Before(r.value), cfg)
      && OnlyGenerations(s.sessions, r.value.sessions)
      && r.value == s.(sessions := r.value.sessions, fan := r.value.fan, nextGen := r.value.nextGen)
  {
    hide Core, OnlyGenerations, Rekeyed, InvalidateFanout;
    assert OnlyGenerations(s.sessions, s.sessions) by { SameGenerations(s.sessions); }
    assert s.nextGen <= U64_MAX by { CounterBound(s, cfg); }
    if s.nextGen == U64_MAX { RekeyCore(s, cfg); }
  }

  lemma SameGenerations(sessions: map<nat, Session>)
    ensures OnlyGenerations(sessions, sessions)
  {
  }

  lemma CounterBound(s: ServerState, cfg: Config)
    requires Core(s, cfg)
    ensures s.nextGen <= U64_MAX
  {
  }

  lemma PlacedJoin(sessions: map<nat, Session>, world: Placement, radius: nat, identities: map<Identity, nat>,
                   peer: nat, session: Session)
    requires PlacedOk(sessions, world, radius) && Placed(session, world.cellOf, radius)
    requires AuthenticOk(sessions, identities)
    requires session.identity in identities && identities[session.identity] == session.player
    ensures PlacedOk(sessions[peer := session], world, radius) && AuthenticOk(sessions[peer := session], identities)
  {
    hide PlacementOk, Placed;
  }

  lemma AwakeJoin(sessions: map<nat, Session>, aoiRecipients: set<nat>, peer: nat, session: Session)
    requires AwakeOk(sessions, aoiRecipients) && DeliveryOk(session)
    ensures AwakeOk(sessions[peer := session], aoiRecipients + {peer})
  {
    hide DeliveryOk, Aoi.HasWork;
  }

  lemma GenerationsJoin(sessions: map<nat, Session>, nextGen: nat, nextSerial: nat, peer: nat, session: Session)
    requires GenerationsOk(sessions, nextGen, nextSerial) && nextGen < U64_MAX
    requires session.generation == nextGen + 1 && session.serial == nextSerial
    ensures GenerationsOk(sessions[peer := session], nextGen + 1, nextSerial + 1)
  {
  }

  lemma EnrolCore(s: ServerState, cfg: Config, peer: nat, session: Session)
    requires Core(Before(s), cfg) && 1 <= s.nextGen <= U64_MAX && Seatable(s, cfg, session)
    requires peer !in s.sessions && session.player !in s.playerPeers && 1 <= peer <= cfg.maxPeers
    requires session.generation == s.nextGen
    ensures Core(Enrolled(s, peer, session), cfg)
  {
    hide IndexesOk, PlacedOk, Placed, AwakeOk, GenerationsOk, AuthenticOk, FanoutOk, Live, LimitersOk, IdentitiesOk,
         DirtyFlush.Conserved, DirtyFlush.Mark, Aoi.AoiOk;
    IndexesJoin(s.sessions, s.playerPeers, s.playerOrder, s.snapRecipients, s.aoiRecipients, cfg.maxPeers, peer, session);
    PlacedJoin(s.sessions, s.world, cfg.radius, s.identities, peer, session);
    AwakeJoin(s.sessions, s.aoiRecipients, peer, session);
    GenerationsJoin(s.sessions, s.nextGen - 1, s.nextSerial, peer, session);
    LiveJoin(s.sessions, peer, session);
    FanoutJoin(s.fan, Live(s.sessions), s.nextGen - 1, s.heard, peer,
               Fanout.Listener(s.nextGen, session.serial, session.aoi.sub));
    MarkConserves(s.flush, s.unsaved, session.player);
  }

  /** Registration of a fit session cannot fail, and touches no other session but to re-key it. */
  lemma RegisterCore(s: ServerState, cfg: Config, peer: nat, session: Session)
    requires Core(s, cfg) && ConfigOk(cfg) && Seatable(s, cfg, session)
    requires peer !in s.sessions && session.player !in s.playerPeers && 1 <= peer <= cfg.maxPeers
    ensures
      var r := Register(s, cfg.maxPeers, peer, session);
      && r.Some? && Core(r.value, cfg)
      && peer in r.value.sessions && r.value.sessions[peer] == session.(generation := r.value.nextGen)
      && OnlyGenerations(s.sessions, r.value.sessions - {peer})
      && r.value.playerPeers == s.playerPeers[session.player := peer]
      && r.value.world == s.world && r.value.identities == s.identities && session.player in r.value.unsaved
      && peer in r.value.aoiRecipients
  {
    hide Core, OnlyGenerations, Placed, AllocateGeneration, DirtyFlush.Mark, Aoi.AoiOk;
    AllocateCore(s, cfg);
    var a := AllocateGeneration(s, cfg.maxPeers).value;
    var seated := session.(generation := a.nextGen);
    PlacedGeneration(session, s.world.cellOf, cfg.radius, a.nextGen);
    assert a.sessions.Keys == s.sessions.Keys by { SameKeys(s.sessions, a.sessions); }
    EnrolCore(a, cfg, peer, seated);
    assert a.sessions[peer := seated] - {peer} == a.sessions;
  }

  lemma SameKeys(a: map<nat, Session>, b: map<nat, Session>)
    requires OnlyGenerations(a, b)
    ensures a.Keys == b.Keys
  {
  }

  lemma PlacedGeneration(session: Session, cellOf: map<nat, Cell>, radius: nat, generation: nat)
    requires Placed(session, cellOf, radius)
    ensures Placed(session.(generation := generation), cellOf, radius)
  {
  }

  lemma MarkConserves(f: DirtyFlush.FlushState, unsaved: set<nat>, player: nat)
    requires DirtyFlush.Conserved(f, unsaved)
    ensures DirtyFlush.Conserved(DirtyFlush.Mark(f, player), unsaved + {player})
  {
  }

  // ----- Hello

  lemma LimitersFrame(l: Limiters, r: Limiters, cfg: Config)
    requires LimitersOk(l, cfg) && r.source == l.source && r.reconnect == l.reconnect
    ensures LimitersOk(r, cfg)
  {
  }

  lemma ReconnectOk(l: Limiters, cfg: Config, player: nat, now: int)
    requires LimitersOk(l, cfg)
    ensures LimitersOk(l.(reconnect := RateLimit.BoundedAllow(l.reconnect, cfg.helloMs, cfg.reconnectKeys, player, now).0), cfg)
  {
    hide RateLimit.BoundedOk, RateLimit.BoundedAllow;
    RateLimit.BoundedAllowOk(l.reconnect, cfg.helloMs, cfg.reconnectKeys, player, now);
  }

  /**
    * A newcomer may join now, judged by the recorded times: its source was not admitted within the source interval; a
    * known player was not within the hello interval; and for an unknown one, nobody unknown was within the
    * process-wide interval. A bounded limiter also refuses a key it does not track while its budget is spent on
    * recent ones.
    */
  ghost predicate MayJoin(l: Limiters, cfg: Config, source: nat, known: Option<nat>, now: int) {
    && MaySource(l, cfg, source, now)
    && match known
       case Some(player) => MayReconnect(l, cfg, player, now)
       case None => l.newSession.Some? ==> now - l.newSession.value >= cfg.newSessionMs
  }

  ghost predicate MaySource(l: Limiters, cfg: Config, source: nat, now: int) {
    && !RateLimit.Recent(l.source.last, cfg.sourceMs, source, now)
    && !RateLimit.Saturated(l.source.last, cfg.sourceMs, cfg.maxPeers, source, now)
  }

  ghost predicate MayReconnect(l: Limiters, cfg: Config, player: nat, now: int) {
    && !RateLimit.Recent(l.reconnect.last, cfg.helloMs, player, now)
    && !RateLimit.Saturated(l.reconnect.last, cfg.helloMs, cfg.reconnectKeys, player, now)
  }

  /**
    * What passing the limits charges: a refused source nothing; an admitted one its source at this time, and then,
    * if that too is admitted, the known player or the process-wide gate, never the other of the two.
    */
  ghost predicate LimitsCharged(l: Limiters, r: Limiters, cfg: Config, source: nat, known: Option<nat>, now: int) {
    && r.hello == l.hello && r.clientState == l.clientState && r.chat == l.chat
    && (if MaySource(l, cfg, source, now) then RateLimit.Charged(l.source.last, r.source.last, cfg.sourceMs, source, now)
        else r.source == l.source)
    && (if known.Some? && MayJoin(l, cfg, source, known, now)
        then RateLimit.Charged(l.reconnect.last, r.reconnect.last, cfg.helloMs, known.value, now)
        else r.reconnect == l.reconnect)
    && r.newSession == (if known.None? && MayJoin(l, cfg, source, known, now) then Some(now) else l.newSession)
  }

  lemma GlobalAdmitsIff(last: Option<int>, interval: int, now: int)
    requires 0 < interval <= I64_MAX
    ensures
      var (r, ok) := RateLimit.GlobalAllow(last, interval, now);
      && (ok <==> (last.Some? ==> now - last.value >= interval))
      && r == if ok then Some(now) else last
  {
    if last.Some? { RateLimit.TooSoonIsExact(now, last.value, interval); }
  }

  /** The limits admit exactly those who may join, and charge exactly the limiters that admitted them. */
  lemma PassLimitsIff(l: Limiters, cfg: Config, source: nat, known: Option<nat>, now: int)
    requires LimitersOk(l, cfg) && IntervalsOk(cfg)
    ensures
      var (r, ok) := PassLimits(l, cfg, source, known, now);
      (ok <==> MayJoin(l, cfg, source, known, now)) && LimitsCharged(l, r, cfg, source, known, now)
  {
    hide RateLimit.BoundedOk, RateLimit.BoundedAllow, RateLimit.GlobalAllow, RateLimit.Recent, RateLimit.Saturated, RateLimit.Charged;
    RateLimit.BoundedAdmitsIff(l.source, cfg.sourceMs, cfg.maxPeers, source, now);
    GlobalAdmitsIff(l.newSession, cfg.newSessionMs, now);
    if known.Some? { RateLimit.BoundedAdmitsIff(l.reconnect, cfg.helloMs, cfg.reconnectKeys, known.value, now); }
  }

  lemma PassLimitsOk(l: Limiters, cfg: Config, source: nat, known: Option<nat>, now: int)
    requires LimitersOk(l, cfg)
    ensures LimitersOk(PassLimits(l, cfg, source, known, now).0, cfg)
    ensures PassLimits(l, cfg, source, known, now).0.hello == l.hello
  {
    hide RateLimit.BoundedOk, RateLimit.BoundedAllow, RateLimit.GlobalAllow;
    RateLimit.BoundedAllowOk(l.source, cfg.sourceMs, cfg.maxPeers, source, now);
    if known.Some? { ReconnectOk(l, cfg, known.value, now); }
  }

  /** Admission and the identity index cannot disagree, and the index cannot be full when a row was free. */
  lemma AdmitAgrees(identities: map<Identity, nat>, db: Db, identity: Identity, maxRows: nat)
    requires IdentitiesOk(identities, db) && maxRows <= MAX_PLAYER_ROWS
    ensures
      var r := Server.Admit(db, identity, maxRows);
      && (r.Admitted? <==> identity in identities || |identities| < maxRows)
      && (identity in identities ==> r == Server.Admitted(db, identities[identity]))
      && (identity !in identities && r.Admitted? ==>
            |identities| < MAX_PLAYER_ROWS && IdentitiesOk(identities[identity := r.player], r.db))
  {
  }

  lemma AuthenticGrows(sessions: map<nat, Session>, identities: map<Identity, nat>, identity: Identity, player: nat)
    requires AuthenticOk(sessions, identities) && identity !in identities
    ensures AuthenticOk(sessions, identities[identity := player])
  {
  }

  lemma PlacedElsewhere(sessions: map<nat, Session>, world: Placement, radius: nat, player: nat, cell: Cell)
    requires PlacedOk(sessions, world, radius) && forall p :: p in sessions ==> sessions[p].player != player
    ensures PlacedOk(sessions, PlaceInCell(world, player, cell), radius)
    ensures PlaceInCell(world, player, cell).cellOf == world.cellOf[player := cell]
  {
    hide PlacementOk, PlaceInCell;
    PlaceOk(world, player, cell);
  }

  lemma PlayerIsFree(s: ServerState, cfg: Config, player: nat)
    requires IndexesOk(s.sessions, s.playerPeers, s.playerOrder, s.snapRecipients, s.aoiRecipients, cfg.maxPeers)
    requires player !in s.playerPeers
    ensures forall p :: p in s.sessions ==> s.sessions[p].player != player
  {
  }

  lemma SupersededHolds(s: ServerState, cfg: Config, player: nat, peer: nat)
    requires IndexesOk(s.sessions, s.playerPeers, s.playerOrder, s.snapRecipients, s.aoiRecipients, cfg.maxPeers)
    requires peer !in s.sessions
    ensures
      var pp := Superseded(s, player, peer);
      && (pp.None? <==> player !in s.playerPeers)
      && (pp.Some? ==> pp.value in s.sessions && s.sessions[pp.value].player == player && pp.value != peer)
  {
  }

  /** The server with a player's previous session gone, if there was one. */
  function Vacated(s: ServerState, player: nat, peer: nat): ServerState {
    var pp := Superseded(s, player, peer);
    if pp.Some? then Evict(s, pp.value) else s
  }

  lemma VacatedCore(s: ServerState, cfg: Config, player: nat, peer: nat)
    requires Core(s, cfg) && Tracks(s.world, s.playerPeers, {}) && peer !in s.sessions
    ensures
      var r := Vacated(s, player, peer);
      var pp := Superseded(s, player, peer);
      && Core(r, cfg) && peer !in r.sessions && player !in r.playerPeers
      && r.playerPeers.Keys + {player} == s.world.cellOf.Keys + {player}
      && (forall p :: p in r.sessions ==> r.sessions[p].player != player)
      && r.sessions == (if pp.Some? then s.sessions - {pp.value} else s.sessions)
      && r.world == s.world && r.identities == s.identities && r.nextSerial == s.nextSerial
  {
    hide IndexesOk, PlacedOk, AwakeOk, GenerationsOk, FanoutOk, IdentitiesOk, AuthenticOk, DirtyFlush.Conserved,
         LimitersOk, Live;
    SupersededHolds(s, cfg, player, peer);
    var pp := Superseded(s, player, peer);
    if pp.Some? {
      UnregisterCore(s, cfg, pp.value);
      var u := Unregister(s, pp.value);
      LimitersFrame(u.limiters, Evict(s, pp.value).limiters, cfg);
    } else {
      PlayerIsFree(s, cfg, player);
    }
  }

  /**
    * Who holds a session after a player was seated: the player on its new peer, at the origin, marked for
    * saving and with nothing published yet; and everybody else as before.
    */
  ghost predicate SeatedOnly(before: ServerState, after: ServerState, peer: nat, player: nat, identity: Identity,
                             conn: Transport.Conn)
  {
    var pp := Superseded(before, player, peer);
    && peer in after.sessions
    && after.sessions[peer].player == player && after.sessions[peer].identity == identity
    && after.sessions[peer].conn == conn
    && after.sessions[peer].cell == Cell(0, 0) && after.sessions[peer].aoi.published == {}
    && after.sessions[peer].aoi.active.None? && after.sessions[peer].snap == Recurrence.SnapCursor(None, 0, 0)
    && player in after.unsaved
    && OnlyGenerations(if pp.Some? then before.sessions - {pp.value} else before.sessions, after.sessions - {peer})
  }

  lemma NewSessionFits(s: ServerState, cfg: Config, player: nat, identity: Identity, conn: Transport.Conn, world: Placement)
    requires ConfigOk(cfg) && identity in s.identities && s.identities[identity] == player
    requires world.cellOf == s.world.cellOf[player := NewSession(s.nextSerial, cfg, player, identity, conn).cell]
    ensures Seatable(s.(world := world), cfg, NewSession(s.nextSerial, cfg, player, identity, conn))
  {
    hide CellOf;
  }

  lemma SeatCore(s: ServerState, cfg: Config, peer: nat, player: nat, identity: Identity, conn: Transport.Conn)
    requires Inv(s, cfg) && peer !in s.sessions && 1 <= peer <= cfg.maxPeers
    requires identity in s.identities && s.identities[identity] == player
    ensures Inv(Seat(s, cfg, peer, player, identity, conn), cfg)
    ensures SeatedOnly(s, Seat(s, cfg, peer, player, identity, conn), peer, player, identity, conn)
    ensures Seat(s, cfg, peer, player, identity, conn).identities == s.identities
  {
    hide IndexesOk, PlacedOk, AwakeOk, GenerationsOk, FanoutOk, IdentitiesOk, AuthenticOk, DirtyFlush.Conserved,
         LimitersOk, Live, NewSession, Register, Seatable, OnlyGenerations, PlaceInCell, Evict;
    VacatedCore(s, cfg, player, peer);
    var s1 := Vacated(s, player, peer);
    var session := NewSession(s1.nextSerial, cfg, player, identity, conn);
    NewSessionNames(s1.nextSerial, cfg, player, identity, conn);
    PlacedElsewhere(s1.sessions, s1.world, cfg.radius, player, session.cell);
    var s2 := s1.(world := PlaceInCell(s1.world, player, session.cell));
    NewSessionFits(s1, cfg, player, identity, conn, s2.world);
    RegisterCore(s2, cfg, peer, session);
    var r := Register(s2, cfg.maxPeers, peer, session).value;
    assert r.aoiRecipients + {peer} == r.aoiRecipients;
  }

  lemma NewSessionNames(serial: nat, cfg: Config, player: nat, identity: Identity, conn: Transport.Conn)
    requires ConfigOk(cfg)
    ensures
      var n := NewSession(serial, cfg, player, identity, conn);
      && n.player == player && n.identity == identity && n.conn == conn && n.cell == Cell(0, 0) && n.aoi.published == {}
      && n.aoi.active.None? && n.snap == Recurrence.SnapCursor(None, 0, 0)
  {
    assert 0.0 / cfg.cellSize == 0.0;
  }
}
