/** What each message does, exactly: the invariants say what handlers may not break, these say what they achieve. */
module ServerEffects {
  import opened Options
  import opened World
  import RateLimit
  import Fanout
  import DirtyFlush
  import opened Server
  import opened ServerInvariants
  import opened ServerRuns

  /** A client state is heard when its sender is seated and unthrottled, and taken up if its position is finite too. */
  predicate Heard(s: ServerState, cfg: Config, peer: nat, now: int) {
    peer in s.sessions && RateLimit.Unthrottled(s.limiters.clientState, cfg.clientStateMs, s.sessions[peer].player, now)
  }

  lemma IntervalsOfInv(s: ServerState, cfg: Config)
    requires Inv(s, cfg)
    ensures IntervalsOk(cfg)
  {
    hide Core, Tracks;
  }

  /**
    * A movement that is taken up puts the player in the cell that contains its clamped position, in the session and
    * in the world alike, re-centres its interest block, marks it for saving and touches no other session; any other
    * client state changes neither sessions nor world nor marks. Every one that is heard counts against the sender's
    * throttle, and nothing else does.
    */
  lemma MovementTakesEffect(s: ServerState, cfg: Config, peer: nat, position: Option<(real, real)>, now: int)
    requires Inv(s, cfg)
    ensures cfg.cellSize > 0.0
    ensures
      var r := OnClientState(s, cfg, peer, position, now);
      && (if Heard(s, cfg, peer, now) && position.Some? then
            && peer in r.sessions && r.sessions == s.sessions[peer := r.sessions[peer]]
            && (var cell, player := r.sessions[peer].cell, s.sessions[peer].player;
                && Contains(cell, Clamp(position.value.0), Clamp(position.value.1), cfg.cellSize)
                && r.sessions[peer].aoi.sub == Block(cell, cfg.radius)
                && r.world.cellOf == s.world.cellOf[player := cell]
                && r.unsaved == s.unsaved + {player} && r.flush == s.flush.(dirty := s.flush.dirty + {player}))
          else r.sessions == s.sessions && r.world == s.world && r.unsaved == s.unsaved && r.flush == s.flush)
      && r.limiters == (if Heard(s, cfg, peer, now) then
                          s.limiters.(clientState := RateLimit.Noted(s.limiters.clientState, cfg.clientStateMs, s.sessions[peer].player, now))
                        else s.limiters)
  {
    hide Inv, RateLimit.KeyedAllow, RateLimit.Unthrottled, PlaceInCell, Clamp, CellOf, Contains;
    QueuesOfInv(s, cfg);
    IntervalsOfInv(s, cfg);
    if peer in s.sessions {
      RateLimit.ThrottleIff(s.limiters.clientState, cfg.clientStateMs, s.sessions[peer].player, now);
      if position.Some? {
        var cell := CellOf(Clamp(position.value.0), Clamp(position.value.1), cfg.cellSize);
        CellContains(Clamp(position.value.0), Clamp(position.value.1), cfg.cellSize, cell);
        PlacementOfInv(s, cfg, peer);
        PlaceOk(s.world, s.sessions[peer].player, cell);
      }
    }
  }

  lemma PlacementOfInv(s: ServerState, cfg: Config, peer: nat)
    requires Inv(s, cfg) && peer in s.sessions
    ensures PlacementOk(s.world) && Placed(s.sessions[peer], s.world.cellOf, cfg.radius)
  {
    hide IndexesOk, PlacementOk, Placed, AwakeOk, GenerationsOk, FanoutOk, IdentitiesOk, AuthenticOk, DirtyFlush.Conserved,
         LimitersOk, Live, Tracks;
  }

  /** A chat line is considered when its sender is seated and unthrottled, it is not too long, and the queue has room. */
  predicate Considered(s: ServerState, cfg: Config, peer: nat, withinLimit: bool, now: int) {
    && peer in s.sessions && withinLimit && |s.fan.chats| < Fanout.CHAT_QUEUE_ITEMS
    && RateLimit.Unthrottled(s.limiters.chat, cfg.chatMs, s.sessions[peer].player, now)
  }

  /**
    * A considered chat line that fits a packet goes to the back of the queue, once, addressed to every session live
    * at that moment and spoken in the sender's cell; any other leaves the queue alone. The byte ceiling never refuses
    * a line that the item ceiling admits. Every considered line counts against the sender's throttle, and nothing
    * else does; nothing but queue and throttle changes.
    */
  lemma ChatIsQueued(s: ServerState, cfg: Config, peer: nat, withinLimit: bool, bytes: nat, now: int)
    requires Inv(s, cfg)
    ensures
      var after := OnChat(s, cfg, peer, withinLimit, bytes, now);
      var r := after.fan.chats;
      && (if Considered(s, cfg, peer, withinLimit, now) && bytes <= Fanout.PAYLOAD_MAX then
            && |r| == |s.fan.chats| + 1 && r[..|s.fan.chats|] == s.fan.chats
            && r[|s.fan.chats|].bytes == bytes && r[|s.fan.chats|].next == 0
            && r[|s.fan.chats|].cell == Some(s.sessions[peer].cell)
            && r[|s.fan.chats|].audience.recipients == Fanout.FreshCapture(Live(s.sessions))
          else r == s.fan.chats)
      && after == s.(fan := after.fan, limiters := after.limiters)
      && after.limiters == (if Considered(s, cfg, peer, withinLimit, now) then
                              s.limiters.(chat := RateLimit.Noted(s.limiters.chat, cfg.chatMs, s.sessions[peer].player, now))
                            else s.limiters)
  {
    hide Inv, RateLimit.KeyedAllow, RateLimit.Unthrottled, Fanout.Capture, Fanout.FreshCapture, Live, FanoutOk, ListenersBelow;
    FanoutOfInv(s, cfg);
    QueuesOfInv(s, cfg);
    IntervalsOfInv(s, cfg);
    if peer in s.sessions && |s.fan.chats| < Fanout.CHAT_QUEUE_ITEMS {
      RateLimit.ThrottleIff(s.limiters.chat, cfg.chatMs, s.sessions[peer].player, now);
      Fanout.ChatBytesBounded(s.fan);
      CaptureOk(s.fan, Live(s.sessions), s.nextGen, s.heard);
      SeatedIsLive(s.sessions, peer);
    }
  }

  lemma SeatedIsLive(sessions: map<nat, Session>, peer: nat)
    requires peer in sessions
    ensures Live(sessions) != map[]
  {
    assert peer in Live(sessions);
  }

  /**
    * A departure takes the player out of the world, drops its throttles and attempts its last write: if that succeeds
    * nothing of the player is left to save, and if it is refused the player stays queued and flushing pauses. Nobody
    * else's marks or throttles change, and a peer without a session only loses its hello throttle.
    */
  lemma DepartureIsSettled(s: ServerState, cfg: Config, peer: nat, refused: bool)
    requires Inv(s, cfg)
    ensures
      var r := OnDisconnect(s, peer, refused);
      var l := s.limiters.(hello := s.limiters.hello - {peer});
      if peer !in s.sessions then r == s.(limiters := l)
      else
        var player := s.sessions[peer].player;
        && r.world.cellOf == s.world.cellOf - {player}
        && r.limiters == l.(clientState := l.clientState - {player}, chat := l.chat - {player})
        && r.flush == (if refused then s.flush.(flush := s.flush.flush + {player}, paused := true)
                       else s.flush.(flush := s.flush.flush - {player}, dirty := s.flush.dirty - {player}))
        && r.unsaved == (if refused then s.unsaved else s.unsaved - {player})
  {
    hide Inv, PlacementOk, RemoveEntity;
    if peer in s.sessions {
      PlacementOfInv(s, cfg, peer);
      RemoveOk(s.world, s.sessions[peer].player);
      assert DirtyFlush.Ids([s.sessions[peer].player]) == {s.sessions[peer].player};
      assert DirtyFlush.Ids([]) == {};
    }
  }

  /** A clock cadence leaves exactly the new clock pending, for every session live at that moment. */
  lemma ClockIsQueued(s: ServerState, cfg: Config, bytes: nat)
    requires Inv(s, cfg)
    ensures
      var r := ClockTick(s, bytes).fan;
      && r.chats == s.fan.chats
      && (r.clock.Some? <==> s.sessions != map[])
      && (r.clock.Some? ==> r.clock.value.bytes == bytes && r.clock.value.next == 0 && r.clock.value.cell.None?
                            && r.clock.value.audience.recipients == Fanout.FreshCapture(Live(s.sessions)))
  {
    hide Inv, Fanout.Capture, Fanout.FreshCapture, Live, FanoutOk, ListenersBelow;
    FanoutOfInv(s, cfg);
    ClockDropped(s.fan, Live(s.sessions), s.nextGen, s.heard);
    CaptureOk(s.fan.(clock := None), Live(s.sessions), s.nextGen, s.heard);
    if s.sessions == map[] {
      NobodyIsLive(s.sessions);
      var (f, audience) := Fanout.Capture(s.fan.(clock := None), Live(s.sessions));
      assert audience.None?;
      assert f.clock.None?;
      assert ClockTick(s, bytes).fan == f;
    } else {
      var peer :| peer in s.sessions;
      SeatedIsLive(s.sessions, peer);
    }
  }

  lemma NobodyIsLive(sessions: map<nat, Session>)
    requires sessions == map[]
    ensures Live(sessions) == map[]
  {
  }
}
