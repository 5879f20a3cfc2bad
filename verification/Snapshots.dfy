/**
  * The snapshot scheduler: each tick visits at most 32 recipients round-robin, and a due recipient is sent
  * the next packet of its sweep over the players elected for it.
  */
module Snapshots {
  import opened Options
  import opened Numbers
  import opened OrderedSets
  import opened World
  import opened Recurrence

  const ENTITY_SCAN := 1024
  const U32 := 0x1_0000_0000

  datatype Member = Member(player: nat, cell: Cell)

  /** Who is present: recipients with their player and cell, the player order, and each player's cell. */
  datatype Scene = Scene(
    members: map<nat, Member>, players: set<nat>, whereabouts: map<nat, Cell>, radius: nat, cadence: nat)

  datatype SnapState = SnapState(cursors: map<nat, SnapCursor>, cursor: Option<nat>, tick: nat)

  datatype Packet = Packet(peer: nat, players: seq<nat>)

  // ----- Election

  predicate InView(scene: Scene, self: Member, player: nat) {
    && player != self.player
    && player in scene.whereabouts
    && Chebyshev(scene.whereabouts[player], self.cell) <= scene.radius
  }

  function Viewed(scene: Scene, self: Member, candidates: seq<nat>): (r: seq<nat>)
    ensures forall x :: x in r <==> x in candidates && InView(scene, self, x)
  {
    if candidates == [] then []
    else (if InView(scene, self, candidates[0]) then [candidates[0]] else []) + Viewed(scene, self, candidates[1..])
  }

  /** The players a recipient is told about: the first fifteen in view, in circular id order after itself. */
  function Elect(scene: Scene, self: Member): seq<nat> {
    var viewed := Viewed(scene, self, OrderedSets.After(scene.players, Some(self.player), ENTITY_SCAN));
    viewed[..Min(|viewed|, VISIBILITY_CEILING)]
  }

  lemma {:induction false} ViewedConcat(scene: Scene, self: Member, a: seq<nat>, b: seq<nat>)
    ensures Viewed(scene, self, a + b) == Viewed(scene, self, a) + Viewed(scene, self, b)
  {
    if a == [] {
      assert a + b == b;
    } else {
      assert (a + b)[1..] == a[1..] + b;
      ViewedConcat(scene, self, a[1..], b);
    }
  }

  lemma {:induction false} ViewedAscending(scene: Scene, self: Member, candidates: seq<nat>)
    requires Ascending(candidates)
    ensures Ascending(Viewed(scene, self, candidates))
  {
    if candidates != [] {
      TailElements(candidates);
      ViewedAscending(scene, self, candidates[1..]);
      var rest := Viewed(scene, self, candidates[1..]);
      assert forall i :: 0 <= i < |rest| ==> rest[i] in rest;
    }
  }

  function ViewSet(scene: Scene, self: Member): set<nat> {
    set p | p in scene.players && InView(scene, self, p)
  }

  lemma ViewedSorted(scene: Scene, self: Member, s: set<nat>, viewed: set<nat>)
    requires viewed == set p | p in s && InView(scene, self, p)
    ensures Viewed(scene, self, Sorted(s)) == Sorted(viewed)
  {
    hide Sorted, Viewed;
    ViewedAscending(scene, self, Sorted(s));
    AscendingUnique(Viewed(scene, self, Sorted(s)), Sorted(viewed));
  }

  /** Filtering the circular order is the circular order of what is in view. */
  lemma ElectionOrder(scene: Scene, self: Member)
    requires |scene.players| <= ENTITY_SCAN
    ensures Viewed(scene, self, OrderedSets.After(scene.players, Some(self.player), ENTITY_SCAN)) ==
            Rotated(ViewSet(scene, self), Some(self.player))
  {
    hide Sorted, Viewed, InView;
    var s, c, v := scene.players, self.player, ViewSet(scene, self);
    RotatedIsPermutation(s, Some(c));
    assert Rotated(s, Some(c))[..|s|] == Rotated(s, Some(c));
    ViewedConcat(scene, self, Sorted(Above(s, c)), Sorted(UpTo(s, c)));
    ViewedSorted(scene, self, Above(s, c), Above(v, c));
    ViewedSorted(scene, self, UpTo(s, c), UpTo(v, c));
  }

  lemma SceneViewSet(scene: Scene, self: Member, w: Placement)
    requires scene.players == scene.whereabouts.Keys && w.cellOf == scene.whereabouts
    ensures ViewSet(scene, self) == EntitiesInRadius(w, self.cell, scene.radius) - {self.player}
  {
  }

  /**
    * Index agreement pays off: the candidate scan elects exactly the first fifteen, in circular id order
    * after the recipient, of what a spatial query around its cell finds.
    */
  lemma ElectionIsSpatial(scene: Scene, self: Member, w: Placement)
    requires scene.players == scene.whereabouts.Keys && w.cellOf == scene.whereabouts
    requires |scene.players| <= ENTITY_SCAN
    ensures
      Elect(scene, self) ==
      OrderedSets.After(EntitiesInRadius(w, self.cell, scene.radius) - {self.player}, Some(self.player), VISIBILITY_CEILING)
  {
    hide Viewed, Rotated, InView;
    ElectionOrder(scene, self);
    SceneViewSet(scene, self, w);
    RotatedIsPermutation(ViewSet(scene, self), Some(self.player));
  }

  // ----- One tick

  function WrappingSub(a: nat, b: nat): nat {
    (a - b) % U32
  }

  predicate DueNow(c: SnapCursor, tick: nat, cadence: nat) {
    c.lastVisit == 0 || WrappingSub(tick, c.lastVisit) >= cadence
  }

  /** One considered recipient: its cursor after the visit and what it is sent. */
  function VisitCursor(c: SnapCursor, scene: Scene, peer: nat, tick: nat): (SnapCursor, seq<nat>) {
    if peer !in scene.members || !DueNow(c, tick, scene.cadence) then (c, [])
    else Emit(c.(lastVisit := tick), Elect(scene, scene.members[peer]))
  }

  function VisitAll(cursors: map<nat, SnapCursor>, scene: Scene, tick: nat, peers: seq<nat>)
    : (map<nat, SnapCursor>, seq<Packet>)
    decreases |peers|
  {
    if peers == [] then (cursors, [])
    else if peers[0] !in cursors then VisitAll(cursors, scene, tick, peers[1..])
    else
      var (c, ads) := VisitCursor(cursors[peers[0]], scene, peers[0], tick);
      var (rest, packets) := VisitAll(cursors[peers[0] := c], scene, tick, peers[1..]);
      (rest, (if ads == [] then [] else [Packet(peers[0], ads)]) + packets)
  }

  function Broadcast(st: SnapState, scene: Scene): (SnapState, seq<Packet>) {
    var tick := (st.tick + 1) % U32;
    var peers := OrderedSets.After(st.cursors.Keys, st.cursor, PACKETS_PER_TICK);
    var (cursors, packets) := VisitAll(st.cursors, scene, tick, peers);
    (SnapState(cursors, if peers == [] then st.cursor else Some(peers[|peers| - 1]), tick), packets)
  }

  /** The players a peer is told about by a run of packets. */
  function SentTo(packets: seq<Packet>, peer: nat): seq<nat> {
    if packets == [] then []
    else (if packets[0].peer == peer then packets[0].players else []) + SentTo(packets[1..], peer)
  }

  lemma VisitAllFrom(cursors: map<nat, SnapCursor>, scene: Scene, tick: nat, peers: seq<nat>, i: nat)
    requires i < |peers|
    ensures
      var peer := peers[i];
      if peer !in cursors then VisitAll(cursors, scene, tick, peers[i..]) == VisitAll(cursors, scene, tick, peers[i + 1..])
      else
        var (c, ads) := VisitCursor(cursors[peer], scene, peer, tick);
        var (rest, packets) := VisitAll(cursors[peer := c], scene, tick, peers[i + 1..]);
        VisitAll(cursors, scene, tick, peers[i..]) == (rest, (if ads == [] then [] else [Packet(peer, ads)]) + packets)
  {
    hide VisitCursor;
    assert peers[i..][1..] == peers[i + 1..];
  }

  lemma VisitAllDone(cursors: map<nat, SnapCursor>, scene: Scene, tick: nat, peers: seq<nat>)
    ensures VisitAll(cursors, scene, tick, peers[|peers|..]) == (cursors, [])
    ensures peers[0..] == peers
  {
    assert peers[|peers|..] == [];
  }

  /** The scheduler object: the source's loop over recipients, and its inner loop over the sweep. */
  class Scheduler {
    var cursors: map<nat, SnapCursor>
    var cursor: Option<nat>
    var tick: nat

    ghost function View(): SnapState
      reads this
    {
      SnapState(cursors, cursor, tick)
    }

    constructor ()
      ensures View() == SnapState(map[], None, 0)
    {
      cursors, cursor, tick := map[], None, 0;
    }

    static method Sweep(c: SnapCursor, sel: seq<nat>) returns (c': SnapCursor, ads: seq<nat>)
      ensures (c', ads) == Emit(c, sel)
    {
      hide IndexOf;
      if sel == [] { return c.(cursor := None, remaining := 0), []; }
      var position := CursorPosition(c, sel);
      var remaining := if c.remaining == 0 || position.None? then |sel| else Min(c.remaining, |sel|);
      var start := if position.None? then 0 else Circular(position.value, 1, |sel|);
      var count := Min(remaining, ENTITIES_PER_PACKET);
      ads := [];
      var last := None;
      for offset := 0 to count
        invariant |ads| == offset
        invariant forall o :: 0 <= o < offset ==> ads[o] == sel[Circular(start, o, |sel|)]
        invariant offset > 0 ==> last == Some(ads[offset - 1])
      {
        var player := sel[Circular(start, offset, |sel|)];
        last := Some(player);
        ads := ads + [player];
      }
      assert ads == Stretch(sel, start, count);
      c' := c.(cursor := last, remaining := remaining - count);
    }

    method BroadcastSnapshots(scene: Scene) returns (packets: seq<Packet>)
      modifies this
      ensures (View(), packets) == Broadcast(old(View()), scene)
    {
      hide VisitCursor, OrderedSets.After, VisitAll;
      tick := (tick + 1) % U32;
      var peers := OrderedSets.After(cursors.Keys, cursor, PACKETS_PER_TICK);
      if peers != [] { cursor := Some(peers[|peers| - 1]); }
      packets := [];
      ghost var all := VisitAll(cursors, scene, tick, peers);
      assert peers[0..] == peers;
      for i := 0 to |peers|
        invariant tick == (old(tick) + 1) % U32 && cursor == (if peers == [] then old(cursor) else Some(peers[|peers| - 1]))
        invariant all.0 == VisitAll(cursors, scene, tick, peers[i..]).0
        invariant all.1 == packets + VisitAll(cursors, scene, tick, peers[i..]).1
      {
        var peer := peers[i];
        VisitAllFrom(cursors, scene, tick, peers, i);
        if peer in cursors {
          var c, ads := Consider(cursors[peer], scene, peer, tick);
          cursors := cursors[peer := c];
          if ads != [] { packets := packets + [Packet(peer, ads)]; }
        }
      }
      VisitAllDone(cursors, scene, tick, peers);
      assert packets + [] == packets;
    }

    static method Consider(c: SnapCursor, scene: Scene, peer: nat, tick: nat) returns (c': SnapCursor, ads: seq<nat>)
      ensures (c', ads) == VisitCursor(c, scene, peer, tick)
    {
      hide Emit, Elect;
      if peer !in scene.members || !DueNow(c, tick, scene.cadence) { return c, []; }
      c', ads := Sweep(c.(lastVisit := tick), Elect(scene, scene.members[peer]));
    }
  }

  // ----- The scheduler runs its lanes

  lemma SentToCons(peer: nat, ads: seq<nat>, packets: seq<Packet>, who: nat)
    ensures SentTo((if ads == [] then [] else [Packet(peer, ads)]) + packets, who) ==
            (if peer == who then ads else []) + SentTo(packets, who)
  {
    if ads == [] {
      assert [] + packets == packets;
    } else {
      assert ([Packet(peer, ads)] + packets)[1..] == packets;
    }
  }

  lemma {:induction false} VisitAllOther(cursors: map<nat, SnapCursor>, scene: Scene, tick: nat, peers: seq<nat>, peer: nat)
    requires peer !in peers
    ensures
      var (after, packets) := VisitAll(cursors, scene, tick, peers);
      && after.Keys == cursors.Keys
      && (peer in cursors ==> after[peer] == cursors[peer])
      && SentTo(packets, peer) == []
    decreases |peers|
  {
    hide VisitCursor;
    if peers != [] {
      if peers[0] !in cursors {
        VisitAllOther(cursors, scene, tick, peers[1..], peer);
      } else {
        var (c, ads) := VisitCursor(cursors[peers[0]], scene, peers[0], tick);
        VisitAllOther(cursors[peers[0] := c], scene, tick, peers[1..], peer);
        SentToCons(peers[0], ads, VisitAll(cursors[peers[0] := c], scene, tick, peers[1..]).1, peer);
        assert cursors[peers[0] := c].Keys == cursors.Keys;
      }
    }
  }

  lemma {:induction false} VisitAllAt(cursors: map<nat, SnapCursor>, scene: Scene, tick: nat, peers: seq<nat>, i: nat)
    requires i < |peers| && Distinct(peers) && peers[i] in cursors
    ensures
      var (after, packets) := VisitAll(cursors, scene, tick, peers);
      && peers[i] in after
      && after[peers[i]] == VisitCursor(cursors[peers[i]], scene, peers[i], tick).0
      && SentTo(packets, peers[i]) == VisitCursor(cursors[peers[i]], scene, peers[i], tick).1
    decreases |peers|
  {
    hide VisitCursor;
    var peer := peers[i];
    if peers[0] in cursors {
      var (c, ads) := VisitCursor(cursors[peers[0]], scene, peers[0], tick);
      var next := cursors[peers[0] := c];
      SentToCons(peers[0], ads, VisitAll(next, scene, tick, peers[1..]).1, peer);
      if i == 0 {
        assert peer !in peers[1..];
        VisitAllOther(next, scene, tick, peers[1..], peer);
      } else {
        assert peers[0] != peer;
        VisitAllAt(next, scene, tick, peers[1..], i - 1);
      }
    } else {
      assert i > 0;
      VisitAllAt(cursors, scene, tick, peers[1..], i - 1);
    }
  }

  lemma VisitAllKeys(cursors: map<nat, SnapCursor>, scene: Scene, tick: nat, peers: seq<nat>)
    ensures VisitAll(cursors, scene, tick, peers).0.Keys == cursors.Keys
    decreases |peers|
  {
    hide VisitCursor;
    if peers != [] {
      if peers[0] !in cursors {
        VisitAllKeys(cursors, scene, tick, peers[1..]);
      } else {
        var c := VisitCursor(cursors[peers[0]], scene, peers[0], tick).0;
        VisitAllKeys(cursors[peers[0] := c], scene, tick, peers[1..]);
        assert cursors[peers[0] := c].Keys == cursors.Keys;
      }
    }
  }

  /** The scheduler's cursor stands on a recipient, or has not moved yet. */
  predicate Anchored(st: SnapState) {
    st.cursor.None? || st.cursor.value in st.cursors
  }

  ghost function IndexIn(s: set<nat>, x: nat): (i: nat)
    requires x in s
    ensures i < |s| && Sorted(s)[i] == x
  {
    assert x in Sorted(s);
    var i :| 0 <= i < |Sorted(s)| && Sorted(s)[i] == x;
    i
  }

  /** How far behind the cursor a recipient stands. */
  ghost function OffsetOf(st: SnapState, i: nat): (r: nat)
    requires Anchored(st) && i < |st.cursors|
    ensures r < |st.cursors|
  {
    if st.cursor.None? then i
    else
      var q := IndexIn(st.cursors.Keys, st.cursor.value);
      if i > q then i - q - 1 else i + |st.cursors| - q - 1
  }

  ghost function Recipient(st: SnapState, i: nat): (peer: nat)
    requires i < |st.cursors|
    ensures peer in st.cursors
  {
    assert Sorted(st.cursors.Keys)[i] in Sorted(st.cursors.Keys);
    Sorted(st.cursors.Keys)[i]
  }

  ghost function LaneOf(st: SnapState, i: nat): Lane
    requires Anchored(st) && i < |st.cursors|
  {
    Lane(OffsetOf(st, i), st.tick, st.cursors[Recipient(st, i)])
  }

  /** The recipient that stands at a given offset. */
  ghost function IndexAt(st: SnapState, offset: nat): (k: nat)
    requires Anchored(st) && offset < |st.cursors|
    ensures k < |st.cursors| && OffsetOf(st, k) == offset
    ensures forall i :: 0 <= i < |st.cursors| && OffsetOf(st, i) == offset ==> i == k
  {
    if st.cursor.None? then offset else Circular(IndexIn(st.cursors.Keys, st.cursor.value), offset + 1, |st.cursors|)
  }

  lemma WindowEntry(st: SnapState, o: nat)
    requires Anchored(st) && o < Window(|st.cursors|)
    ensures |OrderedSets.After(st.cursors.Keys, st.cursor, PACKETS_PER_TICK)| == Window(|st.cursors|)
    ensures OrderedSets.After(st.cursors.Keys, st.cursor, PACKETS_PER_TICK)[o] == Recipient(st, IndexAt(st, o))
  {
    hide Sorted, OrderedSets.After;
    var s := st.cursors.Keys;
    if st.cursor.None? {
      AfterStart(s, PACKETS_PER_TICK, o);
    } else {
      AfterAt(s, IndexIn(s, st.cursor.value), PACKETS_PER_TICK, o);
    }
  }

  lemma RecipientsDiffer(st: SnapState, i: nat, k: nat)
    requires i < |st.cursors| && k < |st.cursors| && i != k
    ensures Recipient(st, i) != Recipient(st, k)
  {
    hide Sorted;
    assert Ascending(Sorted(st.cursors.Keys));
  }

  /** The window of a tick holds exactly the recipients whose offset is inside it, in that order. */
  lemma WindowAt(st: SnapState, i: nat)
    requires Anchored(st) && i < |st.cursors|
    ensures
      var peers := OrderedSets.After(st.cursors.Keys, st.cursor, PACKETS_PER_TICK);
      && |peers| == Window(|st.cursors|)
      && (OffsetOf(st, i) < |peers| ==> peers[OffsetOf(st, i)] == Recipient(st, i))
      && (OffsetOf(st, i) >= |peers| ==> Recipient(st, i) !in peers)
  {
    hide Sorted, OrderedSets.After, OffsetOf, IndexAt, Recipient;
    var peers := OrderedSets.After(st.cursors.Keys, st.cursor, PACKETS_PER_TICK);
    forall o | 0 <= o < |peers| ensures o == OffsetOf(st, i) <==> peers[o] == Recipient(st, i) {
      WindowEntry(st, o);
      if IndexAt(st, o) != i { RecipientsDiffer(st, i, IndexAt(st, o)); }
    }
  }

  // ----- A crowd that stays put and sees itself

  /** The scene the recurrence is about: fixed members, one player each, all within view of each other. */
  ghost predicate Crowd(st: SnapState, scene: Scene) {
    && scene.members.Keys == st.cursors.Keys
    && scene.players == scene.whereabouts.Keys
    && |scene.players| == |st.cursors| <= ENTITY_SCAN
    && scene.cadence >= 1
    && (forall peer :: peer in scene.members ==> scene.members[peer].player in scene.players)
    && (forall peer, p :: peer in scene.members && p in scene.players ==>
          Chebyshev(scene.whereabouts[p], scene.members[peer].cell) <= scene.radius)
  }

  ghost predicate Visited(st: SnapState) {
    DatedBy(st.cursors, st.tick)
  }

  /** In such a crowd everyone but oneself is in view, so the election is full. */
  lemma CrowdElection(st: SnapState, scene: Scene, peer: nat)
    requires Crowd(st, scene) && peer in st.cursors
    ensures Distinct(Elect(scene, scene.members[peer]))
    ensures |Elect(scene, scene.members[peer])| == Visible(|st.cursors|)
  {
    hide Viewed, Rotated, Crowd, ViewSet, OrderedSets.After, InView;
    CrowdMembers(st, scene);
    var self := scene.members[peer];
    CrowdViewSet(st, scene, peer);
    ElectionOrder(scene, self);
    RotatedIsPermutation(ViewSet(scene, self), Some(self.player));
  }

  ghost function SetupOf(st: SnapState, scene: Scene, i: nat): Setup
    requires i < |st.cursors| && Recipient(st, i) in scene.members
  {
    Setup(|st.cursors|, scene.cadence, Elect(scene, scene.members[Recipient(st, i)]))
  }

  lemma BroadcastFrame(st: SnapState, scene: Scene)
    requires Anchored(st) && |st.cursors| > 0
    ensures
      var (r, _) := Broadcast(st, scene);
      && r.cursors.Keys == st.cursors.Keys && |r.cursors| == |st.cursors| && Anchored(r)
      && r.tick == (st.tick + 1) % U32
      && r.cursor == Some(Recipient(st, IndexAt(st, Window(|st.cursors|) - 1)))
  {
    hide OrderedSets.After, VisitAll, Recipient, IndexAt;
    var peers := OrderedSets.After(st.cursors.Keys, st.cursor, PACKETS_PER_TICK);
    VisitAllKeys(st.cursors, scene, (st.tick + 1) % U32, peers);
    var r := Broadcast(st, scene).0;
    assert |r.cursors| == |r.cursors.Keys| == |st.cursors.Keys| == |st.cursors|;
    WindowEntry(st, Window(|st.cursors|) - 1);
  }

  lemma IndexInUnique(s: set<nat>, i: nat)
    requires i < |s|
    ensures Sorted(s)[i] in s && IndexIn(s, Sorted(s)[i]) == i
  {
    hide Sorted;
    assert Sorted(s)[i] in Sorted(s);
    var k := IndexIn(s, Sorted(s)[i]);
    assert Ascending(Sorted(s));
  }

  /** Between ticks every recipient draws nearer by one window, or goes to the back of the circle. */
  lemma OffsetAdvances(st: SnapState, scene: Scene, i: nat)
    requires Anchored(st) && i < |st.cursors|
    ensures
      var r := Broadcast(st, scene).0;
      Anchored(r) && |r.cursors| == |st.cursors| && OffsetOf(r, i) == Advance(OffsetOf(st, i), |st.cursors|)
  {
    hide Broadcast, Sorted;
    BroadcastFrame(st, scene);
    var last := IndexAt(st, Window(|st.cursors|) - 1);
    IndexInUnique(st.cursors.Keys, last);
  }

  /** A tick visits a recipient exactly when the window covers it, and touches no other cursor. */
  lemma TickEffect(st: SnapState, scene: Scene, i: nat)
    requires Anchored(st) && st.tick + 1 < U32 && i < |st.cursors|
    ensures
      var (r, packets) := Broadcast(st, scene);
      var peer := Recipient(st, i);
      var (c, ads) := if OffsetOf(st, i) < Window(|st.cursors|)
                      then VisitCursor(st.cursors[peer], scene, peer, st.tick + 1) else (st.cursors[peer], []);
      && r.tick == st.tick + 1
      && peer in r.cursors && r.cursors[peer] == c
      && SentTo(packets, peer) == ads
  {
    hide OrderedSets.After, VisitAll, VisitCursor, OffsetOf, Recipient;
    WindowAt(st, i);
    var peers := OrderedSets.After(st.cursors.Keys, st.cursor, PACKETS_PER_TICK);
    if OffsetOf(st, i) < |peers| {
      VisitAllAt(st.cursors, scene, st.tick + 1, peers, OffsetOf(st, i));
    } else {
      VisitAllOther(st.cursors, scene, st.tick + 1, peers, Recipient(st, i));
    }
  }

  lemma SameRecipient(st: SnapState, r: SnapState, i: nat)
    requires st.cursors.Keys == r.cursors.Keys && i < |st.cursors| == |r.cursors|
    ensures Recipient(r, i) == Recipient(st, i)
  {
  }

  /** Short of a wrap, the wrapping test for a due visit is the plain one. */
  lemma DueAgrees(c: SnapCursor, tick: nat, cadence: nat)
    requires c.lastVisit <= tick < U32
    ensures DueNow(c, tick, cadence) <==> IsDue(c, tick, cadence)
  {
  }

  /** This recipient's own view of a scene: the cadence, and whom it is told about. */
  ghost predicate Shows(scene: Scene, peer: nat, s: Setup) {
    peer in scene.members && scene.cadence == s.cadence && Elect(scene, scene.members[peer]) == s.sel
  }

  /** One tick of the scheduler is one step of the recipient's lane, whatever the others see. */
  lemma TickIsLaneStep(st: SnapState, scene: Scene, i: nat, s: Setup)
    requires Anchored(st) && Visited(st) && st.tick + 1 < U32 && i < |st.cursors| == s.peers
    requires Shows(scene, Recipient(st, i), s)
    ensures
      var (r, packets) := Broadcast(st, scene);
      && Anchored(r) && r.cursors.Keys == st.cursors.Keys && |r.cursors| == |st.cursors|
      && LaneOf(r, i) == LaneStep(LaneOf(st, i), s).0
      && SentTo(packets, Recipient(st, i)) == LaneStep(LaneOf(st, i), s).1
  {
    hide Broadcast, Emit, Elect, OffsetOf, Recipient, SentTo, Advance, DueNow, IsDue;
    BroadcastFrame(st, scene);
    OffsetAdvances(st, scene, i);
    TickEffect(st, scene, i);
    SameRecipient(st, Broadcast(st, scene).0, i);
    DueAgrees(st.cursors[Recipient(st, i)], st.tick + 1, scene.cadence);
  }

  /** No visit is dated in the future. */
  ghost predicate DatedBy(cursors: map<nat, SnapCursor>, tick: nat) {
    forall peer :: peer in cursors ==> cursors[peer].lastVisit <= tick
  }

  lemma VisitDated(c: SnapCursor, scene: Scene, peer: nat, tick: nat)
    requires c.lastVisit <= tick
    ensures VisitCursor(c, scene, peer, tick).0.lastVisit <= tick
  {
    hide Emit, Elect;
    if peer in scene.members { EmitKeepsVisit(c.(lastVisit := tick), Elect(scene, scene.members[peer])); }
  }

  lemma {:induction false} VisitAllDated(cursors: map<nat, SnapCursor>, scene: Scene, tick: nat, peers: seq<nat>)
    requires DatedBy(cursors, tick)
    ensures DatedBy(VisitAll(cursors, scene, tick, peers).0, tick)
    decreases |peers|
  {
    hide VisitCursor;
    if peers != [] {
      if peers[0] !in cursors {
        VisitAllDated(cursors, scene, tick, peers[1..]);
      } else {
        VisitDated(cursors[peers[0]], scene, peers[0], tick);
        VisitAllDated(cursors[peers[0] := VisitCursor(cursors[peers[0]], scene, peers[0], tick).0], scene, tick, peers[1..]);
      }
    }
  }

  /** Wherever the cursor stood, even on a recipient that has left, one tick puts it on one that is there. */
  lemma BroadcastAnchors(st: SnapState, scene: Scene)
    requires |st.cursors| > 0
    ensures
      var r := Broadcast(st, scene).0;
      Anchored(r) && r.cursors.Keys == st.cursors.Keys && |r.cursors| == |st.cursors|
  {
    hide OrderedSets.After, VisitAll;
    var peers := OrderedSets.After(st.cursors.Keys, st.cursor, PACKETS_PER_TICK);
    VisitAllKeys(st.cursors, scene, (st.tick + 1) % U32, peers);
    var r := Broadcast(st, scene).0;
    assert |st.cursors| == |st.cursors.Keys| && |r.cursors| == |r.cursors.Keys|;
    assert peers[|peers| - 1] in peers;
  }

  lemma BroadcastDated(st: SnapState, scene: Scene)
    requires Visited(st) && st.tick + 1 < U32
    ensures Visited(Broadcast(st, scene).0) && Broadcast(st, scene).0.tick == st.tick + 1
  {
    hide OrderedSets.After, VisitAll;
    VisitAllDated(st.cursors, scene, st.tick + 1, OrderedSets.After(st.cursors.Keys, st.cursor, PACKETS_PER_TICK));
  }

  // ----- Any number of ticks, each in its own scene

  ghost function Ticks(st: SnapState, scenes: seq<Scene>): SnapState
    decreases |scenes|
  {
    if scenes == [] then st else Ticks(Broadcast(st, scenes[0]).0, scenes[1..])
  }

  /** What a recipient is sent in the `n`-th of these ticks. */
  ghost function SentAt(st: SnapState, scenes: seq<Scene>, n: nat, peer: nat): seq<nat>
    requires 1 <= n <= |scenes|
  {
    SentTo(Broadcast(Ticks(st, scenes[..n - 1]), scenes[n - 1]).1, peer)
  }

  /** The recipients that the next tick considers. */
  function Turn(st: SnapState): seq<nat> {
    OrderedSets.After(st.cursors.Keys, st.cursor, PACKETS_PER_TICK)
  }

  lemma {:induction false} OffsetAfterTicks(st: SnapState, scenes: seq<Scene>, i: nat)
    requires Anchored(st) && i < |st.cursors|
    ensures
      var r := Ticks(st, scenes);
      && Anchored(r) && r.cursors.Keys == st.cursors.Keys && |r.cursors| == |st.cursors|
      && OffsetOf(r, i) == Offset(OffsetOf(st, i), |st.cursors|, |scenes|)
    decreases |scenes|
  {
    hide Broadcast, OffsetOf, Advance, Window;
    if scenes != [] {
      OffsetAdvances(st, scenes[0], i);
      BroadcastAnchors(st, scenes[0]);
      OffsetAfterTicks(Broadcast(st, scenes[0]).0, scenes[1..], i);
    }
  }

  lemma InTurnIff(st: SnapState, r: SnapState, i: nat)
    requires Anchored(r) && r.cursors.Keys == st.cursors.Keys && i < |st.cursors| == |r.cursors|
    ensures Recipient(st, i) in Turn(r) <==> OffsetOf(r, i) < Window(|r.cursors|)
  {
    hide OrderedSets.After, OffsetOf, Recipient;
    WindowAt(r, i);
    SameRecipient(st, r, i);
  }

  /**
    * Of any ceil(P / 32) consecutive ticks, in whatever scenes, as long as the recipients stay: each recipient is
    * considered in the one its place calls for, and in none before it.
    */
  lemma EveryRecipientGetsItsTurn(st: SnapState, scenes: seq<Scene>, i: nat)
    requires Anchored(st) && i < |st.cursors| && Rounds(|st.cursors|) <= |scenes|
    ensures
      var w := Wait(OffsetOf(st, i), |st.cursors|);
      && w < Rounds(|st.cursors|)
      && Recipient(st, i) in Turn(Ticks(st, scenes[..w]))
      && (forall t :: 0 <= t < w ==> Recipient(st, i) !in Turn(Ticks(st, scenes[..t])))
  {
    hide OffsetOf, Recipient, Turn, Ticks, Wait, Rounds, Window, Offset;
    var peers, offset := |st.cursors|, OffsetOf(st, i);
    var w := Wait(offset, peers);
    EveryRecipientIsConsidered(offset, peers);
    forall t | 0 <= t <= w ensures Recipient(st, i) in Turn(Ticks(st, scenes[..t])) <==> t == w {
      OffsetAfterTicks(st, scenes[..t], i);
      InTurnIff(st, Ticks(st, scenes[..t]), i);
    }
  }

  /** However everyone moves, this recipient keeps being told about the same players. */
  ghost predicate AllShow(scenes: seq<Scene>, peer: nat, s: Setup) {
    forall k :: 0 <= k < |scenes| ==> Shows(scenes[k], peer, s)
  }

  /** Ticks of the scheduler, as long as its 32-bit tick does not wrap, run the recipient's lane. */
  lemma {:induction false} TicksAreLaneSteps(st: SnapState, scenes: seq<Scene>, i: nat, s: Setup)
    requires Anchored(st) && Visited(st) && st.tick + |scenes| < U32 && i < |st.cursors| == s.peers
    requires AllShow(scenes, Recipient(st, i), s)
    ensures
      var r := Ticks(st, scenes);
      && Anchored(r) && Visited(r) && r.cursors.Keys == st.cursors.Keys && |r.cursors| == |st.cursors|
      && r.tick == st.tick + |scenes|
      && LaneOf(r, i) == Recurrence.After(LaneOf(st, i), s, |scenes|)
    decreases |scenes|
  {
    hide Broadcast, Shows, OffsetOf, Recipient, LaneStep, Visited;
    if scenes != [] {
      var r := Broadcast(st, scenes[0]).0;
      TickIsLaneStep(st, scenes[0], i, s);
      BroadcastDated(st, scenes[0]);
      SameRecipient(st, r, i);
      TicksAreLaneSteps(r, scenes[1..], i, s);
    }
  }

  /** What the scheduler sends in the `n`-th tick is what the lane sends. */
  lemma SentIsLaneAds(st: SnapState, scenes: seq<Scene>, i: nat, s: Setup, n: nat)
    requires Anchored(st) && Visited(st) && st.tick + |scenes| < U32 && i < |st.cursors| == s.peers
    requires AllShow(scenes, Recipient(st, i), s) && 1 <= n <= |scenes|
    ensures SentAt(st, scenes, n, Recipient(st, i)) == AdsAt(LaneOf(st, i), s, n)
  {
    hide Broadcast, Shows, OffsetOf, Recipient, LaneStep, SentTo, Visited;
    TicksAreLaneSteps(st, scenes[..n - 1], i, s);
    var r := Ticks(st, scenes[..n - 1]);
    SameRecipient(st, r, i);
    TickIsLaneStep(r, scenes[n - 1], i, s);
  }

  /** The recipient was visited in the tick that produced `st`, as part of a sweep that starts at `base`. */
  ghost predicate JustServed(st: SnapState, i: nat, s: Setup, base: nat, j: nat) {
    && Anchored(st) && Visited(st) && i < |st.cursors| == s.peers
    && JustVisited(LaneOf(st, i), s)
    && AtPhase(st.cursors[Recipient(st, i)], s.sel, base, j)
  }

  /** ... and the visit told it about its `k`-th player. */
  ghost predicate JustTold(st: SnapState, i: nat, s: Setup, base: nat, j: nat, k: nat) {
    JustServed(st, i, s, base, j) && k < |s.sel| && s.sel[k] in Chunk(s.sel, base, Previous(j, Chunks(|s.sel|)))
  }

  /** The bound on every gap, and the formula where it is exact. */
  ghost predicate GapOf(s: Setup, n: nat) {
    && 1 <= n && 1 <= s.peers && n <= Chunks(Visible(s.peers)) * (s.cadence + Rounds(s.peers) - 1)
    && (EvenRounds(s.peers) && RecurrenceTicks(s.peers, s.cadence).Some? ==> n == RecurrenceTicks(s.peers, s.cadence).value)
  }

  /** Ticks until a recipient that has just been visited has been through one whole sweep of due visits. */
  ghost function SweepTime(st: SnapState, i: nat, s: Setup): nat
    requires Anchored(st) && i < |st.cursors| == s.peers && s.cadence >= 1
  {
    VisitTime(OffsetOf(st, i), s.peers, s.cadence, Chunks(Visible(s.peers)))
  }

  /**
    * Recurrence of the real scheduler, for a recipient whose selection stays the same and is as full as its
    * crowd allows, however everyone moves meanwhile: a player advertised to it is next advertised to it exactly
    * `SweepTime` ticks later and at no tick before, which is at most chunks * (cadence + ceil(P / 32) - 1)
    * ticks and equals the closed formula when P <= 32 or 32 divides P.
    */
  lemma SchedulerRecurrence(st: SnapState, scenes: seq<Scene>, i: nat, s: Setup, base: nat, j: nat, k: nat)
    requires JustTold(st, i, s, base, j, k) && AllShow(scenes, Recipient(st, i), s)
    requires st.tick + |scenes| < U32 && SweepTime(st, i, s) <= |scenes|
    ensures
      var n := SweepTime(st, i, s);
      && GapOf(s, n)
      && s.sel[k] in SentAt(st, scenes, n, Recipient(st, i))
      && (forall t :: 1 <= t < n ==> s.sel[k] !in SentAt(st, scenes, t, Recipient(st, i)))
  {
    hide Shows, AllShow, Visited, Chunk, AtPhase, VisitTime, RecurrenceTicks, OffsetOf, Recipient, Rounds, AdsAt, SentAt;
    var l := LaneOf(st, i);
    JustVisitedBounds(l, s);
    AdvertisementRecurs(l, s, base, j, k);
    var n := VisitTime(l.offset, s.peers, s.cadence, Chunks(|s.sel|));
    SentIsLaneAds(st, scenes, i, s, n);
    forall t | 1 <= t < n ensures s.sel[k] !in SentAt(st, scenes, t, Recipient(st, i)) {
      SentIsLaneAds(st, scenes, i, s, t);
    }
    if EvenRounds(s.peers) && RecurrenceTicks(s.peers, s.cadence).Some? {
      FormulaIsExact(l.offset, s.peers, s.cadence);
    }
  }

  /** A selection as full as the crowd allows. */
  ghost predicate Dense(s: Setup) {
    2 <= s.peers && 1 <= s.cadence && Distinct(s.sel) && |s.sel| == Visible(s.peers)
  }

  /** A fresh recipient that the first tick reaches is served from the start of its sweep. */
  lemma FirstTickServes(st: SnapState, scene: Scene, i: nat, s: Setup)
    requires Anchored(st) && Visited(st) && st.tick + 1 < U32 && i < |st.cursors| == s.peers && Dense(s)
    requires Shows(scene, Recipient(st, i), s) && OffsetOf(st, i) < Window(|st.cursors|)
    requires st.cursors[Recipient(st, i)] == SnapCursor(None, 0, 0)
    ensures JustServed(Broadcast(st, scene).0, i, s, 0, if Chunks(Visible(s.peers)) == 1 then 0 else 1)
    ensures SentTo(Broadcast(st, scene).1, Recipient(st, i)) == Chunk(s.sel, 0, 0)
  {
    hide Broadcast, Shows, Emit, OffsetOf, Recipient, AtPhase, Chunk;
    var r := Broadcast(st, scene).0;
    var c := SnapCursor(None, 0, st.tick + 1);
    TickIsLaneStep(st, scene, i, s);
    BroadcastDated(st, scene);
    SameRecipient(st, r, i);
    PhaseZero(c, s.sel);
    PhaseStep(c, s.sel, 0, 0);
    VisitNow(LaneOf(st, i), s);
  }

  lemma AnchoredSettles(st: SnapState, scenes: seq<Scene>, i: nat, s: Setup) returns (n: nat, base: nat)
    requires Anchored(st) && Visited(st) && st.tick + |scenes| < U32 && i < |st.cursors| == s.peers && Dense(s)
    requires AllShow(scenes, Recipient(st, i), s) && 4 * (s.cadence + Rounds(s.peers)) <= |scenes|
    ensures n <= 4 * (s.cadence + Rounds(s.peers)) && JustServed(Ticks(st, scenes[..n]), i, s, base, 0)
  {
    hide Shows, OffsetOf, Recipient, Emit, AtPhase, Rounds, JustVisited, Ticks, Recurrence.After;
    var l := LaneOf(st, i);
    n, base := EveryLaneSettles(l, s);
    TicksAreLaneSteps(st, scenes[..n], i, s);
    SameRecipient(st, Ticks(st, scenes[..n]), i);
  }

  /**
    * After any change of membership, wherever it left the scheduler's cursor and the recipients' sweeps: a
    * recipient whose selection then stays full and the same is soon between two sweeps and just visited, which
    * is where `SchedulerRecurrence` takes over.
    */
  lemma EveryRecipientSettles(st: SnapState, scenes: seq<Scene>, i: nat, s: Setup) returns (n: nat, base: nat)
    requires Visited(st) && st.tick + |scenes| < U32 && i < |st.cursors| == s.peers && Dense(s)
    requires AllShow(scenes, Recipient(st, i), s) && 1 + 4 * (s.cadence + Rounds(s.peers)) <= |scenes|
    ensures 1 <= n <= 1 + 4 * (s.cadence + Rounds(s.peers)) && JustServed(Ticks(st, scenes[..n]), i, s, base, 0)
  {
    hide Broadcast, JustServed, Rounds, Visited, Shows, Recipient;
    var r := Broadcast(st, scenes[0]).0;
    BroadcastAnchors(st, scenes[0]);
    BroadcastDated(st, scenes[0]);
    SameRecipient(st, r, i);
    var more;
    more, base := AnchoredSettles(r, scenes[1..], i, s);
    n := more + 1;
    assert scenes[..n][0] == scenes[0] && scenes[..n][1..] == scenes[1..][..more];
  }

  // ----- A crowd that sees itself and moves

  /** The same people, wherever they are. */
  ghost predicate SameCrowd(a: Scene, b: Scene) {
    && a.members.Keys == b.members.Keys && a.players == b.players && a.cadence == b.cadence
    && (forall peer :: peer in a.members ==> a.members[peer].player == b.members[peer].player)
  }

  lemma CrowdViewSet(st: SnapState, scene: Scene, peer: nat)
    requires Crowd(st, scene) && peer in st.cursors
    ensures peer in scene.members && |scene.players| <= ENTITY_SCAN
    ensures ViewSet(scene, scene.members[peer]) == scene.players - {scene.members[peer].player}
    ensures |ViewSet(scene, scene.members[peer])| == |st.cursors| - 1
  {
    hide Chebyshev;
    var self := scene.members[peer];
    var others := scene.players - {self.player};
    assert forall p :: p in others ==> InView(scene, self, p);
  }

  /** As long as everyone is in view of everyone, it does not matter where: the election is the same. */
  lemma ElectSame(st: SnapState, a: Scene, b: Scene, peer: nat)
    requires Crowd(st, a) && Crowd(st, b) && SameCrowd(a, b) && peer in st.cursors
    ensures peer in a.members && peer in b.members && Elect(a, a.members[peer]) == Elect(b, b.members[peer])
  {
    hide Crowd, Viewed, OrderedSets.After, ViewSet, Rotated;
    CrowdViewSet(st, a, peer);
    CrowdViewSet(st, b, peer);
    ElectionOrder(a, a.members[peer]);
    ElectionOrder(b, b.members[peer]);
  }

  /** These are all scenes of one crowd, mutually visible in each of them. */
  ghost predicate CrowdThroughout(st: SnapState, scenes: seq<Scene>) {
    scenes != [] && forall k :: 0 <= k < |scenes| ==> Crowd(st, scenes[k]) && SameCrowd(scenes[0], scenes[k])
  }

  /** So every one of its recipients has a full selection that stays the same. */
  lemma CrowdShows(st: SnapState, scenes: seq<Scene>, i: nat)
    requires CrowdThroughout(st, scenes) && 2 <= |st.cursors| && i < |st.cursors|
    ensures Recipient(st, i) in scenes[0].members
    ensures Dense(SetupOf(st, scenes[0], i)) && AllShow(scenes, Recipient(st, i), SetupOf(st, scenes[0], i))
  {
    hide Crowd, Elect, Recipient;
    CrowdMembers(st, scenes[0]);
    CrowdElection(st, scenes[0], Recipient(st, i));
    forall k | 0 <= k < |scenes| ensures Shows(scenes[k], Recipient(st, i), SetupOf(st, scenes[0], i)) {
      assert SameCrowd(scenes[0], scenes[k]);
      ElectSame(st, scenes[0], scenes[k], Recipient(st, i));
    }
  }

  lemma CrowdMembers(st: SnapState, scene: Scene)
    requires Crowd(st, scene)
    ensures scene.members.Keys == st.cursors.Keys && scene.cadence >= 1
  {
  }

  // ----- The gaps happen

  lemma SentLater(st: SnapState, scenes: seq<Scene>, t: nat, peer: nat)
    requires scenes != [] && 1 <= t <= |scenes| - 1
    ensures SentAt(st, scenes, t + 1, peer) == SentAt(Broadcast(st, scenes[0]).0, scenes[1..], t, peer)
  {
    hide Broadcast, SentTo;
    assert scenes[..t][0] == scenes[0] && scenes[..t][1..] == scenes[1..][..t - 1];
  }

  lemma SentFirst(st: SnapState, scenes: seq<Scene>, peer: nat)
    requires scenes != []
    ensures SentAt(st, scenes, 1, peer) == SentTo(Broadcast(st, scenes[0]).1, peer)
  {
    hide Broadcast, SentTo;
    assert scenes[..0] == [];
  }

  /** From a fresh start the first tick leaves its recipients on all the places of the last window. */
  lemma FirstTickPlaces(st: SnapState, scene: Scene, i: nat)
    requires st.cursor.None? && i < Window(|st.cursors|)
    ensures
      var r := Broadcast(st, scene).0;
      && Anchored(st) && OffsetOf(st, i) == i
      && Anchored(r) && i < |r.cursors| && OffsetOf(r, i) == i + |st.cursors| - Window(|st.cursors|)
  {
    hide Broadcast;
    OffsetAdvances(st, scene, i);
  }

  /**
    * Every gap of the lane arithmetic is a gap of the scheduler: in a crowd that starts afresh, the recipient that
    * the first tick leaves on a given place is told about a player in that tick, and hears of it again exactly
    * `VisitTime` ticks later and at no tick before.
    */
  lemma GapHappens(st: SnapState, scenes: seq<Scene>, offset: nat, s: Setup) returns (i: nat)
    requires st.cursor.None? && |st.cursors| == s.peers && Dense(s) && Visited(st) && st.tick + |scenes| < U32
    requires s.peers - Window(s.peers) <= offset < s.peers
    requires forall peer :: peer in st.cursors ==> st.cursors[peer] == SnapCursor(None, 0, 0)
    requires AllShow(scenes, Recipient(st, offset - (s.peers - Window(s.peers))), s)
    requires 1 + VisitTime(offset, s.peers, s.cadence, Chunks(Visible(s.peers))) <= |scenes|
    ensures i == offset - (s.peers - Window(s.peers))
    ensures
      var n := VisitTime(offset, s.peers, s.cadence, Chunks(Visible(s.peers)));
      var peer := Recipient(st, i);
      && s.sel[0] in SentAt(st, scenes, 1, peer) && s.sel[0] in SentAt(st, scenes, 1 + n, peer)
      && (forall t :: 1 < t < 1 + n ==> s.sel[0] !in SentAt(st, scenes, t, peer))
  {
    hide Broadcast, OffsetOf, Recipient, VisitTime, Chunk, JustServed, SentAt, Shows, Visited;
    i := offset - (s.peers - Window(s.peers));
    var peer := Recipient(st, i);
    FirstTickPlaces(st, scenes[0], i);
    FirstTickServes(st, scenes[0], i, s);
    var r := Broadcast(st, scenes[0]).0;
    BroadcastAnchors(st, scenes[0]);
    BroadcastDated(st, scenes[0]);
    SameRecipient(st, r, i);
    FirstOfSweep(s.sel);
    SchedulerRecurrence(r, scenes[1..], i, s, 0, if Chunks(Visible(s.peers)) == 1 then 0 else 1, 0);
    var n := VisitTime(offset, s.peers, s.cadence, Chunks(Visible(s.peers)));
    SentFirst(st, scenes, peer);
    SentLater(st, scenes, n, peer);
    forall t | 1 < t < 1 + n ensures s.sel[0] !in SentAt(st, scenes, t, peer) { SentLater(st, scenes, t - 1, peer); }
  }

  lemma FirstOfSweep(sel: seq<nat>)
    requires sel != []
    ensures sel[0] in Chunk(sel, 0, 0)
  {
    assert Chunk(sel, 0, 0)[0] == sel[0];
  }

  function FirstNumbers(n: nat): (r: set<nat>)
    ensures |r| == n && forall x :: x in r <==> 1 <= x <= n
  {
    if n == 0 then {} else FirstNumbers(n - 1) + {n}
  }

  /** A crowd of this size that has just arrived, all in one cell. */
  function FreshCrowd(peers: nat): SnapState {
    SnapState(map p | p in FirstNumbers(peers) :: SnapCursor(None, 0, 0), None, 0)
  }

  function OneCell(peers: nat, cadence: nat): Scene {
    var all := FirstNumbers(peers);
    Scene(map p | p in all :: Member(p, Cell(0, 0)), all, map p | p in all :: Cell(0, 0), 1, cadence)
  }

  lemma FreshCrowdIsCrowd(peers: nat, cadence: nat)
    requires peers <= ENTITY_SCAN && cadence >= 1
    ensures Crowd(FreshCrowd(peers), OneCell(peers, cadence)) && |FreshCrowd(peers).cursors| == peers && Visited(FreshCrowd(peers))
  {
    hide FirstNumbers;
    assert FreshCrowd(peers).cursors.Keys == FirstNumbers(peers);
    assert |FreshCrowd(peers).cursors| == |FreshCrowd(peers).cursors.Keys|;
  }

  lemma FreshCursors(peers: nat)
    ensures FreshCrowd(peers).cursor.None? && FreshCrowd(peers).tick == 0 && Visited(FreshCrowd(peers))
    ensures forall peer :: peer in FreshCrowd(peers).cursors ==> FreshCrowd(peers).cursors[peer] == SnapCursor(None, 0, 0)
  {
    hide FirstNumbers;
  }

  lemma StillCrowd(peers: nat, cadence: nat, n: nat)
    requires 2 <= peers <= ENTITY_SCAN && cadence >= 1 && n > 0
    ensures CrowdThroughout(FreshCrowd(peers), seq(n, _ => OneCell(peers, cadence))) && |FreshCrowd(peers).cursors| == peers
  {
    hide Crowd, OneCell, FreshCrowd;
    FreshCrowdIsCrowd(peers, cadence);
    SameCrowdRefl(OneCell(peers, cadence));
  }

  /** What happens, in a fresh crowd, to the recipient that the first tick leaves on this place. */
  lemma FreshGap(peers: nat, cadence: nat, offset: nat, scenes: seq<Scene>) returns (i: nat, player: nat)
    requires 2 <= peers <= ENTITY_SCAN && 1 <= cadence <= 255 && peers - Window(peers) <= offset < peers
    requires CrowdThroughout(FreshCrowd(peers), scenes) && scenes[0].cadence == cadence && |FreshCrowd(peers).cursors| == peers
    requires |scenes| == 1 + VisitTime(offset, peers, cadence, Chunks(Visible(peers))) < U32
    ensures i < |FreshCrowd(peers).cursors|
    ensures
      var st := FreshCrowd(peers);
      && player in SentAt(st, scenes, 1, Recipient(st, i))
      && (forall t :: 1 < t < |scenes| ==> player !in SentAt(st, scenes, t, Recipient(st, i)))
  {
    hide Visited, VisitTime, Recipient, SentAt, AllShow, Elect, FreshCrowd, CrowdThroughout, Crowd, Chunks;
    FreshCursors(peers);
    var st := FreshCrowd(peers);
    CrowdShows(st, scenes, offset - (peers - Window(peers)));
    var s := SetupOf(st, scenes[0], offset - (peers - Window(peers)));
    i := GapHappens(st, scenes, offset, s);
    player := s.sel[0];
  }

  /** Starving is real: some recipient of a fresh crowd hears of a player it sees, and then not for the whole expiry. */
  lemma StarvingHappens(peers: nat, cadence: nat, expiry: nat) returns (i: nat, player: nat, ticks: nat)
    requires 2 <= peers <= ENTITY_SCAN && 1 <= cadence <= 255 && Starves(peers, cadence, expiry)
    ensures expiry < ticks && i < |FreshCrowd(peers).cursors|
    ensures
      var st, scenes := FreshCrowd(peers), seq(ticks, _ => OneCell(peers, cadence));
      && player in SentAt(st, scenes, 1, Recipient(st, i))
      && (forall t :: 1 < t <= expiry ==> player !in SentAt(st, scenes, t, Recipient(st, i)))
  {
    hide VisitTime, Recipient, SentAt, OneCell, FreshCrowd, CrowdThroughout;
    var offset: nat :| peers - Window(peers) <= offset < peers &&
                       VisitTime(offset, peers, cadence, Chunks(Visible(peers))) >= expiry;
    var n := VisitTime(offset, peers, cadence, Chunks(Visible(peers)));
    VisitTimeBound(offset, peers, cadence, Chunks(Visible(peers)));
    SmallGaps(peers, cadence, n);
    ticks := n + 1;
    StillCrowd(peers, cadence, ticks);
    SceneCadence(peers, cadence);
    var scenes := seq(ticks, _ => OneCell(peers, cadence));
    i, player := FreshGap(peers, cadence, offset, scenes);
  }

  lemma SceneCadence(peers: nat, cadence: nat)
    ensures OneCell(peers, cadence).cadence == cadence
  {
  }

  lemma SameCrowdRefl(scene: Scene)
    ensures SameCrowd(scene, scene)
  {
  }

  lemma SmallGaps(peers: nat, cadence: nat, n: nat)
    requires 2 <= peers <= ENTITY_SCAN && 1 <= cadence <= 255
    requires n <= Chunks(Visible(peers)) * (cadence + Rounds(peers) - 1)
    ensures n + 1 < U32
  {
    Product(Chunks(Visible(peers)), cadence + Rounds(peers) - 1, 3, 286);
  }
}
