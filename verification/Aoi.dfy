/**
  * Area-of-interest delivery for one session: publish the subscribed cells in bounded chunks, then
  * hydrate each published cell by a resumable scan of players and a keyset walk over its moorings.
  */
module Aoi {
  import opened Options
  import opened OrderedSets
  import opened World

  const CELLS_PER_UPDATE := 32
  const ENTITY_SCAN_PER_WORK := 8
  const ENTITIES_PER_PACKET := 5
  const MAX_MOORING_NAME_BYTES := 835

  datatype Hydration = Hydration(
    cell: Cell, playerCursor: Option<nat>, playersRemaining: nat, mooringCursor: Option<nat>,
    playersComplete: bool, sentAny: bool)

  datatype AoiState = AoiState(
    sub: set<Cell>, published: set<Cell>, pending: set<Cell>, cursor: Option<Cell>, active: Option<Hydration>)

  datatype Mooring = Mooring(cell: Cell, nameBytes: nat)

  /** What a visit reads: the live players and their cells, the mooring rows, and whether the database answers. */
  datatype Env = Env(players: set<nat>, whereabouts: map<nat, Cell>, moorings: map<nat, Mooring>, dbOk: bool)

  datatype Emission =
    | Update(added: seq<Cell>, removed: seq<Cell>)
    | PlayerPage(cell: Cell, examined: seq<nat>, players: seq<nat>)
    | MooringPage(cell: Cell, boat: nat)
    | CorruptMooring(cell: Cell, boat: nat)
    | CellDone(cell: Cell, emptyPage: bool)
    | Nothing
    | Failed

  // ----- Cells in row-major order

  ghost predicate IsLeastCell(s: set<Cell>, c: Cell) {
    c in s && forall d :: d in s ==> c == d || RowMajor(c, d)
  }

  lemma {:induction false} LeastCellExists(s: set<Cell>) returns (c: Cell)
    requires s != {}
    ensures IsLeastCell(s, c)
  {
    c :| c in s;
    if s != {c} {
      var d := LeastCellExists(s - {c});
      forall e | e in s ensures (if RowMajor(c, d) then c else d) == e || RowMajor(if RowMajor(c, d) then c else d, e) {
        if e != c { assert e in s - {c}; }
      }
      c := if RowMajor(c, d) then c else d;
    }
  }

  function LeastCell(s: set<Cell>): (c: Cell)
    requires s != {}
    ensures IsLeastCell(s, c)
  {
    assert exists c :: IsLeastCell(s, c) by { var c := LeastCellExists(s); }
    var c :| c in s && forall d :: d in s ==> c == d || RowMajor(c, d);
    c
  }

  /** At most `limit` cells of the set, the first ones in row-major order. */
  function FirstCells(s: set<Cell>, limit: nat): (r: seq<Cell>)
    ensures |r| == if limit < |s| then limit else |s|
    ensures forall c :: c in r ==> c in s
    ensures forall i, j :: 0 <= i < j < |r| ==> RowMajor(r[i], r[j])
  {
    if s == {} || limit == 0 then [] else
      var c := LeastCell(s);
      var rest := FirstCells(s - {c}, limit - 1);
      assert forall i :: 0 <= i < |rest| ==> rest[i] in rest;
      [c] + rest
  }

  /** ... namely those that come before all the cells left out. */
  lemma {:induction false} FirstCellsAreFirst(s: set<Cell>, limit: nat, c: Cell, d: Cell)
    requires c in FirstCells(s, limit) && d in s && d !in FirstCells(s, limit)
    ensures RowMajor(c, d)
    decreases limit
  {
    var e := LeastCell(s);
    if c != e { FirstCellsAreFirst(s - {e}, limit - 1, c, d); }
  }

  function CellSet(cells: seq<Cell>): set<Cell> {
    set c | c in cells
  }

  lemma {:induction false} FirstCellsSize(cells: seq<Cell>)
    requires forall i, j :: 0 <= i < j < |cells| ==> RowMajor(cells[i], cells[j])
    ensures |CellSet(cells)| == |cells|
  {
    if cells == [] {
      assert CellSet(cells) == {};
    } else {
      FirstCellsSize(cells[1..]);
      assert cells == [cells[0]] + cells[1..];
      assert cells[0] !in cells[1..] by {
        assert forall i :: 1 <= i < |cells| ==> RowMajor(cells[0], cells[i]);
      }
      assert CellSet(cells) == {cells[0]} + CellSet(cells[1..]);
    }
  }

  /** The next cell in row-major order after the cursor, wrapping to the first. */
  function NextHydrationCell(cells: set<Cell>, cursor: Option<Cell>): (r: Option<Cell>)
    ensures r.None? <==> cells == {}
    ensures r.Some? ==> r.value in cells
  {
    if cells == {} then None
    else if cursor.None? then Some(LeastCell(cells))
    else
      var later := set c | c in cells && RowMajor(cursor.value, c);
      Some(if later != {} then LeastCell(later) else LeastCell(cells))
  }

  /** One cell's turn comes before another's, going round from the cursor in row-major order. */
  predicate Sooner(cursor: Option<Cell>, c: Cell, d: Cell) {
    var ahead, behind := cursor.Some? && RowMajor(cursor.value, c), cursor.Some? && RowMajor(cursor.value, d);
    (ahead && !behind) || (ahead == behind && RowMajor(c, d))
  }

  /** The next cell to hydrate is the one whose turn comes first. */
  lemma NextCellIff(cells: set<Cell>, cursor: Option<Cell>, c: Cell)
    requires c in cells
    ensures NextHydrationCell(cells, cursor) == Some(c) <==> forall d :: d in cells ==> d == c || Sooner(cursor, c, d)
  {
    var next := NextHydrationCell(cells, cursor).value;
    forall d | d in cells ensures d == next || Sooner(cursor, next, d) {
      if cursor.Some? {
        var later := set e | e in cells && RowMajor(cursor.value, e);
        assert next == if later != {} then LeastCell(later) else LeastCell(cells);
        assert (d in later <==> RowMajor(cursor.value, d)) && (next in later <==> later != {});
      }
    }
  }

  // ----- Publication

  ghost predicate AoiOk(a: AoiState) {
    && a.pending <= a.published
    && (a.active.Some? ==>
          && a.active.value.cell in a.published
          && a.active.value.cell !in a.pending
          && (!a.active.value.playersComplete ==> a.active.value.playersRemaining > 0))
  }

  predicate HasWork(a: AoiState) {
    a.published != a.sub || a.active.Some? || a.pending != {}
  }

  function ChunkRemoved(a: AoiState): seq<Cell> {
    FirstCells(a.published - a.sub, CELLS_PER_UPDATE)
  }

  function ChunkAdded(a: AoiState): seq<Cell> {
    FirstCells(a.sub - a.published, CELLS_PER_UPDATE - |ChunkRemoved(a)|)
  }

  function Publish(a: AoiState, added: set<Cell>, removed: set<Cell>): AoiState {
    a.(published := a.published - removed + added,
       pending := a.pending - removed + added,
       active := if a.active.Some? && a.active.value.cell in removed then None else a.active)
  }

  function NextChunk(a: AoiState): AoiState {
    Publish(a, CellSet(ChunkAdded(a)), CellSet(ChunkRemoved(a)))
  }

  // ----- Hydration of one cell

  function StartHydration(cell: Cell, players: nat): Hydration {
    Hydration(cell, None, players, None, players == 0, false)
  }

  predicate Hit(env: Env, cell: Cell, player: nat) {
    player in env.whereabouts && env.whereabouts[player] == cell
  }

  /** Scan candidates up to and including the one that fills the packet. */
  function Scan(env: Env, cell: Cell, candidates: seq<nat>, hits: nat): (r: (seq<nat>, seq<nat>))
    ensures r.0 <= candidates
    ensures candidates != [] ==> r.0 != []
    decreases |candidates|
  {
    if candidates == [] then ([], [])
    else
      var p := candidates[0];
      var found := if Hit(env, cell, p) then [p] else [];
      if found != [] && hits + 1 == ENTITIES_PER_PACKET then ([p], found)
      else
        var (examined, more) := Scan(env, cell, candidates[1..], hits + |found|);
        ([p] + examined, found + more)
  }

  function InCell(moorings: map<nat, Mooring>, cell: Cell): set<nat> {
    set b | b in moorings && moorings[b].cell == cell
  }

  function RowsAfter(moorings: map<nat, Mooring>, cell: Cell, cursor: Option<nat>): set<nat> {
    set b | b in InCell(moorings, cell) && (cursor.Some? ==> b > cursor.value)
  }

  datatype Hydrated = Hydrated(active: Option<Hydration>, emission: Emission)

  /** One bounded unit of work on the active cell. */
  function HydrateStep(h: Hydration, env: Env): Hydrated {
    if !h.playersComplete then
      var limit := if h.playersRemaining < ENTITY_SCAN_PER_WORK then h.playersRemaining else ENTITY_SCAN_PER_WORK;
      var (examined, found) := Scan(env, h.cell, After(env.players, h.playerCursor, limit), 0);
      var remaining := if |examined| < h.playersRemaining then h.playersRemaining - |examined| else 0;
      Hydrated(
        Some(h.(playerCursor := if examined == [] then h.playerCursor else Some(examined[|examined| - 1]),
                playersRemaining := remaining,
                playersComplete := remaining == 0 || examined == [],
                sentAny := h.sentAny || found != [])),
        PlayerPage(h.cell, examined, found))
    else if !env.dbOk then Hydrated(Some(h), Failed)
    else
      var rows := RowsAfter(env.moorings, h.cell, h.mooringCursor);
      if rows == {} then Hydrated(None, CellDone(h.cell, !h.sentAny))
      else
        var boat := Least(rows);
        var fits := env.moorings[boat].nameBytes <= MAX_MOORING_NAME_BYTES;
        Hydrated(Some(h.(mooringCursor := Some(boat), sentAny := h.sentAny || fits)),
                 if fits then MooringPage(h.cell, boat) else CorruptMooring(h.cell, boat))
  }

  // ----- One visit

  datatype Visited = Visited(state: AoiState, emission: Emission, more: bool)

  /** Drop an active cell that is no longer wanted, then pick the next pending one if none is active. */
  function Prepare(a: AoiState, players: nat): AoiState {
    var a1 :=
      if a.active.Some? && (a.active.value.cell !in a.sub || a.active.value.cell !in a.published)
      then a.(active := None) else a;
    if a1.active.Some? then a1
    else
      var next := NextHydrationCell(a1.pending, a1.cursor);
      if next.None? then a1
      else a1.(pending := a1.pending - {next.value}, cursor := next, active := Some(StartHydration(next.value, players)))
  }

  function Visit(a: AoiState, env: Env): Visited {
    if ChunkAdded(a) != [] || ChunkRemoved(a) != [] then
      var r := NextChunk(a);
      Visited(r, Update(ChunkAdded(a), ChunkRemoved(a)), HasWork(r))
    else
      var p := Prepare(a, |env.players|);
      if p.active.None? then Visited(p, Nothing, HasWork(p))
      else
        var step := HydrateStep(p.active.value, env);
        var r := p.(active := step.active);
        match step.emission
        case PlayerPage(_, _, _) => Visited(r, step.emission, !step.active.value.playersComplete || HasWork(r))
        case CellDone(_, _) => Visited(r, step.emission, HasWork(r))
        case _ => Visited(r, step.emission, true)
  }

  lemma ChunkEmptyIff(a: AoiState)
    ensures ChunkAdded(a) == [] && ChunkRemoved(a) == [] <==> a.published == a.sub
  {
    if ChunkAdded(a) == [] && ChunkRemoved(a) == [] {
      assert a.published - a.sub == {} && a.sub - a.published == {};
    } else {
      assert a.published == a.sub ==> a.published - a.sub == {} && a.sub - a.published == {};
    }
  }

  /** Chunks are bounded, with removals first, and never name a cell twice or both ways. */
  lemma ChunkIsBounded(a: AoiState)
    ensures |ChunkRemoved(a)| == (if |a.published - a.sub| > CELLS_PER_UPDATE then CELLS_PER_UPDATE else |a.published - a.sub|)
    ensures
      var room := CELLS_PER_UPDATE - |ChunkRemoved(a)|;
      |ChunkAdded(a)| == (if |a.sub - a.published| > room then room else |a.sub - a.published|)
    ensures |ChunkAdded(a)| + |ChunkRemoved(a)| <= CELLS_PER_UPDATE
    ensures CellSet(ChunkAdded(a)) <= a.sub - a.published && CellSet(ChunkRemoved(a)) <= a.published - a.sub
    ensures |CellSet(ChunkAdded(a))| == |ChunkAdded(a)| && |CellSet(ChunkRemoved(a))| == |ChunkRemoved(a)|
  {
    FirstCellsSize(ChunkAdded(a));
    FirstCellsSize(ChunkRemoved(a));
  }

  lemma NextChunkOk(a: AoiState)
    requires AoiOk(a)
    ensures AoiOk(NextChunk(a))
  {
    hide ChunkAdded, ChunkRemoved, CellSet;
    ChunkIsBounded(a);
  }

  lemma PrepareOk(a: AoiState, players: nat)
    requires AoiOk(a)
    ensures AoiOk(Prepare(a, players))
    ensures Prepare(a, players).published == a.published && Prepare(a, players).sub == a.sub
    ensures Prepare(a, players).active.None? ==> Prepare(a, players).pending == {}
  {
  }

  /** Once publication has caught up, an active cell is never stale: the discarding branch is dead. */
  lemma ActiveIsNeverStale(a: AoiState)
    requires AoiOk(a) && ChunkAdded(a) == [] && ChunkRemoved(a) == []
    ensures a.active.Some? ==> a.active.value.cell in a.sub && a.active.value.cell in a.published
  {
    ChunkEmptyIff(a);
  }

  lemma HydrateStepKeeps(h: Hydration, env: Env)
    ensures
      var s := HydrateStep(h, env);
      && (s.active.None? <==> s.emission.CellDone?)
      && (s.active.Some? ==> s.active.value.cell == h.cell)
      && (s.active.Some? && !s.active.value.playersComplete ==> s.active.value.playersRemaining > 0)
      && !s.emission.Update?
      && (s.emission.PlayerPage? <==> !h.playersComplete)
  {
    hide Scan, After, Least;
  }

  /** The invariant survives a visit, and the visit asks to be repeated exactly when work is left. */
  lemma VisitOk(a: AoiState, env: Env)
    requires AoiOk(a)
    ensures AoiOk(Visit(a, env).state) && Visit(a, env).state.sub == a.sub
    ensures Visit(a, env).more <==> HasWork(Visit(a, env).state)
  {
    hide ChunkAdded, ChunkRemoved, NextChunk, Prepare, HydrateStep;
    NextChunkOk(a);
    NextChunkSub(a);
    PrepareOk(a, |env.players|);
    var p := Prepare(a, |env.players|);
    if p.active.Some? { HydrateStepKeeps(p.active.value, env); }
  }

  lemma NextChunkSub(a: AoiState)
    ensures NextChunk(a).sub == a.sub
  {
  }

  // ----- The client's mirror

  /** What a client that has applied an update believes it sees. */
  function Mirror(seen: set<Cell>, e: Emission): set<Cell> {
    if e.Update? then seen - CellSet(e.removed) + CellSet(e.added) else seen
  }

  datatype Input = Recentred(sub: set<Cell>) | Visiting(env: Env)

  function React(a: AoiState, i: Input): (AoiState, Emission) {
    match i
    case Recentred(sub) => (a.(sub := sub), Nothing)
    case Visiting(env) => (Visit(a, env).state, Visit(a, env).emission)
  }

  function Reactions(a: AoiState, inputs: seq<Input>): (AoiState, seq<Emission>)
    decreases |inputs|
  {
    if inputs == [] then (a, []) else
      var (a1, e) := React(a, inputs[0]);
      var (r, es) := Reactions(a1, inputs[1..]);
      (r, [e] + es)
  }

  function Mirrored(seen: set<Cell>, es: seq<Emission>): set<Cell>
    decreases |es|
  {
    if es == [] then seen else Mirrored(Mirror(seen, es[0]), es[1..])
  }

  lemma VisitMirror(a: AoiState, env: Env)
    ensures Mirror(a.published, Visit(a, env).emission) == Visit(a, env).state.published
  {
    hide ChunkAdded, ChunkRemoved, HydrateStep;
    var p := Prepare(a, |env.players|);
    if p.active.Some? { HydrateStepKeeps(p.active.value, env); }
  }

  /**
    * The mirror, over every run of movements and visits in any environment: folding the emitted chunks
    * gives exactly the published cells, every chunk has at most 32 cells, and the invariant holds.
    */
  lemma {:induction false} MirrorIsPublished(a: AoiState, inputs: seq<Input>)
    requires AoiOk(a)
    ensures
      var (r, es) := Reactions(a, inputs);
      && AoiOk(r)
      && Mirrored(a.published, es) == r.published
      && (forall i :: 0 <= i < |es| && es[i].Update? ==> |es[i].added| + |es[i].removed| <= CELLS_PER_UPDATE)
    decreases |inputs|
  {
    hide Visit, HydrateStep;
    if inputs != [] {
      if inputs[0].Visiting? {
        VisitOk(a, inputs[0].env);
        VisitMirror(a, inputs[0].env);
        VisitUpdates(a, inputs[0].env);
      }
      var (a1, e) := React(a, inputs[0]);
      MirrorIsPublished(a1, inputs[1..]);
    }
  }

  lemma VisitUpdates(a: AoiState, env: Env)
    ensures
      var e := Visit(a, env).emission;
      e.Update? ==> |e.added| + |e.removed| <= CELLS_PER_UPDATE && e.added + e.removed != []
  {
    hide HydrateStep;
    ChunkIsBounded(a);
    var p := Prepare(a, |env.players|);
    if p.active.Some? { HydrateStepKeeps(p.active.value, env); }
  }

  // ----- Liveness

  ghost function Unpublished(a: AoiState): set<Cell> {
    (a.published - a.sub) + (a.sub - a.published)
  }

  /** An upper bound on the work any one cell can need. */
  ghost function CellCost(env: Env): nat {
    |env.players| + |env.moorings| + 3
  }

  ghost function ActiveRank(active: Option<Hydration>, env: Env): nat {
    if active.None? then 0
    else
      var h := active.value;
      (if h.playersComplete then 0 else h.playersRemaining + 1) + |RowsAfter(env.moorings, h.cell, h.mooringCursor)| + 1
  }

  function Times(a: nat, b: nat): nat { a * b }

  /** A bound on the visits still needed: it falls on every visit. */
  ghost function Rank(a: AoiState, env: Env): nat {
    Times(|Unpublished(a)|, CellCost(env) + 1) + Times(|a.pending|, CellCost(env)) + ActiveRank(a.active, env)
  }

  lemma HydrateRankFalls(h: Hydration, env: Env)
    requires env.dbOk
    ensures ActiveRank(HydrateStep(h, env).active, env) < ActiveRank(Some(h), env)
  {
    hide Scan, After;
    if h.playersComplete {
      var rows := RowsAfter(env.moorings, h.cell, h.mooringCursor);
      if rows != {} {
        var boat := Least(rows);
        var rest := RowsAfter(env.moorings, h.cell, Some(boat));
        assert rest <= rows - {boat};
        SubsetSize(rest, rows - {boat});
      }
    }
  }

  lemma StartRank(cell: Cell, env: Env)
    ensures ActiveRank(Some(StartHydration(cell, |env.players|)), env) < CellCost(env)
  {
    SubsetSize(RowsAfter(env.moorings, cell, None), env.moorings.Keys);
  }

  lemma PublishSizes(a: AoiState, added: set<Cell>, removed: set<Cell>)
    requires added <= a.sub - a.published && removed <= a.published - a.sub
    ensures
      var r := Publish(a, added, removed);
      && Unpublished(r) == Unpublished(a) - (added + removed)
      && |r.pending| <= |a.pending| + |added|
  {
    SubsetSize(a.pending - removed, a.pending);
  }

  lemma PartSize<T>(whole: set<T>, a: set<T>, b: set<T>)
    requires a + b <= whole && a * b == {}
    ensures |whole - (a + b)| == |whole| - |a| - |b|
  {
    assert |a + b| == |a| + |b|;
  }

  lemma ChunkSizes(a: AoiState)
    requires AoiOk(a)
    ensures
      var changed := |ChunkAdded(a)| + |ChunkRemoved(a)|;
      && |Unpublished(NextChunk(a))| == |Unpublished(a)| - changed
      && |NextChunk(a).pending| <= |a.pending| + |ChunkAdded(a)|
  {
    hide ChunkAdded, ChunkRemoved, CellSet, Publish;
    var added, removed := CellSet(ChunkAdded(a)), CellSet(ChunkRemoved(a));
    ChunkIsBounded(a);
    PublishSizes(a, added, removed);
    PartSize(Unpublished(a), added, removed);
  }

  lemma ChunkActive(a: AoiState, env: Env)
    ensures ActiveRank(NextChunk(a).active, env) <= ActiveRank(a.active, env)
  {
    hide ChunkAdded, ChunkRemoved, CellSet, RowsAfter;
  }

  lemma ChunkRankFalls(a: AoiState, env: Env)
    requires AoiOk(a) && (ChunkAdded(a) != [] || ChunkRemoved(a) != [])
    ensures Rank(NextChunk(a), env) < Rank(a, env)
  {
    hide ChunkAdded, ChunkRemoved, NextChunk, CellCost, ActiveRank, Unpublished;
    ChunkSizes(a);
    ChunkActive(a, env);
    ChunkArithmetic(|Unpublished(a)|, |a.pending|, |NextChunk(a).pending|, |ChunkAdded(a)|, |ChunkRemoved(a)|, CellCost(env));
  }

  lemma ChunkArithmetic(diff: nat, pending: nat, pending': nat, added: nat, removed: nat, cost: nat)
    requires added + removed <= diff && 0 < added + removed && pending' <= pending + added
    ensures (diff - (added + removed)) * (cost + 1) + pending' * cost < diff * (cost + 1) + pending * cost
  {
    assert (diff - (added + removed)) * (cost + 1) == diff * (cost + 1) - (added + removed) * (cost + 1);
    assert (added + removed) * (cost + 1) == added * cost + removed * cost + added + removed;
    assert pending' * cost <= (pending + added) * cost == pending * cost + added * cost;
  }

  lemma PrepareRankFalls(a: AoiState, env: Env)
    requires AoiOk(a) && a.published == a.sub && a.active.None? && a.pending != {}
    ensures
      var p := Prepare(a, |env.players|);
      p.active.Some? && Unpublished(p) == Unpublished(a) && Rank(p, env) < Rank(a, env)
  {
    hide CellCost, RowsAfter;
    var next := NextHydrationCell(a.pending, a.cursor).value;
    StartRank(next, env);
    var p := Prepare(a, |env.players|);
    assert |p.pending| == |a.pending| - 1;
    assert |p.pending| * CellCost(env) == |a.pending| * CellCost(env) - CellCost(env);
  }

  /** Progress: with the database answering, every visit to a session with work left lowers its rank. */
  lemma VisitRankFalls(a: AoiState, env: Env)
    requires AoiOk(a) && env.dbOk && HasWork(a)
    ensures Rank(Visit(a, env).state, env) < Rank(a, env)
  {
    hide ChunkAdded, ChunkRemoved, NextChunk, HydrateStep, Rank, Prepare;
    ChunkEmptyIff(a);
    if a.published != a.sub {
      ChunkRankFalls(a, env);
    } else {
      var p := Prepare(a, |env.players|);
      if a.active.None? { PrepareRankFalls(a, env); } else { PrepareIdle(a, |env.players|); }
      HydratedRankFalls(p, env);
    }
  }

  lemma PrepareIdle(a: AoiState, players: nat)
    requires AoiOk(a) && a.published == a.sub && a.active.Some?
    ensures Prepare(a, players) == a
  {
  }

  lemma HydratedRankFalls(p: AoiState, env: Env)
    requires env.dbOk && p.active.Some?
    ensures Rank(p.(active := HydrateStep(p.active.value, env).active), env) < Rank(p, env)
  {
    hide HydrateStep, ActiveRank, CellCost;
    HydrateRankFalls(p.active.value, env);
  }

  function Visits(a: AoiState, env: Env, n: nat): AoiState
    decreases n
  {
    if n == 0 then a else Visits(Visit(a, env).state, env, n - 1)
  }

  /** A visit with nothing to do does nothing. */
  lemma IdleVisit(a: AoiState, env: Env)
    requires !HasWork(a)
    ensures Visit(a, env) == Visited(a, Nothing, false)
  {
    ChunkEmptyIff(a);
  }

  /**
    * Liveness, with an explicit bound: in an unchanging world every session is fully published and
    * hydrated after at most `Rank` visits, and stays so.
    */
  lemma {:induction false} DeliveryCompletes(a: AoiState, env: Env, n: nat)
    requires AoiOk(a) && env.dbOk && Rank(a, env) <= n
    ensures
      var r := Visits(a, env, n);
      r.published == r.sub == a.sub && r.pending == {} && r.active.None?
    decreases n
  {
    hide Visit, Rank;
    if HasWork(a) {
      VisitOk(a, env);
      VisitRankFalls(a, env);
      DeliveryCompletes(Visit(a, env).state, env, n - 1);
    } else if n > 0 {
      IdleVisit(a, env);
      IdleRank(a, env);
      DeliveryCompletes(a, env, n - 1);
    }
  }

  lemma IdleRank(a: AoiState, env: Env)
    requires !HasWork(a)
    ensures Rank(a, env) == 0
  {
    assert Unpublished(a) == {};
  }

  // ----- Hydration completeness

  function Examined(es: seq<Emission>): seq<nat> {
    if es == [] then [] else (if es[0].PlayerPage? then es[0].examined else []) + Examined(es[1..])
  }

  function Shown(es: seq<Emission>): seq<nat> {
    if es == [] then [] else (if es[0].PlayerPage? then es[0].players else []) + Shown(es[1..])
  }

  function Boats(es: seq<Emission>): seq<nat> {
    if es == [] then []
    else (if es[0].MooringPage? || es[0].CorruptMooring? then [es[0].boat] else []) + Boats(es[1..])
  }

  function Hits(env: Env, cell: Cell, players: seq<nat>): seq<nat> {
    if players == [] then [] else
      (if Hit(env, cell, players[0]) then [players[0]] else []) + Hits(env, cell, players[1..])
  }

  lemma {:induction false} HitsConcat(env: Env, cell: Cell, a: seq<nat>, b: seq<nat>)
    ensures Hits(env, cell, a + b) == Hits(env, cell, a) + Hits(env, cell, b)
  {
    if a == [] {
      assert a + b == b;
    } else {
      assert (a + b)[1..] == a[1..] + b;
      HitsConcat(env, cell, a[1..], b);
    }
  }

  lemma {:induction false} ScanHits(env: Env, cell: Cell, candidates: seq<nat>, hits: nat)
    requires hits < ENTITIES_PER_PACKET
    ensures
      var (examined, found) := Scan(env, cell, candidates, hits);
      && found == Hits(env, cell, examined) && hits + |found| <= ENTITIES_PER_PACKET
      && (examined == candidates || hits + |found| == ENTITIES_PER_PACKET)
    decreases |candidates|
  {
    if candidates != [] {
      var p := candidates[0];
      var found := if Hit(env, cell, p) then [p] else [];
      if found != [] && hits + 1 == ENTITIES_PER_PACKET {
        assert [p][1..] == [];
      } else {
        ScanHits(env, cell, candidates[1..], hits + |found|);
        var (examined, more) := Scan(env, cell, candidates[1..], hits + |found|);
        assert ([p] + examined)[1..] == examined;
      }
    }
  }

  /** The scan has covered the first `done` players of the ascending order and stands on the last of them. */
  ghost predicate Covered(h: Hydration, players: set<nat>, done: nat) {
    && done + h.playersRemaining == |players|
    && h.playerCursor == (if done == 0 then None else Some(Sorted(players)[done - 1]))
    && (h.playersComplete <==> h.playersRemaining == 0)
  }

  lemma CandidatesAreNext(h: Hydration, players: set<nat>, done: nat, limit: nat)
    requires Covered(h, players, done) && limit <= h.playersRemaining
    ensures After(players, h.playerCursor, limit) == Sorted(players)[done..done + limit]
  {
    hide Sorted, After;
    var got := After(players, h.playerCursor, limit);
    forall j | 0 <= j < limit ensures got[j] == Sorted(players)[done + j] {
      if done == 0 { AfterStart(players, limit, j); } else { AfterAt(players, done - 1, limit, j); }
    }
  }

  /** Hits are those of the players who stand in the cell. */
  lemma {:induction false} HitsIff(env: Env, cell: Cell, players: seq<nat>, x: nat)
    ensures x in Hits(env, cell, players) <==> x in players && x in env.whereabouts && env.whereabouts[x] == cell
  {
    if players != [] {
      HitsIff(env, cell, players[1..], x);
      assert players == [players[0]] + players[1..];
    }
  }

  /**
    * One page: the next few players in order, of whom those standing in the cell at this moment are shown. It examines
    * eight, or as many as are left, and fewer only if five of them already fill the packet.
    */
  lemma ScanStep(h: Hydration, env: Env, done: nat)
    requires Covered(h, env.players, done) && !h.playersComplete
    ensures
      var s := HydrateStep(h, env);
      && s.emission.PlayerPage? && s.active.Some?
      && 0 < |s.emission.examined| <= h.playersRemaining && |s.emission.examined| <= ENTITY_SCAN_PER_WORK
      && |s.emission.players| <= ENTITIES_PER_PACKET
      && (|s.emission.examined| == (if h.playersRemaining < ENTITY_SCAN_PER_WORK then h.playersRemaining else ENTITY_SCAN_PER_WORK)
          || |s.emission.players| == ENTITIES_PER_PACKET)
      && s.emission.examined == Sorted(env.players)[done..done + |s.emission.examined|]
      && s.emission.players == Hits(env, h.cell, s.emission.examined)
      && Covered(s.active.value, env.players, done + |s.emission.examined|)
      && s.active.value.cell == h.cell && s.active.value.mooringCursor == h.mooringCursor
  {
    hide Sorted, After, Scan, Hits;
    var limit := if h.playersRemaining < ENTITY_SCAN_PER_WORK then h.playersRemaining else ENTITY_SCAN_PER_WORK;
    CandidatesAreNext(h, env.players, done, limit);
    ScanHits(env, h.cell, After(env.players, h.playerCursor, limit), 0);
    var examined := Scan(env, h.cell, After(env.players, h.playerCursor, limit), 0).0;
    assert examined == Sorted(env.players)[done..done + limit][..|examined|];
  }

  lemma SortedTail(rows: set<nat>)
    requires rows != {}
    ensures Sorted(rows) == [Least(rows)] + Sorted(rows - {Least(rows)})
  {
  }

  /** One mooring read: a failed one changes nothing, a good one yields the next row or the end of the cell. */
  lemma MooringStep(h: Hydration, env: Env, done: nat)
    requires Covered(h, env.players, done) && h.playersComplete
    ensures
      var s := HydrateStep(h, env);
      var rows := Sorted(RowsAfter(env.moorings, h.cell, h.mooringCursor));
      && !s.emission.PlayerPage? && !s.emission.Update?
      && (s.emission.CellDone? ==> s.emission.cell == h.cell && rows == [])
      && (!s.emission.CellDone? ==>
            && s.active.Some? && s.active.value.cell == h.cell && Covered(s.active.value, env.players, done)
            && rows == Boats([s.emission]) + Sorted(RowsAfter(env.moorings, h.cell, s.active.value.mooringCursor)))
  {
    hide Sorted;
    var s := HydrateStep(h, env);
    assert [s.emission][1..] == [];
    var rows := RowsAfter(env.moorings, h.cell, h.mooringCursor);
    if env.dbOk {
      if rows == {} {
        assert |Sorted(rows)| == 0;
      } else {
        var boat := Least(rows);
        assert RowsAfter(env.moorings, h.cell, Some(boat)) == rows - {boat};
        SortedTail(rows);
      }
    }
  }

  // ----- ... over every run of movements, publication, failures and retries

  /** Membership and mooring rows are the same at every visit; who stands where, and whether the database answers, is not fixed. */
  ghost predicate Steady(inputs: seq<Input>, players: set<nat>, moorings: map<nat, Mooring>) {
    forall i :: 0 <= i < |inputs| && inputs[i].Visiting? ==>
      inputs[i].env.players == players && inputs[i].env.moorings == moorings
  }

  /** The cell is being worked on after every input but the last, which reports it done. */
  ghost predicate Finishes(a: AoiState, inputs: seq<Input>, cell: Cell)
    decreases |inputs|
  {
    && inputs != []
    && var (a1, e) := React(a, inputs[0]);
       if e.CellDone? then e.cell == cell && |inputs| == 1
       else a1.active.Some? && a1.active.value.cell == cell && Finishes(a1, inputs[1..], cell)
  }

  /** The players who stood in the cell at the very visit that examined them. */
  function Seen(inputs: seq<Input>, es: seq<Emission>, cell: Cell): seq<nat>
    requires |inputs| == |es|
    decreases |inputs|
  {
    if inputs == [] then []
    else
      (if inputs[0].Visiting? && es[0].PlayerPage? then Hits(inputs[0].env, cell, es[0].examined) else [])
      + Seen(inputs[1..], es[1..], cell)
  }

  /** A visit while a cell is active either publishes, which may take the cell away, or works on that cell. */
  lemma VisitActive(a: AoiState, env: Env)
    requires AoiOk(a) && a.active.Some?
    ensures
      var v := Visit(a, env);
      var step := HydrateStep(a.active.value, env);
      if v.emission.Update? then v.state.active.None? || v.state.active == a.active
      else v.emission == step.emission && v.state.active == step.active
  {
    hide ChunkAdded, ChunkRemoved, CellSet, HydrateStep, Prepare;
    ChunkEmptyIff(a);
    HydrateStepKeeps(a.active.value, env);
    if a.published == a.sub { PrepareIdle(a, |env.players|); }
  }

  lemma ReactOk(a: AoiState, i: Input)
    requires AoiOk(a)
    ensures AoiOk(React(a, i).0)
  {
    hide Visit, AoiOk;
    if i.Visiting? { VisitOk(a, i.env); } else { RecentreOk(a, i.sub); }
  }

  lemma RecentreOk(a: AoiState, sub: set<Cell>)
    requires AoiOk(a)
    ensures AoiOk(a.(sub := sub))
  {
  }

  /** A row is sent exactly if its name fits a packet, and logged as corrupt otherwise. */
  predicate Judged(e: Emission, moorings: map<nat, Mooring>) {
    && (e.MooringPage? ==> e.boat in moorings && moorings[e.boat].nameBytes <= MAX_MOORING_NAME_BYTES)
    && (e.CorruptMooring? ==> e.boat in moorings && moorings[e.boat].nameBytes > MAX_MOORING_NAME_BYTES)
  }

  ghost predicate AllJudged(es: seq<Emission>, moorings: map<nat, Mooring>) {
    forall i :: 0 <= i < |es| ==> Judged(es[i], moorings)
  }

  lemma VisitJudged(a: AoiState, env: Env)
    ensures Judged(Visit(a, env).emission, env.moorings)
  {
    hide ChunkAdded, ChunkRemoved, NextChunk, Prepare, Scan, After;
  }

  lemma {:induction false} RowsAreJudged(a: AoiState, inputs: seq<Input>, players: set<nat>, moorings: map<nat, Mooring>)
    requires Steady(inputs, players, moorings)
    ensures AllJudged(Reactions(a, inputs).1, moorings)
    decreases |inputs|
  {
    hide Visit, Judged;
    if inputs != [] {
      if inputs[0].Visiting? { VisitJudged(a, inputs[0].env); } else { NothingJudged(moorings); }
      RowsAreJudged(React(a, inputs[0]).0, inputs[1..], players, moorings);
    }
  }

  lemma NothingJudged(moorings: map<nat, Mooring>)
    ensures Judged(Nothing, moorings)
  {
  }

  /** What one input adds to the account of the cell. */
  lemma AccountStep(a: AoiState, i: Input, cell: Cell, players: set<nat>, moorings: map<nat, Mooring>, done: nat)
    requires AoiOk(a) && a.active.Some? && a.active.value.cell == cell && Covered(a.active.value, players, done)
    requires i.Visiting? ==> i.env.players == players && i.env.moorings == moorings
    ensures
      var (a1, e) := React(a, i);
      var rows := Sorted(RowsAfter(moorings, cell, a.active.value.mooringCursor));
      && (e.CellDone? ==> e.cell == cell && done == |players| && rows == [])
      && (!e.CellDone? && a1.active.Some? && a1.active.value.cell == cell ==>
            var page := if e.PlayerPage? then e.examined else [];
            && done + |page| <= |players| && page == Sorted(players)[done..done + |page|]
            && (e.PlayerPage? ==> i.Visiting? && e.players == Hits(i.env, cell, e.examined))
            && Covered(a1.active.value, players, done + |page|)
            && rows == Boats([e]) + Sorted(RowsAfter(moorings, cell, a1.active.value.mooringCursor)))
  {
    hide Visit, HydrateStep, AoiOk, Sorted, Hits, RowsAfter, Covered;
    CoveredBounds(a.active.value, players, done);
    var (a1, e) := React(a, i);
    assert [e][1..] == [];
    if i.Visiting? {
      VisitActive(a, i.env);
      if !e.Update? {
        if a.active.value.playersComplete { MooringStep(a.active.value, i.env, done); } else { ScanStep(a.active.value, i.env, done); }
      }
    }
  }

  lemma CoveredBounds(h: Hydration, players: set<nat>, done: nat)
    requires Covered(h, players, done)
    ensures done + h.playersRemaining == |players| && (h.playersComplete <==> done == |players|)
  {
  }

  lemma FoldCons(e: Emission, es: seq<Emission>)
    ensures Examined([e] + es) == (if e.PlayerPage? then e.examined else []) + Examined(es)
    ensures Shown([e] + es) == (if e.PlayerPage? then e.players else []) + Shown(es)
    ensures Boats([e] + es) == Boats([e]) + Boats(es)
  {
    assert ([e] + es)[1..] == es && [e][1..] == [];
  }

  lemma {:induction false} ReactionsLength(a: AoiState, inputs: seq<Input>)
    ensures |Reactions(a, inputs).1| == |inputs|
    decreases |inputs|
  {
    hide React;
    if inputs != [] { ReactionsLength(React(a, inputs[0]).0, inputs[1..]); }
  }

  /**
    * Completeness: when the cell is reported done, the resumable scan has examined the players not yet covered
    * exactly once each in ascending order, has shown exactly those who stood in the cell at the visit that
    * examined them, and has walked every remaining mooring row of the cell exactly once in ascending boat id:
    * however players moved between visits, the subscription moved, publication cut in and the database failed.
    */
  lemma {:induction false} HydrationIsComplete(a: AoiState, inputs: seq<Input>, cell: Cell, players: set<nat>,
                                              moorings: map<nat, Mooring>, done: nat)
    requires AoiOk(a) && a.active.Some? && a.active.value.cell == cell && Covered(a.active.value, players, done)
    requires Steady(inputs, players, moorings) && Finishes(a, inputs, cell)
    ensures |Reactions(a, inputs).1| == |inputs| && done <= |players|
    ensures
      var es := Reactions(a, inputs).1;
      && Examined(es) == Sorted(players)[done..]
      && Shown(es) == Seen(inputs, es, cell)
      && Boats(es) == Sorted(RowsAfter(moorings, cell, a.active.value.mooringCursor))
    decreases |inputs|
  {
    hide React, AoiOk, Sorted, Hits, RowsAfter, Covered, Examined, Shown, Boats;
    ReactionsLength(a, inputs);
    CoveredBounds(a.active.value, players, done);
    var (a1, e) := React(a, inputs[0]);
    AccountStep(a, inputs[0], cell, players, moorings, done);
    var es := Reactions(a, inputs).1;
    var rest := Reactions(a1, inputs[1..]).1;
    assert es == [e] + rest;
    FoldCons(e, rest);
    assert es[1..] == rest;
    if e.CellDone? {
      NoAccount(e);
      assert inputs[1..] == [];
      assert Sorted(players)[done..] == [];
    } else {
      ReactOk(a, inputs[0]);
      var page := if e.PlayerPage? then e.examined else [];
      HydrationIsComplete(a1, inputs[1..], cell, players, moorings, done + |page|);
      assert Sorted(players)[done..] == page + Sorted(players)[done + |page|..];
    }
  }

  lemma NoAccount(e: Emission)
    requires e.CellDone?
    ensures Examined([]) == [] && Shown([]) == [] && Boats([]) == [] && Boats([e]) == []
  {
    assert [e][1..] == [];
  }

  /** The visit takes up this cell: publication has caught up, nothing is active, and the cell is next. */
  ghost predicate Starts(a: AoiState, i: Input, cell: Cell) {
    i.Visiting? && a.published == a.sub && a.active.None? && NextHydrationCell(a.pending, a.cursor) == Some(cell)
  }

  /** Taking a cell up is being about to work on it from its start. */
  lemma StartIsPrepared(a: AoiState, env: Env, cell: Cell)
    requires AoiOk(a) && Starts(a, Visiting(env), cell)
    ensures
      var p := Prepare(a, |env.players|);
      && AoiOk(p) && p.active == Some(StartHydration(cell, |env.players|))
      && Visit(p, env) == Visit(a, env)
  {
    hide AoiOk, HydrateStep, NextHydrationCell, FirstCells;
    PrepareOk(a, |env.players|);
    var p := Prepare(a, |env.players|);
    PrepareIdle(p, |env.players|);
    ChunkEmptyIff(a);
    ChunkEmptyIff(p);
  }

  lemma StartCovers(cell: Cell, players: set<nat>)
    ensures Covered(StartHydration(cell, |players|), players, 0)
  {
    hide Sorted;
  }

  /** From the visit that takes a cell up to the one that reports it done: every player and every row, once each, in order. */
  lemma CellIsFullyHydrated(a: AoiState, inputs: seq<Input>, cell: Cell, players: set<nat>, moorings: map<nat, Mooring>)
    requires AoiOk(a) && inputs != [] && Starts(a, inputs[0], cell)
    requires Steady(inputs, players, moorings) && Finishes(a, inputs, cell)
    ensures |Reactions(a, inputs).1| == |inputs|
    ensures
      var es := Reactions(a, inputs).1;
      && Examined(es) == Sorted(players)
      && Shown(es) == Seen(inputs, es, cell)
      && Boats(es) == Sorted(InCell(moorings, cell)) && AllJudged(es, moorings)
  {
    hide AoiOk, Sorted, Visit, Prepare, Covered, Examined, Shown, Boats, Seen, Starts, AllJudged;
    RowsAreJudged(a, inputs, players, moorings);
    StartsVisiting(a, inputs[0], cell);
    var env := inputs[0].env;
    assert inputs[0] == Visiting(env);
    StartIsPrepared(a, env, cell);
    var p := Prepare(a, |env.players|);
    StartCovers(cell, players);
    assert Reactions(p, inputs) == Reactions(a, inputs);
    HydrationIsComplete(p, inputs, cell, players, moorings, 0);
    assert Sorted(players)[0..] == Sorted(players);
    assert RowsAfter(moorings, cell, None) == InCell(moorings, cell);
  }

  lemma StartsVisiting(a: AoiState, i: Input, cell: Cell)
    requires Starts(a, i, cell)
    ensures i.Visiting?
  {
  }

  // ----- ... and every cell ever reported done

  lemma {:induction false} ReactionsConcat(a: AoiState, xs: seq<Input>, ys: seq<Input>)
    ensures
      var mid := Reactions(a, xs).0;
      && Reactions(a, xs + ys).0 == Reactions(mid, ys).0
      && Reactions(a, xs + ys).1 == Reactions(a, xs).1 + Reactions(mid, ys).1
    decreases |xs|
  {
    hide React;
    if xs == [] {
      assert xs + ys == ys;
    } else {
      assert (xs + ys)[1..] == xs[1..] + ys;
      ReactionsConcat(React(a, xs[0]).0, xs[1..], ys);
    }
  }

  /** With a cell active, an input keeps it, or ends or drops it and leaves none active. */
  lemma ReactActive(a: AoiState, i: Input)
    requires AoiOk(a) && a.active.Some?
    ensures
      var (a1, e) := React(a, i);
      && (a1.active.Some? ==> a1.active.value.cell == a.active.value.cell)
      && (e.CellDone? ==> a1.active.None? && e.cell == a.active.value.cell)
  {
    hide Visit, HydrateStep;
    if i.Visiting? {
      VisitActive(a, i.env);
      HydrateStepKeeps(a.active.value, i.env);
      DoneCell(a.active.value, i.env);
    }
  }

  lemma DoneCell(h: Hydration, env: Env)
    ensures HydrateStep(h, env).emission.CellDone? ==> HydrateStep(h, env).emission.cell == h.cell
  {
    hide Scan, After, Least;
  }

  /** With none active, an input takes a cell up if it leaves one active or reports one done. */
  lemma ReactIdle(a: AoiState, i: Input)
    requires AoiOk(a) && a.active.None?
    ensures
      var (a1, e) := React(a, i);
      && (e.CellDone? ==> a1.active.None? && Starts(a, i, e.cell))
      && (a1.active.Some? ==> Starts(a, i, a1.active.value.cell))
  {
    hide HydrateStep, CellSet, ChunkAdded, ChunkRemoved, NextHydrationCell;
    if i.Visiting? {
      ChunkEmptyIff(a);
      var p := Prepare(a, |i.env.players|);
      if p.active.Some? {
        HydrateStepKeeps(p.active.value, i.env);
        DoneCell(p.active.value, i.env);
      }
    }
  }

  predicate EndsDone(es: seq<Emission>) {
    es != [] && es[|es| - 1].CellDone?
  }

  lemma EndsLater(e: Emission, es: seq<Emission>)
    requires EndsDone([e] + es) && es != []
    ensures EndsDone(es) && ([e] + es)[|es|] == es[|es| - 1]
  {
  }

  /** Where the run took up the cell that its last emission reports done. */
  ghost predicate TakenUp(a: AoiState, inputs: seq<Input>, cell: Cell, n: nat) {
    && n < |inputs|
    && Starts(Reactions(a, inputs[..n]).0, inputs[n], cell)
    && Finishes(Reactions(a, inputs[..n]).0, inputs[n..], cell)
  }

  lemma TakenUpLater(a: AoiState, inputs: seq<Input>, cell: Cell, n: nat)
    requires inputs != [] && TakenUp(React(a, inputs[0]).0, inputs[1..], cell, n)
    ensures TakenUp(a, inputs, cell, n + 1)
  {
    hide React, Starts, Finishes;
    assert inputs[..n + 1][1..] == inputs[1..][..n];
    assert inputs[n + 1..] == inputs[1..][n..];
  }

  lemma TakenUpNow(a: AoiState, inputs: seq<Input>, cell: Cell)
    requires inputs != [] && Starts(a, inputs[0], cell) && Finishes(a, inputs, cell)
    ensures TakenUp(a, inputs, cell, 0)
  {
    hide React, Starts, Finishes;
    assert inputs[..0] == [] && inputs[0..] == inputs;
  }

  function LastCell(es: seq<Emission>): Cell
    requires EndsDone(es)
  {
    es[|es| - 1].cell
  }

  /** If the run ends by reporting a cell done, either it is the active one, or some visit of the run took it up. */
  lemma {:induction false} DoneWasTakenUp(a: AoiState, inputs: seq<Input>) returns (n: nat)
    requires AoiOk(a) && EndsDone(Reactions(a, inputs).1)
    ensures
      var cell := LastCell(Reactions(a, inputs).1);
      || (a.active.Some? && a.active.value.cell == cell && Finishes(a, inputs, cell))
      || TakenUp(a, inputs, cell, n)
    decreases |inputs|
  {
    hide React, AoiOk, Starts;
    n := 0;
    var (a1, e) := React(a, inputs[0]);
    var es, rest := Reactions(a, inputs).1, Reactions(a1, inputs[1..]).1;
    ReactionsLength(a1, inputs[1..]);
    ReactOk(a, inputs[0]);
    if a.active.Some? { ReactActive(a, inputs[0]); } else { ReactIdle(a, inputs[0]); }
    if |inputs| == 1 {
      assert es == [e];
      if a.active.None? { TakenUpNow(a, inputs, e.cell); }
    } else {
      EndsLater(e, rest);
      var cell := LastCell(es);
      n := DoneWasTakenUp(a1, inputs[1..]);
      if TakenUp(a1, inputs[1..], cell, n) {
        TakenUpLater(a, inputs, cell, n);
        n := n + 1;
      } else {
        n := 0;
        if a.active.None? { TakenUpNow(a, inputs, cell); }
      }
    }
  }

  /** The emissions of a run from its `n`-th input on. */
  lemma TailEmissions(a: AoiState, inputs: seq<Input>, n: nat)
    requires n <= |inputs|
    ensures n <= |Reactions(a, inputs).1|
    ensures Reactions(a, inputs).1[n..] == Reactions(Reactions(a, inputs[..n]).0, inputs[n..]).1
  {
    hide React;
    ReactionsConcat(a, inputs[..n], inputs[n..]);
    assert inputs[..n] + inputs[n..] == inputs;
    ReactionsLength(a, inputs[..n]);
  }

  lemma {:induction false} RunOk(a: AoiState, inputs: seq<Input>)
    requires AoiOk(a)
    ensures AoiOk(Reactions(a, inputs).0)
    decreases |inputs|
  {
    hide React, AoiOk;
    if inputs != [] {
      ReactOk(a, inputs[0]);
      RunOk(React(a, inputs[0]).0, inputs[1..]);
    }
  }

  /**
    * For every run of a session's delivery, whatever moves and fails in it, that ends by reporting a cell done:
    * some visit of the run took that cell up, and if membership and rows did not change since, then between the
    * two every live player was examined once in order, exactly those in the cell when examined were shown, and
    * every mooring row of the cell was walked once in order, those whose name fits being sent.
    */
  lemma EveryDoneCellIsComplete(a: AoiState, inputs: seq<Input>) returns (n: nat)
    requires AoiOk(a) && a.active.None? && EndsDone(Reactions(a, inputs).1)
    ensures n < |inputs| && n <= |Reactions(a, inputs).1| && |Reactions(a, inputs).1[n..]| == |inputs[n..]|
    ensures
      var es := Reactions(a, inputs).1[n..];
      var cell := LastCell(Reactions(a, inputs).1);
      && Starts(Reactions(a, inputs[..n]).0, inputs[n], cell)
      && forall players, moorings :: Steady(inputs[n..], players, moorings) ==>
           && Examined(es) == Sorted(players)
           && Shown(es) == Seen(inputs[n..], es, cell)
           && Boats(es) == Sorted(InCell(moorings, cell)) && AllJudged(es, moorings)
  {
    hide React, AoiOk, Starts, Finishes, Sorted, Examined, Shown, Boats, Seen, Steady, AllJudged;
    var cell := LastCell(Reactions(a, inputs).1);
    n := DoneWasTakenUp(a, inputs);
    TailEmissions(a, inputs, n);
    var start, tail := Reactions(a, inputs[..n]).0, inputs[n..];
    ReactionsLength(start, tail);
    RunOk(a, inputs[..n]);
    forall players, moorings | Steady(tail, players, moorings)
      ensures
        var es := Reactions(start, tail).1;
        && Examined(es) == Sorted(players) && Shown(es) == Seen(tail, es, cell) && Boats(es) == Sorted(InCell(moorings, cell))
        && AllJudged(es, moorings)
    {
      CellIsFullyHydrated(start, tail, cell, players, moorings);
    }
  }
}
