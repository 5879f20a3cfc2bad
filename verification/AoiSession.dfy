/** The imperative delivery machine of one session, proved against the functions of `Aoi`. */
module AoiSession {
  import opened Options
  import opened OrderedSets
  import opened World
  import opened Aoi

  class Delivery {
    var sub: set<Cell>
    var published: set<Cell>
    var pending: set<Cell>
    var cursor: Option<Cell>
    var active: Option<Hydration>

    ghost function View(): AoiState
      reads this
    {
      AoiState(sub, published, pending, cursor, active)
    }

    constructor (cells: set<Cell>)
      ensures View() == AoiState(cells, {}, {}, None, None) && AoiOk(View())
    {
      sub, published, pending := cells, {}, {};
      cursor, active := None, None;
    }

    static lemma OneMoreCell(cells: seq<Cell>, i: nat)
      requires i < |cells|
      ensures CellSet(cells[..i + 1]) == CellSet(cells[..i]) + {cells[i]}
    {
      assert cells[..i + 1] == cells[..i] + [cells[i]];
    }

    method Retract(removed: seq<Cell>)
      modifies this
      ensures View() == Publish(old(View()), {}, CellSet(removed))
    {
      for i := 0 to |removed|
        invariant View() == Publish(old(View()), {}, CellSet(removed[..i]))
      {
        OneMoreCell(removed, i);
        published := published - {removed[i]};
        pending := pending - {removed[i]};
        if active.Some? && active.value.cell == removed[i] { active := None; }
      }
      assert removed[..|removed|] == removed;
    }

    method Announce(added: seq<Cell>)
      modifies this
      ensures View() == Publish(old(View()), CellSet(added), {})
    {
      for i := 0 to |added|
        invariant View() == Publish(old(View()), CellSet(added[..i]), {})
      {
        OneMoreCell(added, i);
        published := published + {added[i]};
        pending := pending + {added[i]};
      }
      assert added[..|added|] == added;
    }

    static lemma PublishTwice(a: AoiState, added: set<Cell>, removed: set<Cell>)
      ensures Publish(Publish(a, {}, removed), added, {}) == Publish(a, added, removed)
    {
    }

    /** Publish at most 32 changed cells, removals first. */
    method NextAoiChunk() returns (added: seq<Cell>, removed: seq<Cell>)
      modifies this
      ensures added == ChunkAdded(old(View())) && removed == ChunkRemoved(old(View()))
      ensures View() == NextChunk(old(View()))
    {
      hide ChunkAdded, ChunkRemoved, Publish, CellSet;
      removed := ChunkRemoved(AoiState(sub, published, pending, cursor, active));
      added := ChunkAdded(AoiState(sub, published, pending, cursor, active));
      PublishTwice(View(), CellSet(added), CellSet(removed));
      Retract(removed);
      Announce(added);
    }

    method PrepareCellHydration(players: nat)
      modifies this
      ensures View() == Prepare(old(View()), players)
    {
      if active.Some? && (active.value.cell !in sub || active.value.cell !in published) {
        active := None;
      }
      if active.None? {
        var next := NextHydrationCell(pending, cursor);
        if next.None? { return; }
        pending := pending - {next.value};
        cursor := next;
        active := Some(StartHydration(next.value, players));
      }
    }

    /** Walk the candidates until the packet is full. */
    static method ScanCandidates(env: Env, cell: Cell, candidates: seq<nat>) returns (examined: nat, players: seq<nat>)
      ensures examined <= |candidates|
      ensures candidates[..examined] == Scan(env, cell, candidates, 0).0
      ensures players == Scan(env, cell, candidates, 0).1
    {
      hide Scan;
      examined, players := 0, [];
      ghost var all := Scan(env, cell, candidates, 0);
      ghost var rest := all;
      assert candidates[0..] == candidates;
      while examined < |candidates|
        invariant examined <= |candidates| && |players| < ENTITIES_PER_PACKET
        invariant rest == Scan(env, cell, candidates[examined..], |players|)
        invariant |all.0| == examined + |rest.0| && all.1 == players + rest.1
        decreases |candidates| - examined
      {
        var p := candidates[examined];
        ScanUnfold(env, cell, candidates, examined, |players|);
        examined := examined + 1;
        if Hit(env, cell, p) {
          players := players + [p];
          if |players| == ENTITIES_PER_PACKET { return; }
        }
        rest := Scan(env, cell, candidates[examined..], |players|);
      }
      assert candidates[examined..] == [];
      assert candidates[..examined] == candidates;
      NoScan(env, cell, |players|);
    }

    static lemma NoScan(env: Env, cell: Cell, hits: nat)
      ensures Scan(env, cell, [], hits) == ([], [])
    {
    }

    static lemma ScanUnfold(env: Env, cell: Cell, candidates: seq<nat>, k: nat, hits: nat)
      requires k < |candidates|
      ensures
        var p := candidates[k];
        var found := if Hit(env, cell, p) then [p] else [];
        var rest := Scan(env, cell, candidates[k + 1..], hits + |found|);
        Scan(env, cell, candidates[k..], hits) ==
        if found != [] && hits + 1 == ENTITIES_PER_PACKET then ([p], found) else ([p] + rest.0, found + rest.1)
    {
      assert candidates[k..][1..] == candidates[k + 1..];
    }

    /** One bounded unit of delivery; an error leaves the machine to be retried. */
    method ProcessOne(env: Env) returns (emission: Emission, more: bool)
      requires AoiOk(View())
      modifies this
      ensures Visited(View(), emission, more) == Visit(old(View()), env)
      ensures AoiOk(View()) && (more <==> HasWork(View()))
    {
      hide ChunkAdded, ChunkRemoved, NextChunk, Prepare, Scan, After, Least;
      VisitOk(View(), env);
      ghost var start := View();
      ChunkEmptyIff(start);
      if published != sub {
        var added, removed := NextAoiChunk();
        return Update(added, removed), published != sub || active.Some? || pending != {};
      }
      PrepareCellHydration(|env.players|);
      if active.None? {
        return Nothing, published != sub || active.Some? || pending != {};
      }
      var h := active.value;
      if !h.playersComplete {
        var limit := if h.playersRemaining < ENTITY_SCAN_PER_WORK then h.playersRemaining else ENTITY_SCAN_PER_WORK;
        var candidates := After(env.players, h.playerCursor, limit);
        var examined, players := ScanCandidates(env, h.cell, candidates);
        var remaining := if examined < h.playersRemaining then h.playersRemaining - examined else 0;
        var last := if examined > 0 then Some(candidates[examined - 1]) else h.playerCursor;
        var complete := remaining == 0 || examined == 0;
        active := Some(h.(playerCursor := last, playersRemaining := remaining, playersComplete := complete,
                          sentAny := h.sentAny || players != []));
        return PlayerPage(h.cell, candidates[..examined], players),
               !complete || published != sub || active.Some? || pending != {};
      }
      if !env.dbOk { return Failed, true; }
      var rows := RowsAfter(env.moorings, h.cell, h.mooringCursor);
      if rows == {} {
        active := None;
        return CellDone(h.cell, !h.sentAny), published != sub || active.Some? || pending != {};
      }
      var boat := Least(rows);
      var fits := env.moorings[boat].nameBytes <= MAX_MOORING_NAME_BYTES;
      active := Some(h.(mooringCursor := Some(boat), sentAny := h.sentAny || fits));
      return if fits then MooringPage(h.cell, boat) else CorruptMooring(h.cell, boat), true;
    }
  }
}
