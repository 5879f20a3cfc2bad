/**
  * What a session's client has been sent, over whole runs of movements and visits: every cell announced to it is owed
  * its contents until it is reported done or withdrawn, so a session with no work left has delivered every cell it shows.
  */
module AoiCompletion {
  import opened Options
  import opened OrderedSets
  import opened World
  import opened Aoi

  // ----- What is owed

  /** The cells whose contents the client is owed: announcing adds them, withdrawing and finishing settle them. */
  function Owes(owed: set<Cell>, e: Emission): set<Cell> {
    match e
    case Update(added, removed) => owed - CellSet(removed) + CellSet(added)
    case CellDone(cell, _) => owed - {cell}
    case _ => owed
  }

  function Owed(owed: set<Cell>, es: seq<Emission>): set<Cell>
    decreases |es|
  {
    if es == [] then owed else Owed(Owes(owed, es[0]), es[1..])
  }

  /** What the session still has queued or under way. */
  function Outstanding(a: AoiState): set<Cell> {
    a.pending + (if a.active.Some? then {a.active.value.cell} else {})
  }

  lemma ChunkOwes(a: AoiState)
    requires AoiOk(a)
    ensures Owes(Outstanding(a), Update(ChunkAdded(a), ChunkRemoved(a))) == Outstanding(NextChunk(a))
  {
    hide ChunkAdded, ChunkRemoved, CellSet;
    ChunkIsBounded(a);
  }

  lemma PrepareOwes(a: AoiState, players: nat)
    requires AoiOk(a) && a.published == a.sub
    ensures Outstanding(Prepare(a, players)) == Outstanding(a)
  {
    hide NextHydrationCell;
  }

  lemma HydrateOwes(p: AoiState, env: Env)
    requires AoiOk(p) && p.active.Some?
    ensures
      var step := HydrateStep(p.active.value, env);
      Owes(Outstanding(p), step.emission) == Outstanding(p.(active := step.active))
  {
    hide HydrateStep;
    HydrateStepKeeps(p.active.value, env);
    DoneCell(p.active.value, env);
  }

  lemma VisitOwes(a: AoiState, env: Env)
    requires AoiOk(a)
    ensures Owes(Outstanding(a), Visit(a, env).emission) == Outstanding(Visit(a, env).state)
  {
    hide ChunkAdded, ChunkRemoved, NextChunk, Prepare, HydrateStep, Outstanding, AoiOk;
    ChunkEmptyIff(a);
    if a.published != a.sub {
      ChunkOwes(a);
    } else {
      PrepareOwes(a, |env.players|);
      PrepareOk(a, |env.players|);
      var p := Prepare(a, |env.players|);
      if p.active.Some? { HydrateOwes(p, env); }
    }
  }

  /**
    * The account, over every run of movements and visits in any environment: the cells the client is owed, reckoned from
    * the emissions alone, are exactly those the session has queued or under way.
    */
  lemma {:induction false} OwedIsOutstanding(a: AoiState, inputs: seq<Input>)
    requires AoiOk(a)
    ensures
      var (r, es) := Reactions(a, inputs);
      Owed(Outstanding(a), es) == Outstanding(r)
    decreases |inputs|
  {
    hide Visit, AoiOk;
    if inputs != [] {
      if inputs[0].Visiting? { VisitOwes(a, inputs[0].env); }
      ReactOk(a, inputs[0]);
      OwedIsOutstanding(React(a, inputs[0]).0, inputs[1..]);
    }
  }

  // ----- Every cell a settled client shows was done since it was announced

  predicate Names(e: Emission, c: Cell) {
    e.Update? && (c in e.added || c in e.removed)
  }

  predicate IsDone(e: Emission, c: Cell) {
    e.CellDone? && e.cell == c
  }

  ghost predicate Unnamed(es: seq<Emission>, c: Cell) {
    forall k :: 0 <= k < |es| ==> !Names(es[k], c)
  }

  /** The cell is announced at `i`, never named again, and reported done at `j`. */
  ghost predicate DoneSince(es: seq<Emission>, c: Cell, i: nat, j: nat) {
    && i < j < |es| && es[i].Update? && c in es[i].added && IsDone(es[j], c)
    && Unnamed(es[i + 1..], c)
  }

  lemma DoneLater(es: seq<Emission>, c: Cell, i: nat, j: nat)
    requires es != [] && DoneSince(es[1..], c, i, j)
    ensures DoneSince(es, c, i + 1, j + 1)
  {
    hide Unnamed;
    assert es[1..][i + 1..] == es[i + 2..];
  }

  lemma {:induction false} ShownWasDone(seen: set<Cell>, owed: set<Cell>, es: seq<Emission>, c: Cell) returns (i: nat, j: nat)
    requires c in Mirrored(seen, es) && c !in Owed(owed, es)
    ensures
      || DoneSince(es, c, i, j)
      || (c in seen && Unnamed(es, c) && (c !in owed || (j < |es| && IsDone(es[j], c))))
    decreases |es|
  {
    hide Unnamed;
    i, j := 0, 0;
    NothingNames(c);
    if es != [] {
      var e, rest := es[0], es[1..];
      var i1, j1 := ShownWasDone(Mirror(seen, e), Owes(owed, e), rest, c);
      if DoneSince(rest, c, i1, j1) {
        DoneLater(es, c, i1, j1);
        i, j := i1 + 1, j1 + 1;
      } else if Names(e, c) {
        j := j1 + 1;
        assert es[0 + 1..] == rest;
        assert DoneSince(es, c, 0, j);
      } else {
        UnnamedCons(es, c);
        j := if c !in Owes(owed, e) then 0 else j1 + 1;
      }
    }
  }

  lemma NothingNames(c: Cell)
    ensures Unnamed([], c)
  {
  }

  lemma UnnamedCons(es: seq<Emission>, c: Cell)
    requires es != [] && !Names(es[0], c) && Unnamed(es[1..], c)
    ensures Unnamed(es, c)
  {
    forall k | 0 <= k < |es| ensures !Names(es[k], c) {
      if k > 0 { assert es[k] == es[1..][k - 1]; }
    }
  }

  // ----- The closing empty page

  /** The emission carries something of the cell to the client. */
  predicate Carries(e: Emission) {
    (e.PlayerPage? && e.players != []) || e.MooringPage?
  }

  ghost predicate Silent(es: seq<Emission>) {
    forall k :: 0 <= k < |es| ==> !Carries(es[k])
  }

  lemma SilentCons(e: Emission, es: seq<Emission>)
    ensures Silent([e] + es) <==> !Carries(e) && Silent(es)
  {
    assert ([e] + es)[0] == e;
    assert forall k :: 0 <= k < |es| ==> ([e] + es)[k + 1] == es[k];
    assert forall k :: 0 < k < |[e] + es| ==> ([e] + es)[k] == es[k - 1];
  }

  lemma CarriesIsNoted(a: AoiState, i: Input)
    requires AoiOk(a) && a.active.Some?
    ensures
      var (a1, e) := React(a, i);
      && (a1.active.Some? ==> (a1.active.value.sentAny <==> a.active.value.sentAny || Carries(e)))
      && (e.CellDone? ==> (e.emptyPage <==> !a.active.value.sentAny))
  {
    hide AoiOk, Visit, Scan, After, Least, ChunkAdded, ChunkRemoved;
    if i.Visiting? { VisitActive(a, i.env); }
  }

  /** A cell is closed with an empty page if and only if nothing of it was sent since the given point of its hydration. */
  lemma {:induction false} EmptyPageIff(a: AoiState, inputs: seq<Input>, c: Cell)
    requires AoiOk(a) && a.active.Some? && a.active.value.cell == c && Finishes(a, inputs, c)
    ensures |Reactions(a, inputs).1| == |inputs|
    ensures
      var es := Reactions(a, inputs).1;
      && EndsDone(es)
      && (es[|es| - 1].emptyPage <==> !a.active.value.sentAny && Silent(es))
    decreases |inputs|
  {
    hide React, AoiOk, Silent, Carries;
    ReactionsLength(a, inputs);
    CarriesIsNoted(a, inputs[0]);
    var (a1, e) := React(a, inputs[0]);
    var es, rest := Reactions(a, inputs).1, Reactions(a1, inputs[1..]).1;
    assert es == [e] + rest;
    SilentCons(e, rest);
    if e.CellDone? {
      assert inputs[1..] == [] && rest == [];
      NothingCarries(e);
    } else {
      ReactOk(a, inputs[0]);
      EmptyPageIff(a1, inputs[1..], c);
      assert es[|es| - 1] == rest[|rest| - 1];
    }
  }

  lemma NothingCarries(e: Emission)
    requires e.CellDone?
    ensures Silent([]) && !Carries(e)
  {
  }

  // ----- ... and its contents were sent in full in between

  lemma {:induction false} FinishesActive(a: AoiState, inputs: seq<Input>, c: Cell, k: nat)
    requires Finishes(a, inputs, c) && 0 < k < |inputs|
    ensures
      var r := Reactions(a, inputs[..k]).0;
      r.active.Some? && r.active.value.cell == c
    decreases k
  {
    hide React;
    assert inputs[..k][0] == inputs[0] && inputs[..k][1..] == inputs[1..][..k - 1];
    if k == 1 {
      assert inputs[1..][..0] == [];
    } else {
      FinishesActive(React(a, inputs[0]).0, inputs[1..], c, k - 1);
    }
  }

  lemma EmissionAt(a: AoiState, inputs: seq<Input>, k: nat)
    requires k < |inputs|
    ensures |Reactions(a, inputs).1| == |inputs| && Reactions(a, inputs).1[k] == React(Reactions(a, inputs[..k]).0, inputs[k]).1
  {
    hide React;
    TailEmissions(a, inputs, k);
    ReactionsLength(a, inputs);
    var es := Reactions(a, inputs).1;
    assert es[k] == es[k..][0];
  }

  /** An update announces only cells that were not published, and none while publication has caught up. */
  lemma Announced(a: AoiState, i: Input, c: Cell)
    requires React(a, i).1.Update? && c in React(a, i).1.added
    ensures c !in a.published && a.published != a.sub
  {
    hide HydrateStep, NextChunk, Prepare, ChunkAdded, ChunkRemoved;
    ChunkIsBounded(a);
    ChunkEmptyIff(a);
    assert c in CellSet(ChunkAdded(a)) by { UpdateIsChunk(a, i.env); }
  }

  lemma UpdateIsChunk(a: AoiState, env: Env)
    requires Visit(a, env).emission.Update?
    ensures Visit(a, env).emission == Update(ChunkAdded(a), ChunkRemoved(a))
    ensures a.published != a.sub
  {
    hide HydrateStep, NextChunk, Prepare, ChunkAdded, ChunkRemoved;
    ChunkEmptyIff(a);
    var p := Prepare(a, |env.players|);
    if p.active.Some? { HydrateStepKeeps(p.active.value, env); }
  }

  /** The take-up of a cell comes after the announcement that its completion answers. */
  lemma TakenUpAfter(a: AoiState, inputs: seq<Input>, c: Cell, i: nat, n: nat, j: nat)
    requires AoiOk(a) && j < |inputs| && i <= j && TakenUp(a, inputs[..j + 1], c, n)
    requires |Reactions(a, inputs).1| == |inputs| && Reactions(a, inputs).1[i].Update? && c in Reactions(a, inputs).1[i].added
    ensures i < n
  {
    hide React, AoiOk, Finishes, Reactions, Starts;
    EmissionAt(a, inputs, i);
    var at := Reactions(a, inputs[..i]).0;
    Announced(at, inputs[i], c);
    var prefix := inputs[..j + 1];
    assert prefix[..n] == inputs[..n] && prefix[n] == inputs[n];
    StartsCaughtUp(Reactions(a, inputs[..n]).0, inputs[n], c);
    if n < i {
      ActiveBetween(a, prefix, c, i, n);
      assert prefix[..i] == inputs[..i];
      RunOk(a, inputs[..i]);
      ActiveIsPublished(at);
    }
  }

  lemma StartsCaughtUp(a: AoiState, i: Input, c: Cell)
    requires Starts(a, i, c)
    ensures a.published == a.sub
  {
  }

  /** From its take-up to its completion a cell is under way. */
  lemma ActiveBetween(a: AoiState, inputs: seq<Input>, c: Cell, i: nat, n: nat)
    requires n < i < |inputs| && TakenUp(a, inputs, c, n)
    ensures
      var r := Reactions(a, inputs[..i]).0;
      r.active.Some? && r.active.value.cell == c
  {
    hide React, Finishes, Starts;
    FinishesActive(Reactions(a, inputs[..n]).0, inputs[n..], c, i - n);
    ReactionsConcat(a, inputs[..n], inputs[n..][..i - n]);
    assert inputs[..n] + inputs[n..][..i - n] == inputs[..i];
  }

  lemma ActiveIsPublished(a: AoiState)
    requires AoiOk(a) && a.active.Some?
    ensures a.active.value.cell in a.published
  {
  }

  /** The cell was covered in full in these visits, if nobody came or went and no row changed. */
  ghost predicate CoveredIn(inputs: seq<Input>, es: seq<Emission>, c: Cell)
    requires |inputs| == |es|
  {
    forall players, moorings :: Steady(inputs, players, moorings) ==>
      && Examined(es) == Sorted(players) && Shown(es) == Seen(inputs, es, c)
      && Boats(es) == Sorted(InCell(moorings, c)) && AllJudged(es, moorings)
  }

  /** The last emission closes the cell, with an empty page exactly if nothing else was sent of it. */
  ghost predicate ClosedIn(es: seq<Emission>) {
    EndsDone(es) && (es[|es| - 1].emptyPage <==> Silent(es))
  }

  lemma TakenUpIsClosed(start: AoiState, tail: seq<Input>, c: Cell)
    requires AoiOk(start) && tail != [] && Starts(start, tail[0], c) && Finishes(start, tail, c)
    ensures ClosedIn(Reactions(start, tail).1)
  {
    hide AoiOk, Visit, Prepare, Silent, Starts;
    StartsVisiting(start, tail[0], c);
    var env := tail[0].env;
    assert tail[0] == Visiting(env);
    StartIsPrepared(start, env, c);
    var p := Prepare(start, |env.players|);
    assert Reactions(p, tail) == Reactions(start, tail);
    EmptyPageIff(p, tail, c);
  }

  lemma TakenUpIsCovered(start: AoiState, tail: seq<Input>, c: Cell)
    requires AoiOk(start) && tail != [] && Starts(start, tail[0], c) && Finishes(start, tail, c)
    ensures |Reactions(start, tail).1| == |tail| && CoveredIn(tail, Reactions(start, tail).1, c)
  {
    hide React, AoiOk, Starts, Sorted, Examined, Shown, Boats, Seen, Steady, AllJudged, Finishes;
    ReactionsLength(start, tail);
    forall players, moorings | Steady(tail, players, moorings)
      ensures
        var es := Reactions(start, tail).1;
        && Examined(es) == Sorted(players) && Shown(es) == Seen(tail, es, c)
        && Boats(es) == Sorted(InCell(moorings, c)) && AllJudged(es, moorings)
    {
      CellIsFullyHydrated(start, tail, c, players, moorings);
    }
  }

  lemma PrefixReactions(a: AoiState, inputs: seq<Input>, k: nat)
    requires k <= |inputs|
    ensures |Reactions(a, inputs).1| == |inputs| && Reactions(a, inputs[..k]).1 == Reactions(a, inputs).1[..k]
  {
    hide React;
    ReactionsLength(a, inputs);
    ReactionsLength(a, inputs[..k]);
    ReactionsConcat(a, inputs[..k], inputs[k..]);
    assert inputs[..k] + inputs[k..] == inputs;
  }

  lemma DoneIsCovered(a: AoiState, inputs: seq<Input>, c: Cell, i: nat, j: nat) returns (n: nat)
    requires AoiOk(a) && a.active.None? && |Reactions(a, inputs).1| == |inputs| && DoneSince(Reactions(a, inputs).1, c, i, j)
    ensures
      var es := Reactions(a, inputs).1;
      && i < n <= j && Starts(Reactions(a, inputs[..n]).0, inputs[n], c)
      && CoveredIn(inputs[n..j + 1], es[n..j + 1], c) && ClosedIn(es[n..j + 1])
  {
    hide React, AoiOk, Starts, CoveredIn, ClosedIn, Finishes, Unnamed;
    var prefix, es := inputs[..j + 1], Reactions(a, inputs).1;
    PrefixReactions(a, inputs, j + 1);
    n := DoneWasTakenUp(a, prefix);
    TakenUpAfter(a, inputs, c, i, n, j);
    assert prefix[..n] == inputs[..n] && prefix[n..] == inputs[n..j + 1];
    RunOk(a, inputs[..n]);
    TailEmissions(a, prefix, n);
    assert es[..j + 1][n..] == es[n..j + 1];
    TakenUpIsCovered(Reactions(a, inputs[..n]).0, inputs[n..j + 1], c);
    TakenUpIsClosed(Reactions(a, inputs[..n]).0, inputs[n..j + 1], c);
  }

  /**
    * Delivery is complete, over every run from a session's first moment to any moment at which it has no cell queued or
    * under way: every cell its client shows was announced, not named since, then taken up, covered in full if membership
    * and rows were steady meanwhile, and reported done, with an empty page exactly if nothing else of it was sent.
    */
  lemma EveryShownCellWasDelivered(a: AoiState, inputs: seq<Input>, c: Cell) returns (i: nat, n: nat, j: nat)
    requires AoiOk(a) && a.published == {}
    requires Outstanding(Reactions(a, inputs).0) == {} && c in Reactions(a, inputs).0.published
    ensures |Reactions(a, inputs).1| == |inputs|
    ensures
      var es := Reactions(a, inputs).1;
      && DoneSince(es, c, i, j) && i < n <= j
      && Starts(Reactions(a, inputs[..n]).0, inputs[n], c)
      && CoveredIn(inputs[n..j + 1], es[n..j + 1], c) && ClosedIn(es[n..j + 1])
  {
    hide React, Starts, CoveredIn, ClosedIn, Unnamed, Mirrored, Owed;
    var es := Reactions(a, inputs).1;
    ReactionsLength(a, inputs);
    OwedIsOutstanding(a, inputs);
    MirrorIsPublished(a, inputs);
    assert Outstanding(a) == {};
    i, j := ShownWasDone({}, {}, es, c);
    n := DoneIsCovered(a, inputs, c, i, j);
  }


  // ----- No cell twice while another waits

  ghost predicate StaysPending(a: AoiState, inputs: seq<Input>, c: Cell)
    decreases |inputs|
  {
    c in a.pending && (inputs == [] || StaysPending(React(a, inputs[0]).0, inputs[1..], c))
  }

  lemma SoonerFrom(cursor: Option<Cell>, x: Cell, d: Cell, c: Cell)
    requires Sooner(cursor, x, c) && Sooner(Some(x), d, c)
    ensures Sooner(cursor, d, c)
  {
  }

  lemma NotBeforeItself(d: Cell, c: Cell)
    ensures !Sooner(Some(d), d, c)
  {
  }

  /** An input that takes a cell up moves the cursor onto it, and no other input moves the cursor. */
  lemma CursorFollows(a: AoiState, i: Input)
    requires AoiOk(a)
    ensures
      var a1 := React(a, i).0;
      || (a1.cursor == a.cursor && forall x :: !Starts(a, i, x))
      || (exists x :: x in a.pending && Starts(a, i, x) && a1.cursor == Some(x) && a1.pending == a.pending - {x})
  {
    hide HydrateStep, CellSet, ChunkAdded, ChunkRemoved, NextHydrationCell;
    if i.Visiting? {
      ChunkEmptyIff(a);
      var next := NextHydrationCell(a.pending, a.cursor);
      if a.published == a.sub && a.active.None? && next.Some? {
        assert Starts(a, i, next.value);
      } else if a.published == a.sub && a.active.Some? {
        PrepareIdle(a, |i.env.players|);
      }
    }
  }

  lemma TurnStep(a: AoiState, i: Input, c: Cell, d: Cell)
    requires AoiOk(a) && c in a.pending && c in React(a, i).0.pending && d != c && !Sooner(a.cursor, d, c)
    ensures !Starts(a, i, d) && !Sooner(React(a, i).0.cursor, d, c)
  {
    hide React, AoiOk, Sooner, NextHydrationCell;
    CursorFollows(a, i);
    if React(a, i).0.cursor != a.cursor || exists x :: Starts(a, i, x) {
      var x :| x in a.pending && Starts(a, i, x) && React(a, i).0.cursor == Some(x) && React(a, i).0.pending == a.pending - {x};
      NextCellIff(a.pending, a.cursor, x);
      assert Sooner(a.cursor, x, c);
      if Sooner(Some(x), d, c) { SoonerFrom(a.cursor, x, d, c); }
    }
  }

  lemma {:induction false} WaitsItsTurn(a: AoiState, inputs: seq<Input>, c: Cell, d: Cell, k: nat)
    requires AoiOk(a) && StaysPending(a, inputs, c) && d != c && !Sooner(a.cursor, d, c) && k < |inputs|
    ensures !Starts(Reactions(a, inputs[..k]).0, inputs[k], d)
    decreases k
  {
    hide React, AoiOk, Sooner, Starts;
    TurnStep(a, inputs[0], c, d);
    if k == 0 {
      assert inputs[..0] == [];
    } else {
      ReactOk(a, inputs[0]);
      WaitsItsTurn(React(a, inputs[0]).0, inputs[1..], c, d, k - 1);
      assert inputs[..k][0] == inputs[0] && inputs[..k][1..] == inputs[1..][..k - 1];
    }
  }

  /**
    * Hydration goes round: once a cell has been taken up, it is not taken up again, whatever is announced, withdrawn or
    * moved meanwhile, as long as another cell stays pending.
    */
  lemma NoCellTwiceBeforeAnother(a: AoiState, inputs: seq<Input>, c: Cell, d: Cell, k: nat)
    requires AoiOk(a) && inputs != [] && Starts(a, inputs[0], d) && d != c
    requires StaysPending(React(a, inputs[0]).0, inputs[1..], c) && 0 < k < |inputs|
    ensures !Starts(Reactions(a, inputs[..k]).0, inputs[k], d)
  {
    hide React, AoiOk, Sooner;
    CursorFollows(a, inputs[0]);
    ReactOk(a, inputs[0]);
    NotBeforeItself(d, c);
    WaitsItsTurn(React(a, inputs[0]).0, inputs[1..], c, d, k - 1);
    assert inputs[..k][0] == inputs[0] && inputs[..k][1..] == inputs[1..][..k - 1];
  }
}
