/**
  * The last-seen write pipeline: players are marked dirty, moved to the flush set at each cadence, written
  * a few per tick, and retried after a failure at the next cadence or at shutdown.
  */
module DirtyFlush {
  import opened OrderedSets

  const UPDATES_PER_TICK := 8
  const SHUTDOWN_ATTEMPTS := 3

  datatype FlushState = FlushState(dirty: set<nat>, flush: set<nat>, paused: bool)

  /** The players actually written, in order, and whether a write failed. */
  datatype Written = Written(state: FlushState, saved: seq<nat>, failed: bool)

  function Mark(f: FlushState, player: nat): FlushState {
    f.(dirty := f.dirty + {player})
  }

  function Begin(f: FlushState): FlushState {
    FlushState({}, f.flush + f.dirty, false)
  }

  /** Write the given players in turn until one of those the database refuses is reached. */
  function Write(f: FlushState, players: seq<nat>, refused: set<nat>): Written
    decreases |players|
  {
    if players == [] then Written(f, [], false)
    else if players[0] in refused then Written(f.(paused := true), [], true)
    else
      var w := Write(f.(flush := f.flush - {players[0]}), players[1..], refused);
      w.(saved := [players[0]] + w.saved)
  }

  function Batch(f: FlushState): seq<nat> {
    Sorted(f.flush)[..if |f.flush| < UPDATES_PER_TICK then |f.flush| else UPDATES_PER_TICK]
  }

  function Tick(f: FlushState, refused: set<nat>): Written {
    if f.paused then Written(f, [], false) else Write(f, Batch(f), refused)
  }

  function Leave(f: FlushState, player: nat, refused: bool): Written {
    if refused then Written(f.(flush := f.flush + {player}, paused := true), [], true)
    else Written(f.(flush := f.flush - {player}, dirty := f.dirty - {player}), [player], false)
  }

  /** One pass of the shutdown flush over everything still pending. */
  function Attempt(f: FlushState, pending: set<nat>, players: seq<nat>, refused: set<nat>): (Written, set<nat>)
    decreases |players|
  {
    if players == [] then (Written(f, [], false), pending)
    else if players[0] in refused then
      var (w, left) := Attempt(f, pending, players[1..], refused);
      (w.(failed := true), left)
    else
      var f1 := f.(flush := f.flush - {players[0]}, dirty := f.dirty - {players[0]});
      var (w, left) := Attempt(f1, pending - {players[0]}, players[1..], refused);
      (w.(saved := [players[0]] + w.saved), left)
  }

  function Attempts(f: FlushState, pending: set<nat>, refused: seq<set<nat>>): (Written, set<nat>)
    decreases |refused|
  {
    if refused == [] then (Written(f, [], true), pending)
    else if pending == {} then (Written(f, [], false), pending)
    else
      var (w, left) := Attempt(f, pending, Sorted(pending), refused[0]);
      var (rest, end) := Attempts(w.state, left, refused[1..]);
      (rest.(saved := w.saved + rest.saved), end)
  }

  /**
    * The shutdown flush of every session and every pending player; `refused` gives each attempt's failures.
    * Like the source, it looks for an empty pending set only before an attempt, never after the last.
    */
  function FlushAll(f: FlushState, online: set<nat>, refused: seq<set<nat>>): (Written, set<nat>)
    requires |refused| == SHUTDOWN_ATTEMPTS
  {
    var pending := online + f.dirty + f.flush;
    Attempts(f.(flush := f.flush + pending), pending, refused)
  }

  // ----- The pipeline object

  class Pipeline {
    var dirty: set<nat>
    var flush: set<nat>
    var paused: bool

    ghost function View(): FlushState
      reads this
    {
      FlushState(dirty, flush, paused)
    }

    constructor ()
      ensures View() == FlushState({}, {}, false)
    {
      dirty, flush, paused := {}, {}, false;
    }

    method MarkDirty(player: nat)
      modifies this
      ensures View() == Mark(old(View()), player)
    {
      dirty := dirty + {player};
    }

    method BeginDirtyFlush()
      modifies this
      ensures View() == Begin(old(View()))
    {
      paused := false;
      flush := flush + dirty;
      dirty := {};
    }

    method ProcessDirtyFlush(refused: set<nat>) returns (saved: seq<nat>, failed: bool)
      modifies this
      ensures Written(View(), saved, failed) == Tick(old(View()), refused)
    {
      hide Batch;
      saved, failed := [], false;
      if paused { return; }
      var batch := Batch(FlushState(dirty, flush, paused));
      ghost var all := Write(View(), batch, refused);
      assert batch[0..] == batch;
      for i := 0 to |batch|
        invariant var w := Write(View(), batch[i..], refused); all == w.(saved := saved + w.saved)
      {
        assert batch[i..][0] == batch[i] && batch[i..][1..] == batch[i + 1..];
        if batch[i] in refused {
          paused := true;
          return saved, true;
        }
        flush := flush - {batch[i]};
        saved := saved + [batch[i]];
      }
    }

    method OnDisconnect(player: nat, refused: bool) returns (saved: seq<nat>, failed: bool)
      modifies this
      ensures Written(View(), saved, failed) == Leave(old(View()), player, refused)
    {
      flush := flush + {player};
      if refused {
        paused := true;
        return [], true;
      }
      flush := flush - {player};
      dirty := dirty - {player};
      assert old(flush) + {player} - {player} == old(flush) - {player};
      return [player], false;
    }

    method FlushEverything(online: set<nat>, refused: seq<set<nat>>) returns (saved: seq<nat>, failed: bool, pending: set<nat>)
      requires |refused| == SHUTDOWN_ATTEMPTS
      modifies this
      ensures (Written(View(), saved, failed), pending) == FlushAll(old(View()), online, refused)
    {
      hide Attempts, Attempt, Sorted;
      pending := online + dirty + flush;
      flush := flush + pending;
      saved := [];
      ghost var all := Attempts(View(), pending, refused);
      assert refused[0..] == refused;
      for attempt := 0 to SHUTDOWN_ATTEMPTS
        invariant
          var rest := Attempts(View(), pending, refused[attempt..]);
          && all.0.state == rest.0.state && all.0.saved == saved + rest.0.saved
          && all.0.failed == rest.0.failed && all.1 == rest.1
      {
        AttemptsFrom(View(), pending, refused, attempt);
        if pending == {} {
          assert saved + [] == saved;
          return saved, false, pending;
        }
        var done;
        done, pending := FlushOnce(pending, refused[attempt]);
        saved := saved + done;
      }
      AttemptsFrom(View(), pending, refused, SHUTDOWN_ATTEMPTS);
      assert saved + [] == saved;
      failed := true;
    }

    method FlushOnce(everyone: set<nat>, refused: set<nat>) returns (saved: seq<nat>, pending: set<nat>)
      modifies this
      ensures
        var (w, left) := Attempt(old(View()), everyone, Sorted(everyone), refused);
        View() == w.state && saved == w.saved && pending == left
    {
      hide Sorted, Attempt;
      var players := Sorted(everyone);
      saved, pending := [], everyone;
      ghost var all := Attempt(View(), everyone, players, refused);
      assert players[0..] == players;
      for i := 0 to |players|
        invariant
          var rest := Attempt(View(), pending, players[i..], refused);
          all.0.state == rest.0.state && all.0.saved == saved + rest.0.saved && all.1 == rest.1
      {
        AttemptFrom(View(), pending, players, refused, i);
        if players[i] !in refused {
          pending := pending - {players[i]};
          flush := flush - {players[i]};
          dirty := dirty - {players[i]};
          saved := saved + [players[i]];
        }
      }
      AttemptFrom(View(), pending, players, refused, |players|);
    }
  }

  lemma AttemptFrom(f: FlushState, pending: set<nat>, players: seq<nat>, refused: set<nat>, i: nat)
    requires i <= |players|
    ensures
      var all := Attempt(f, pending, players[i..], refused);
      if i == |players| then all == (Written(f, [], false), pending)
      else
        var p := players[i];
        if p in refused then
          var rest := Attempt(f, pending, players[i + 1..], refused);
          all.0.state == rest.0.state && all.0.saved == rest.0.saved && all.1 == rest.1
        else
          var rest := Attempt(f.(flush := f.flush - {p}, dirty := f.dirty - {p}), pending - {p}, players[i + 1..], refused);
          all.0.state == rest.0.state && all.0.saved == [p] + rest.0.saved && all.1 == rest.1
  {
    if i < |players| { assert players[i..][1..] == players[i + 1..]; }
  }

  lemma AttemptsFrom(f: FlushState, pending: set<nat>, refused: seq<set<nat>>, i: nat)
    requires i <= |refused|
    ensures
      var all := Attempts(f, pending, refused[i..]);
      if i == |refused| then all == (Written(f, [], true), pending)
      else if pending == {} then all == (Written(f, [], false), pending)
      else
        var (w, left) := Attempt(f, pending, Sorted(pending), refused[i]);
        var rest := Attempts(w.state, left, refused[i + 1..]);
        all == (rest.0.(saved := w.saved + rest.0.saved), rest.1)
  {
    hide Attempt, Sorted;
    if i < |refused| { assert refused[i..][1..] == refused[i + 1..]; }
  }

  // ----- Conservation over whole runs

  datatype Op =
    | MarkOp(player: nat)
    | BeginOp
    | TickOp(refused: set<nat>)
    | LeaveOp(player: nat, refusedWrite: bool)
    | ShutdownOp(online: set<nat>, attempts: seq<set<nat>>)

  predicate OpOk(op: Op) {
    op.ShutdownOp? ==> |op.attempts| == SHUTDOWN_ATTEMPTS
  }

  function Do(f: FlushState, op: Op): Written
    requires OpOk(op)
  {
    match op
    case MarkOp(p) => Written(Mark(f, p), [], false)
    case BeginOp => Written(Begin(f), [], false)
    case TickOp(refused) => Tick(f, refused)
    case LeaveOp(p, refused) => Leave(f, p, refused)
    case ShutdownOp(online, attempts) => FlushAll(f, online, attempts).0
  }

  function Ids(s: seq<nat>): set<nat> {
    set x | x in s
  }

  /** Players marked since their last successful write. */
  function Unsaved(unsaved: set<nat>, op: Op, saved: seq<nat>): set<nat> {
    (if op.MarkOp? then unsaved + {op.player} else unsaved) - Ids(saved)
  }

  ghost predicate Conserved(f: FlushState, unsaved: set<nat>) {
    unsaved <= f.dirty + f.flush
  }

  lemma {:induction false} WriteConserves(f: FlushState, players: seq<nat>, refused: set<nat>, unsaved: set<nat>)
    requires Conserved(f, unsaved)
    ensures Conserved(Write(f, players, refused).state, unsaved - Ids(Write(f, players, refused).saved))
    ensures Write(f, players, refused).saved <= players
    ensures !Write(f, players, refused).failed ==> Write(f, players, refused).saved == players
    decreases |players|
  {
    if players != [] && players[0] !in refused {
      var p := players[0];
      WriteConserves(f.(flush := f.flush - {p}), players[1..], refused, unsaved - {p});
      var w := Write(f.(flush := f.flush - {p}), players[1..], refused);
      assert Ids([p] + w.saved) == {p} + Ids(w.saved);
    }
  }

  lemma {:induction false} AttemptConserves(f: FlushState, pending: set<nat>, players: seq<nat>, refused: set<nat>, unsaved: set<nat>)
    requires Conserved(f, unsaved)
    ensures
      var (w, left) := Attempt(f, pending, players, refused);
      Conserved(w.state, unsaved - Ids(w.saved)) && left == pending - Ids(w.saved)
    decreases |players|
  {
    if players != [] {
      var p := players[0];
      if p in refused {
        AttemptConserves(f, pending, players[1..], refused, unsaved);
      } else {
        var f1 := f.(flush := f.flush - {p}, dirty := f.dirty - {p});
        AttemptConserves(f1, pending - {p}, players[1..], refused, unsaved - {p});
        var w := Attempt(f1, pending - {p}, players[1..], refused).0;
        assert Ids([p] + w.saved) == {p} + Ids(w.saved);
      }
    }
  }

  lemma {:induction false} AttemptsConserve(f: FlushState, pending: set<nat>, refused: seq<set<nat>>, unsaved: set<nat>)
    requires Conserved(f, unsaved)
    ensures
      var (w, left) := Attempts(f, pending, refused);
      && Conserved(w.state, unsaved - Ids(w.saved))
      && left == pending - Ids(w.saved)
    decreases |refused|
  {
    hide Attempt;
    if refused != [] && pending != {} {
      AttemptConserves(f, pending, Sorted(pending), refused[0], unsaved);
      var (w, left) := Attempt(f, pending, Sorted(pending), refused[0]);
      AttemptsConserve(w.state, left, refused[1..], unsaved - Ids(w.saved));
      var rest := Attempts(w.state, left, refused[1..]).0;
      assert Ids(w.saved + rest.saved) == Ids(w.saved) + Ids(rest.saved);
    }
  }

  lemma {:induction false} AttemptLeaves(f: FlushState, pending: set<nat>, players: seq<nat>, refused: set<nat>)
    ensures Attempt(f, pending, players, refused).1 == pending - (Ids(players) - refused)
    decreases |players|
  {
    if players == [] {
      assert pending - (Ids(players) - refused) == pending;
    } else {
      var p := players[0];
      assert players == [p] + players[1..];
      var f1 := f.(flush := f.flush - {p}, dirty := f.dirty - {p});
      AttemptLeaves(f, pending, players[1..], refused);
      AttemptLeaves(f1, pending - {p}, players[1..], refused);
    }
  }

  lemma AttemptLeavesRefused(f: FlushState, pending: set<nat>, refused: set<nat>)
    ensures Attempt(f, pending, Sorted(pending), refused).1 == pending * refused
  {
    hide Attempt, Sorted;
    AttemptLeaves(f, pending, Sorted(pending), refused);
    assert Ids(Sorted(pending)) == pending;
  }

  /** A pass takes exactly those it writes off the books. */
  lemma {:induction false} AttemptState(f: FlushState, pending: set<nat>, players: seq<nat>, refused: set<nat>)
    ensures
      var w := Attempt(f, pending, players, refused).0;
      w.state == f.(flush := f.flush - Ids(w.saved), dirty := f.dirty - Ids(w.saved))
    decreases |players|
  {
    if players == [] {
      assert Ids([]) == {};
    } else {
      var p := players[0];
      if p in refused {
        AttemptState(f, pending, players[1..], refused);
      } else {
        var f1 := f.(flush := f.flush - {p}, dirty := f.dirty - {p});
        AttemptState(f1, pending - {p}, players[1..], refused);
        assert Ids([p] + Attempt(f1, pending - {p}, players[1..], refused).0.saved)
               == {p} + Ids(Attempt(f1, pending - {p}, players[1..], refused).0.saved);
      }
    }
  }

  lemma {:induction false} AttemptsState(f: FlushState, pending: set<nat>, refused: seq<set<nat>>)
    ensures
      var w := Attempts(f, pending, refused).0;
      w.state == f.(flush := f.flush - Ids(w.saved), dirty := f.dirty - Ids(w.saved))
    decreases |refused|
  {
    hide Attempt, Sorted;
    assert Ids([]) == {};
    if refused != [] && pending != {} {
      AttemptState(f, pending, Sorted(pending), refused[0]);
      var (w, left) := Attempt(f, pending, Sorted(pending), refused[0]);
      AttemptsState(w.state, left, refused[1..]);
      var rest := Attempts(w.state, left, refused[1..]).0;
      assert Ids(w.saved + rest.saved) == Ids(w.saved) + Ids(rest.saved);
    }
  }

  /** After the shutdown flush everyone was written except those left, and exactly those are still on the books. */
  lemma ShutdownState(f: FlushState, online: set<nat>, refused: seq<set<nat>>)
    requires |refused| == SHUTDOWN_ATTEMPTS
    ensures
      var (w, left) := FlushAll(f, online, refused);
      var pending := online + f.dirty + f.flush;
      left <= pending && Ids(w.saved) * left == {} && pending - left <= Ids(w.saved)
      && w.state == f.(flush := left, dirty := f.dirty * left)
  {
    hide Attempts;
    var pending := online + f.dirty + f.flush;
    var f0 := f.(flush := f.flush + pending);
    AttemptsConserve(f0, pending, refused, {});
    AttemptsState(f0, pending, refused);
  }

  /**
    * What the shutdown report means. The players left unwritten, and on the books, are those refused in all three
    * attempts; but an error is reported as soon as some player was refused in the first two.
    */
  lemma ShutdownReport(f: FlushState, online: set<nat>, refused: seq<set<nat>>)
    requires |refused| == SHUTDOWN_ATTEMPTS
    ensures
      var (w, left) := FlushAll(f, online, refused);
      var pending := online + f.dirty + f.flush;
      && left == pending * refused[0] * refused[1] * refused[2]
      && w.state == f.(flush := left, dirty := f.dirty * left) && pending - left <= Ids(w.saved) && Ids(w.saved) * left == {}
      && (w.failed <==> pending * refused[0] * refused[1] != {})
  {
    hide Attempts, Ids;
    ShutdownState(f, online, refused);
    var pending := online + f.dirty + f.flush;
    assert refused[0..] == refused;
    ThreeAttempts(f.(flush := f.flush + pending), pending, refused);
  }

  lemma ThreeAttempts(f: FlushState, pending: set<nat>, refused: seq<set<nat>>)
    requires |refused| == SHUTDOWN_ATTEMPTS
    ensures
      var (w, left) := Attempts(f, pending, refused);
      && left == pending * refused[0] * refused[1] * refused[2]
      && (w.failed <==> pending * refused[0] * refused[1] != {})
  {
    hide Attempt, Sorted, Attempts;
    assert refused[0..] == refused;
    AttemptsFrom(f, pending, refused, 0);
    if pending != {} {
      AttemptLeavesRefused(f, pending, refused[0]);
      TwoAttempts(Attempt(f, pending, Sorted(pending), refused[0]).0.state, pending * refused[0], refused);
    }
  }

  lemma TwoAttempts(f: FlushState, pending: set<nat>, refused: seq<set<nat>>)
    requires |refused| == SHUTDOWN_ATTEMPTS
    ensures
      var (w, left) := Attempts(f, pending, refused[1..]);
      left == pending * refused[1] * refused[2] && (w.failed <==> pending * refused[1] != {})
  {
    hide Attempt, Sorted, Attempts;
    AttemptsFrom(f, pending, refused, 1);
    if pending != {} {
      AttemptLeavesRefused(f, pending, refused[1]);
      var f1, p1 := Attempt(f, pending, Sorted(pending), refused[1]).0.state, pending * refused[1];
      AttemptsFrom(f1, p1, refused, 2);
      if p1 != {} {
        AttemptLeavesRefused(f1, p1, refused[2]);
        AttemptsFrom(Attempt(f1, p1, Sorted(p1), refused[2]).0.state, p1 * refused[2], refused, 3);
      }
    }
  }

  /**
    * So the error report is exact, true if and only if somebody was left unwritten, precisely when every
    * player that was refused twice was refused the third time as well or there was no such player.
    */
  lemma ShutdownReportIsExactIff(f: FlushState, online: set<nat>, refused: seq<set<nat>>)
    requires |refused| == SHUTDOWN_ATTEMPTS
    ensures
      var (w, left) := FlushAll(f, online, refused);
      var twice := (online + f.dirty + f.flush) * refused[0] * refused[1];
      (w.failed <==> left != {}) <==> (twice == {} || twice * refused[2] != {})
  {
    hide FlushAll;
    ShutdownReport(f, online, refused);
  }

  /** A player written at the third attempt is reported as a failure of zero players. */
  lemma FalseAlarm()
    ensures
      var (w, left) := FlushAll(FlushState({7}, {}, false), {7}, [{7}, {7}, {}]);
      w.failed && left == {}
  {
    hide FlushAll;
    ShutdownReport(FlushState({7}, {}, false), {7}, [{7}, {7}, {}]);
    assert ({7} + {7} + {}) * {7} * {7} == {7};
  }

  /** A player marked dirty stays queued until a write for it succeeds, whatever happens in between. */
  lemma DoConserves(f: FlushState, op: Op, unsaved: set<nat>)
    requires OpOk(op) && Conserved(f, unsaved)
    ensures Conserved(Do(f, op).state, Unsaved(unsaved, op, Do(f, op).saved))
  {
    hide Write, Attempts, Batch;
    match op
    case TickOp(refused) => WriteConserves(f, Batch(f), refused, unsaved);
    case ShutdownOp(online, attempts) =>
      var pending := online + f.dirty + f.flush;
      AttemptsConserve(f.(flush := f.flush + pending), pending, attempts, unsaved);
    case LeaveOp(p, refused) => assert p in [p];
    case _ =>
  }

  /** The pipeline and its unsaved players after a run of operations. */
  function RunOps(f: FlushState, unsaved: set<nat>, ops: seq<Op>): (FlushState, set<nat>)
    requires forall i :: 0 <= i < |ops| ==> OpOk(ops[i])
    decreases |ops|
  {
    if ops == [] then (f, unsaved)
    else
      var w := Do(f, ops[0]);
      RunOps(w.state, Unsaved(unsaved, ops[0], w.saved), ops[1..])
  }

  /** Conservation over every run: no mark is ever lost before its write. */
  lemma {:induction false} NoMarkIsLost(f: FlushState, unsaved: set<nat>, ops: seq<Op>)
    requires Conserved(f, unsaved) && forall i :: 0 <= i < |ops| ==> OpOk(ops[i])
    ensures
      var (r, left) := RunOps(f, unsaved, ops);
      Conserved(r, left)
    decreases |ops|
  {
    hide Do, Unsaved;
    if ops != [] {
      DoConserves(f, ops[0], unsaved);
      var w := Do(f, ops[0]);
      NoMarkIsLost(w.state, Unsaved(unsaved, ops[0], w.saved), ops[1..]);
    }
  }

  // ----- Drain

  lemma {:induction false} WriteRemoves(f: FlushState, players: seq<nat>)
    ensures
      var w := Write(f, players, {});
      && w.saved == players && !w.failed
      && w.state == f.(flush := f.flush - Ids(players))
    decreases |players|
  {
    if players != [] {
      WriteRemoves(f.(flush := f.flush - {players[0]}), players[1..]);
      assert f.flush - {players[0]} - Ids(players[1..]) == f.flush - Ids(players) by {
        assert players == [players[0]] + players[1..];
      }
    } else {
      assert f.flush - Ids(players) == f.flush;
    }
  }

  lemma {:induction false} IdsSize(s: seq<nat>)
    requires Distinct(s)
    ensures |Ids(s)| == |s|
  {
    if s == [] {
      assert Ids(s) == {};
    } else {
      IdsSize(s[1..]);
      assert s == [s[0]] + s[1..];
      assert s[0] !in s[1..];
      assert Ids(s) == {s[0]} + Ids(s[1..]);
    }
  }

  /** A failure-free tick writes the least ids first, eight at most and never fewer than there are. */
  lemma TickDrains(f: FlushState)
    requires !f.paused
    ensures
      var w := Tick(f, {});
      && w.saved == Batch(f) && |w.saved| == (if |f.flush| < UPDATES_PER_TICK then |f.flush| else UPDATES_PER_TICK)
      && !w.state.paused && w.state.dirty == f.dirty
      && |w.state.flush| == |f.flush| - |w.saved|
  {
    hide Sorted;
    var batch := Batch(f);
    WriteRemoves(f, batch);
    assert forall x :: x in batch ==> x in Sorted(f.flush);
    IdsSize(batch);
    assert Ids(batch) <= f.flush;
    assert |f.flush - Ids(batch)| == |f.flush| - |Ids(batch)|;
  }

  /** A tick's batch is the least ids of the queue, eight at most. */
  lemma BatchIsLeast(f: FlushState, x: nat, y: nat)
    requires x in Batch(f) && y in f.flush && y !in Batch(f)
    ensures x < y && |Batch(f)| == UPDATES_PER_TICK && Ascending(Batch(f))
  {
    hide Sorted;
    var all := Sorted(f.flush);
    var j :| 0 <= j < |all| && all[j] == y;
    var i :| 0 <= i < |Batch(f)| && Batch(f)[i] == x;
    assert all[i] == x;
  }

  lemma {:induction false} WriteStops(f: FlushState, players: seq<nat>, refused: set<nat>)
    ensures
      var w := Write(f, players, refused);
      && w.saved <= players && (forall x :: x in w.saved ==> x !in refused)
      && (w.failed <==> |w.saved| < |players|) && (w.failed ==> players[|w.saved|] in refused)
      && w.state == f.(flush := f.flush - Ids(w.saved), paused := f.paused || w.failed)
    decreases |players|
  {
    assert Ids([]) == {};
    if players != [] && players[0] !in refused {
      var p := players[0];
      WriteStops(f.(flush := f.flush - {p}), players[1..], refused);
      var w := Write(f.(flush := f.flush - {p}), players[1..], refused);
      assert Ids([p] + w.saved) == {p} + Ids(w.saved);
    }
  }

  /**
    * A tick, exactly: while paused it writes nobody; otherwise it writes its batch in order up to the first refusal,
    * takes exactly those off the queue, and pauses flushing if and only if there was one.
    */
  lemma TickStopsAtRefusal(f: FlushState, refused: set<nat>)
    ensures
      var w := Tick(f, refused);
      if f.paused then w == Written(f, [], false)
      else
        && w.saved <= Batch(f) && (forall x :: x in w.saved ==> x !in refused)
        && (w.failed <==> |w.saved| < |Batch(f)|) && (w.failed ==> Batch(f)[|w.saved|] in refused)
        && w.state == f.(flush := f.flush - Ids(w.saved), paused := w.failed)
  {
    hide Write, Batch;
    WriteStops(f, Batch(f), refused);
  }
}
