/**
  * How often a snapshot recipient hears about each player. A `Lane` is one recipient of the round-robin
  * scheduler, seen from the scheduler's cursor; `Snapshots` proves that the real scheduler runs its lanes.
  *
  * The main results: the exact recurrence, the general bound, and that the closed formula used to validate
  * configurations is right for every cadence exactly when the peer count is at most 32 or a multiple of 32.
  */
module Recurrence {
  import opened Options
  import opened Numbers
  import opened OrderedSets

  const PACKETS_PER_TICK := 32
  const ENTITIES_PER_PACKET := 5
  const VISIBILITY_CEILING := 15

  // ----- The closed formula of the configuration check

  function CheckedDivCeil(value: nat, divisor: nat): Option<nat> {
    if divisor == 0 || value + divisor - 1 > U64_MAX then None else Some((value + divisor - 1) / divisor)
  }

  function CheckedMul(a: nat, b: nat): Option<nat> {
    if a * b > U64_MAX then None else Some(a * b)
  }

  function RecurrenceTicks(peers: nat, cadence: nat): Option<nat> {
    if peers <= 1 then Some(0)
    else if cadence == 0 then None
    else
      var round := CheckedDivCeil(peers, PACKETS_PER_TICK);
      var visible := if peers - 1 < VISIBILITY_CEILING then peers - 1 else VISIBILITY_CEILING;
      var chunks := CheckedDivCeil(visible, ENTITIES_PER_PACKET);
      if round.None? || chunks.None? then None
      else
        var due := CheckedDivCeil(cadence, round.value);
        if due.None? then None
        else
          var aligned := CheckedMul(due.value, round.value);
          if aligned.None? then None else CheckedMul(aligned.value, chunks.value)
  }

  // ----- Emission: one recipient's sweep over its selection

  datatype SnapCursor = SnapCursor(cursor: Option<nat>, remaining: nat, lastVisit: nat)

  function IndexOf(s: seq<nat>, x: nat): (r: Option<nat>)
    ensures r.None? <==> x !in s
    ensures r.Some? ==> r.value < |s| && s[r.value] == x
  {
    if s == [] then None
    else if s[0] == x then Some(0)
    else
      var r := IndexOf(s[1..], x);
      if r.None? then None else Some(r.value + 1)
  }

  /** The `count` entries of the selection from `start` on, wrapping round once. */
  function Stretch(sel: seq<nat>, start: nat, count: nat): (r: seq<nat>)
    requires start < |sel| && count <= |sel|
    ensures |r| == count
    ensures forall o :: 0 <= o < count ==> r[o] == sel[Circular(start, o, |sel|)]
  {
    seq(count, o requires 0 <= o < count => sel[Circular(start, o, |sel|)])
  }

  function CursorPosition(c: SnapCursor, sel: seq<nat>): Option<nat> {
    if c.cursor.None? then None else IndexOf(sel, c.cursor.value)
  }

  /** What one due visit advertises, and where it leaves the recipient's cursor. */
  function Emit(c: SnapCursor, sel: seq<nat>): (r: (SnapCursor, seq<nat>))
    ensures sel != [] ==> r.1 != []
  {
    if sel == [] then (c.(cursor := None, remaining := 0), [])
    else
      var position := CursorPosition(c, sel);
      var remaining := if c.remaining == 0 || position.None? then |sel| else Min(c.remaining, |sel|);
      var start := if position.None? then 0 else Circular(position.value, 1, |sel|);
      var count := Min(remaining, ENTITIES_PER_PACKET);
      var ads := Stretch(sel, start, count);
      (c.(cursor := Some(ads[count - 1]), remaining := remaining - count), ads)
  }

  /** How many due visits one sweep over a selection takes. */
  function Chunks(m: nat): nat {
    (m + ENTITIES_PER_PACKET - 1) / ENTITIES_PER_PACKET
  }

  function ChunkSize(m: nat, j: nat): nat
    requires ENTITIES_PER_PACKET * j <= m
  {
    Min(m - ENTITIES_PER_PACKET * j, ENTITIES_PER_PACKET)
  }

  /** The `j`-th packet of a sweep that starts at `base`. */
  function Chunk(sel: seq<nat>, base: nat, j: nat): seq<nat>
    requires base < |sel| && j < Chunks(|sel|)
  {
    Stretch(sel, Circular(base, ENTITIES_PER_PACKET * j, |sel|), ChunkSize(|sel|, j))
  }

  /** The recipient is about to send the `j`-th packet of sweeps that start at `base`. */
  ghost predicate AtPhase(c: SnapCursor, sel: seq<nat>, base: nat, j: nat) {
    && Distinct(sel) && base < |sel| && j < Chunks(|sel|)
    && (j > 0 ==>
          c.remaining == |sel| - ENTITIES_PER_PACKET * j &&
          c.cursor == Some(sel[Circular(base, ENTITIES_PER_PACKET * j - 1, |sel|)]))
    && (j == 0 ==>
          if CursorPosition(c, sel).None? then base == 0
          else c.remaining == 0 && base == Circular(CursorPosition(c, sel).value, 1, |sel|))
  }

  /** A visit that finds nobody in view sends nothing, and the next sweep, over whoever comes into view, starts over. */
  lemma EmptySelectionStartsOver(c: SnapCursor, sel: seq<nat>)
    requires Distinct(sel) && sel != []
    ensures
      var (c', ads) := Emit(c, []);
      ads == [] && c'.lastVisit == c.lastVisit && AtPhase(c', sel, 0, 0)
  {
  }

  lemma IndexOfAt(s: seq<nat>, i: nat)
    requires Distinct(s) && i < |s|
    ensures IndexOf(s, s[i]) == Some(i)
  {
    hide IndexOf;
    assert forall k :: 0 <= k < |s| && k != i ==> s[k] != s[i];
  }

  /** At its phase, a visit starts where the sweep stands and sends one packet of what the sweep has left. */
  lemma PhaseStart(c: SnapCursor, sel: seq<nat>, base: nat, j: nat)
    requires AtPhase(c, sel, base, j)
    ensures
      var position := CursorPosition(c, sel);
      && (if position.None? then 0 else Circular(position.value, 1, |sel|)) == Circular(base, ENTITIES_PER_PACKET * j, |sel|)
      && (if c.remaining == 0 || position.None? then |sel| else Min(c.remaining, |sel|)) == |sel| - ENTITIES_PER_PACKET * j
  {
    hide IndexOf;
    if j > 0 { IndexOfAt(sel, Circular(base, ENTITIES_PER_PACKET * j - 1, |sel|)); }
  }

  lemma PhaseEnd(c: SnapCursor, sel: seq<nat>, base: nat, j: nat)
    requires Distinct(sel) && base < |sel| && j < Chunks(|sel|)
    requires c.remaining == |sel| - ENTITIES_PER_PACKET * j - ChunkSize(|sel|, j)
    requires c.cursor == Some(sel[Circular(Circular(base, ENTITIES_PER_PACKET * j, |sel|), ChunkSize(|sel|, j) - 1, |sel|)])
    ensures AtPhase(c, sel, base, if j + 1 == Chunks(|sel|) then 0 else j + 1)
  {
    hide IndexOf;
    IndexOfAt(sel, Circular(Circular(base, ENTITIES_PER_PACKET * j, |sel|), ChunkSize(|sel|, j) - 1, |sel|));
  }

  /** A visit at one phase sends exactly that packet of the sweep and moves to the next phase. */
  lemma PhaseStep(c: SnapCursor, sel: seq<nat>, base: nat, j: nat)
    requires AtPhase(c, sel, base, j)
    ensures Emit(c, sel).1 == Chunk(sel, base, j)
    ensures AtPhase(Emit(c, sel).0, sel, base, if j + 1 == Chunks(|sel|) then 0 else j + 1)
    ensures Emit(c, sel).0.lastVisit == c.lastVisit
  {
    hide CursorPosition, AtPhase;
    AtPhaseBounds(c, sel, base, j);
    PhaseStart(c, sel, base, j);
    PhaseEnd(Emit(c, sel).0, sel, base, j);
  }

  /** A session that has just joined, and any session whose sweep has just ended, is at phase zero. */
  lemma PhaseZero(c: SnapCursor, sel: seq<nat>)
    requires Distinct(sel) && sel != []
    requires c.remaining == 0 || CursorPosition(c, sel).None?
    ensures AtPhase(c, sel, if CursorPosition(c, sel).None? then 0 else Circular(CursorPosition(c, sel).value, 1, |sel|), 0)
  {
    hide IndexOf;
  }

  /** Every elected player is in exactly one packet of each sweep. */
  lemma SweepIsPartition(sel: seq<nat>, base: nat, i: nat)
    requires Distinct(sel) && base < |sel| && i < |sel|
    ensures exists j :: 0 <= j < Chunks(|sel|) && sel[i] in Chunk(sel, base, j)
    ensures forall j, k :: 0 <= j < k < Chunks(|sel|) && sel[i] in Chunk(sel, base, j) ==> sel[i] !in Chunk(sel, base, k)
  {
    hide Chunk;
    var along := if i >= base then i - base else i + |sel| - base;
    HomeChunk(sel, base, i, along);
    forall k | 0 <= k < Chunks(|sel|) && sel[i] in Chunk(sel, base, k) ensures k == along / ENTITIES_PER_PACKET {
      OnlyHome(sel, base, i, along, k);
    }
  }

  lemma HomeChunk(sel: seq<nat>, base: nat, i: nat, along: nat)
    requires base < |sel| && i < |sel| && along == if i >= base then i - base else i + |sel| - base
    ensures along / ENTITIES_PER_PACKET < Chunks(|sel|)
    ensures sel[i] in Chunk(sel, base, along / ENTITIES_PER_PACKET)
  {
    var home := along / ENTITIES_PER_PACKET;
    assert Chunk(sel, base, home)[along - ENTITIES_PER_PACKET * home] == sel[i];
  }

  lemma OnlyHome(sel: seq<nat>, base: nat, i: nat, along: nat, k: nat)
    requires Distinct(sel) && base < |sel| && i < |sel| && along == if i >= base then i - base else i + |sel| - base
    requires k < Chunks(|sel|) && sel[i] in Chunk(sel, base, k)
    ensures k == along / ENTITIES_PER_PACKET
  {
    var o :| 0 <= o < |Chunk(sel, base, k)| && Chunk(sel, base, k)[o] == sel[i];
    assert Circular(Circular(base, ENTITIES_PER_PACKET * k, |sel|), o, |sel|) == i;
  }

  // ----- The round-robin clock of one recipient

  /** How many of the `peers` recipients one tick considers. */
  function Window(peers: nat): nat {
    Min(peers, PACKETS_PER_TICK)
  }

  function Rounds(peers: nat): nat {
    (peers + PACKETS_PER_TICK - 1) / PACKETS_PER_TICK
  }

  /** A recipient `offset` places behind the cursor is considered when the window covers it. */
  function Advance(offset: nat, peers: nat): (r: nat)
    requires offset < peers
    ensures r < peers
  {
    if offset >= Window(peers) then offset - Window(peers) else offset + peers - Window(peers)
  }

  function Offset(offset: nat, peers: nat, n: nat): (r: nat)
    requires offset < peers
    ensures r < peers
    decreases n
  {
    if n == 0 then offset else Offset(Advance(offset, peers), peers, n - 1)
  }

  lemma {:induction false} OffsetAdd(offset: nat, peers: nat, a: nat, b: nat)
    requires offset < peers
    ensures Offset(offset, peers, a + b) == Offset(Offset(offset, peers, a), peers, b)
    decreases a
  {
    if a > 0 { OffsetAdd(Advance(offset, peers), peers, a - 1, b); }
  }

  /** Before it is reached, a recipient just draws nearer by one window a tick. */
  lemma {:induction false} OffsetLinear(offset: nat, peers: nat, n: nat)
    requires offset < peers && n * Window(peers) <= offset
    ensures Offset(offset, peers, n) == offset - n * Window(peers)
    decreases n
  {
    if n > 0 {
      assert (n - 1) * Window(peers) == n * Window(peers) - Window(peers);
      OffsetLinear(Advance(offset, peers), peers, n - 1);
    }
  }

  /** Ticks until a recipient is next considered. */
  function Wait(offset: nat, peers: nat): nat
    requires offset < peers
  {
    offset / Window(peers)
  }

  lemma WaitBounds(offset: nat, peers: nat)
    requires offset < peers
    ensures Wait(offset, peers) < Rounds(peers)
    ensures Wait(offset, peers) * Window(peers) <= offset < Wait(offset, peers) * Window(peers) + Window(peers)
  {
  }

  lemma FewerWindows(n: nat, w: nat, k: nat)
    requires n < w
    ensures n * k + k <= w * k
  {
    if k > 0 { Scaled(k, w - n); }
    assert k * (w - n) == k * w - k * n;
  }

  /** Every recipient is considered in any run of `Rounds(peers)` consecutive ticks. */
  lemma EveryRecipientIsConsidered(offset: nat, peers: nat)
    requires offset < peers
    ensures Wait(offset, peers) < Rounds(peers)
    ensures Offset(offset, peers, Wait(offset, peers)) < Window(peers)
    ensures forall n :: 0 <= n < Wait(offset, peers) ==> Offset(offset, peers, n) >= Window(peers)
  {
    hide Offset, Wait, Rounds, Window;
    var k, w := Window(peers), Wait(offset, peers);
    WaitBounds(offset, peers);
    OffsetLinear(offset, peers, w);
    forall n | 0 <= n < w ensures Offset(offset, peers, n) >= k {
      FewerWindows(n, w, k);
      OffsetLinear(offset, peers, n);
    }
  }

  // ----- Lanes

  datatype Setup = Setup(peers: nat, cadence: nat, sel: seq<nat>)

  datatype Lane = Lane(offset: nat, tick: nat, c: SnapCursor)

  predicate IsDue(c: SnapCursor, tick: nat, cadence: nat) {
    c.lastVisit == 0 || tick - c.lastVisit >= cadence
  }

  ghost predicate LaneOk(l: Lane, s: Setup) {
    && 2 <= s.peers && s.cadence >= 1 && l.offset < s.peers && l.c.lastVisit <= l.tick
    && |s.sel| == Min(s.peers - 1, VISIBILITY_CEILING)
  }

  function LaneStep(l: Lane, s: Setup): (Lane, seq<nat>)
    requires l.offset < s.peers
  {
    var offset := Advance(l.offset, s.peers);
    if l.offset < Window(s.peers) && IsDue(l.c, l.tick + 1, s.cadence) then
      var (c, ads) := Emit(l.c.(lastVisit := l.tick + 1), s.sel);
      (Lane(offset, l.tick + 1, c), ads)
    else (Lane(offset, l.tick + 1, l.c), [])
  }

  lemma EmitKeepsVisit(c: SnapCursor, sel: seq<nat>)
    ensures Emit(c, sel).0.lastVisit == c.lastVisit
  {
  }

  function After(l: Lane, s: Setup, n: nat): (r: Lane)
    requires l.offset < s.peers
    ensures r.offset < s.peers
    decreases n
  {
    if n == 0 then l else After(LaneStep(l, s).0, s, n - 1)
  }

  /** What the recipient is sent in the `n`-th tick from here. */
  function AdsAt(l: Lane, s: Setup, n: nat): seq<nat>
    requires l.offset < s.peers && n >= 1
  {
    LaneStep(After(l, s, n - 1), s).1
  }

  lemma {:induction false} AfterAdd(l: Lane, s: Setup, a: nat, b: nat)
    requires l.offset < s.peers
    ensures After(l, s, a + b) == After(After(l, s, a), s, b)
    decreases a
  {
    hide LaneStep;
    if a > 0 { LaneStepOffset(l, s); AfterAdd(LaneStep(l, s).0, s, a - 1, b); }
  }

  lemma LaneStepOffset(l: Lane, s: Setup)
    requires l.offset < s.peers
    ensures LaneStep(l, s).0.offset == Advance(l.offset, s.peers) && LaneStep(l, s).0.tick == l.tick + 1
  {
  }

  /** The recipient was visited in the tick that has just ended. */
  ghost predicate JustVisited(l: Lane, s: Setup) {
    LaneOk(l, s) && l.c.lastVisit == l.tick > 0 && l.offset >= s.peers - Window(s.peers)
  }

  /** Ticks from one due visit to the next. */
  function NextGap(offset: nat, peers: nat, cadence: nat): nat
    requires offset < peers && cadence >= 1
  {
    cadence + Wait(Offset(offset, peers, cadence - 1), peers)
  }

  /** Until the next due visit nothing is sent and nothing changes but the clock. */
  lemma {:induction false} QuietUntil(l: Lane, s: Setup, i: nat)
    requires JustVisited(l, s) && i < NextGap(l.offset, s.peers, s.cadence)
    ensures After(l, s, i) == Lane(Offset(l.offset, s.peers, i), l.tick + i, l.c)
    ensures i > 0 ==> AdsAt(l, s, i) == []
    decreases i
  {
    hide Emit, Offset, Wait, Rounds, Advance, After;
    if i == 0 {
      OffsetZero(l, s);
    } else {
      QuietUntil(l, s, i - 1);
      AfterAdd(l, s, i - 1, 1);
      OffsetAdd(l.offset, s.peers, i - 1, 1);
      var at := Offset(l.offset, s.peers, i - 1);
      if i >= s.cadence {
        var d := Offset(l.offset, s.peers, s.cadence - 1);
        OffsetAdd(l.offset, s.peers, s.cadence - 1, i - s.cadence);
        EveryRecipientIsConsidered(d, s.peers);
        assert at >= Window(s.peers);
      }
      StepOnce(After(l, s, i - 1), s);
      OffsetZero(After(l, s, i - 1), s);
    }
  }

  lemma OffsetZero(l: Lane, s: Setup)
    requires l.offset < s.peers
    ensures Offset(l.offset, s.peers, 0) == l.offset && After(l, s, 0) == l
    ensures Offset(l.offset, s.peers, 1) == Advance(l.offset, s.peers)
  {
    assert Offset(Advance(l.offset, s.peers), s.peers, 0) == Advance(l.offset, s.peers);
  }

  lemma StepOnce(l: Lane, s: Setup)
    requires l.offset < s.peers
    ensures After(l, s, 1) == LaneStep(l, s).0
  {
    LaneStepOffset(l, s);
    assert After(LaneStep(l, s).0, s, 0) == LaneStep(l, s).0;
  }

  /** A recipient under the window whose cadence has run out is visited. */
  lemma VisitNow(l: Lane, s: Setup)
    requires LaneOk(l, s) && l.offset < Window(s.peers) && IsDue(l.c, l.tick + 1, s.cadence)
    ensures
      var (c, ads) := Emit(l.c.(lastVisit := l.tick + 1), s.sel);
      && LaneStep(l, s) == (Lane(Advance(l.offset, s.peers), l.tick + 1, c), ads)
      && JustVisited(LaneStep(l, s).0, s)
  {
    hide Emit;
    EmitKeepsVisit(l.c.(lastVisit := l.tick + 1), s.sel);
  }

  /**
    * The next due visit: it comes after at least the cadence and at most the cadence plus one round less
    * a tick, and nothing is sent in between.
    */
  lemma NextDue(l: Lane, s: Setup)
    requires JustVisited(l, s)
    ensures
      var n := NextGap(l.offset, s.peers, s.cadence);
      var (c, ads) := Emit(l.c.(lastVisit := l.tick + n), s.sel);
      && s.cadence <= n <= s.cadence + Rounds(s.peers) - 1
      && After(l, s, n) == Lane(Offset(l.offset, s.peers, n), l.tick + n, c)
      && AdsAt(l, s, n) == ads
      && JustVisited(After(l, s, n), s)
  {
    hide Emit, Offset, Wait, Rounds, After, Advance, LaneStep;
    var n := NextGap(l.offset, s.peers, s.cadence);
    var d := Offset(l.offset, s.peers, s.cadence - 1);
    EveryRecipientIsConsidered(d, s.peers);
    QuietUntil(l, s, n - 1);
    OffsetAdd(l.offset, s.peers, s.cadence - 1, n - s.cadence);
    OffsetAdd(l.offset, s.peers, n - 1, 1);
    AfterAdd(l, s, n - 1, 1);
    var before := After(l, s, n - 1);
    StepOnce(before, s);
    OffsetZero(before, s);
    VisitNow(before, s);
  }

  // ----- Recurrence

  /** Ticks taken by the next `v` due visits. */
  function VisitTime(offset: nat, peers: nat, cadence: nat, v: nat): nat
    requires offset < peers && cadence >= 1
    decreases v
  {
    if v == 0 then 0
    else
      var n := NextGap(offset, peers, cadence);
      n + VisitTime(Offset(offset, peers, n), peers, cadence, v - 1)
  }

  lemma GapBounds(offset: nat, peers: nat, cadence: nat)
    requires offset < peers && cadence >= 1
    ensures cadence <= NextGap(offset, peers, cadence) <= cadence + Rounds(peers) - 1
  {
    hide Offset, Wait, Rounds;
    EveryRecipientIsConsidered(Offset(offset, peers, cadence - 1), peers);
  }

  lemma OneMore(v: nat, x: nat)
    requires v > 0
    ensures v * x == (v - 1) * x + x
  {
  }

  lemma {:induction false} VisitTimeBound(offset: nat, peers: nat, cadence: nat, v: nat)
    requires offset < peers && cadence >= 1
    ensures v * cadence <= VisitTime(offset, peers, cadence, v) <= v * (cadence + Rounds(peers) - 1)
    decreases v
  {
    hide NextGap, Offset, Rounds;
    if v > 0 {
      GapBounds(offset, peers, cadence);
      VisitTimeBound(Offset(offset, peers, NextGap(offset, peers, cadence)), peers, cadence, v - 1);
      OneMore(v, cadence);
      OneMore(v, cadence + Rounds(peers) - 1);
    }
  }

  /** The packet of the sweep that comes `v` due visits from now. */
  function PhaseAfter(j: nat, v: nat, chunks: nat): (r: nat)
    requires j < chunks
    ensures r < chunks
    decreases v
  {
    if v == 0 then j else PhaseAfter(if j + 1 == chunks then 0 else j + 1, v - 1, chunks)
  }

  /** Through the next `v` due visits, each sends its packet of the sweep and every other tick is silent. */
  lemma {:induction false} VisitsFollowSweep(l: Lane, s: Setup, base: nat, j: nat, v: nat, i: nat)
    requires JustVisited(l, s) && AtPhase(l.c, s.sel, base, j)
    requires 1 <= i <= VisitTime(l.offset, s.peers, s.cadence, v)
    ensures AdsAt(l, s, i) == [] ||
            exists u :: 1 <= u <= v && i == VisitTime(l.offset, s.peers, s.cadence, u) &&
                        AdsAt(l, s, i) == Chunk(s.sel, base, PhaseAfter(j, u - 1, Chunks(|s.sel|)))
    decreases v
  {
    hide Emit, AtPhase, Chunk, NextGap, Offset, After, LaneStep;
    if v > 0 {
      AtPhaseBounds(l.c, s.sel, base, j);
      var n := NextGap(l.offset, s.peers, s.cadence);
      NextDue(l, s);
      AtPhaseVisit(l.c, s.sel, base, j, l.tick + n);
      PhaseStep(l.c.(lastVisit := l.tick + n), s.sel, base, j);
      if i < n {
        QuietUntil(l, s, i);
      } else if i == n {
        assert VisitTime(l.offset, s.peers, s.cadence, 1) == n;
      } else {
        var l' := After(l, s, n);
        var j' := if j + 1 == Chunks(|s.sel|) then 0 else j + 1;
        VisitsFollowSweep(l', s, base, j', v - 1, i - n);
        AfterAdd(l, s, n, i - n - 1);
        if AdsAt(l', s, i - n) != [] {
          var u :| 1 <= u <= v - 1 && i - n == VisitTime(l'.offset, s.peers, s.cadence, u) &&
                   AdsAt(l', s, i - n) == Chunk(s.sel, base, PhaseAfter(j', u - 1, Chunks(|s.sel|)));
          assert VisitTime(l.offset, s.peers, s.cadence, u + 1) == n + VisitTime(l'.offset, s.peers, s.cadence, u);
          assert PhaseAfter(j, u, Chunks(|s.sel|)) == PhaseAfter(j', u - 1, Chunks(|s.sel|));
        }
      }
    }
  }

  lemma AtPhaseBounds(c: SnapCursor, sel: seq<nat>, base: nat, j: nat)
    requires AtPhase(c, sel, base, j)
    ensures base < |sel| && j < Chunks(|sel|) && Distinct(sel)
  {
  }

  lemma AtPhaseVisit(c: SnapCursor, sel: seq<nat>, base: nat, j: nat, tick: nat)
    requires AtPhase(c, sel, base, j)
    ensures AtPhase(c.(lastVisit := tick), sel, base, j)
  {
    assert CursorPosition(c.(lastVisit := tick), sel) == CursorPosition(c, sel);
  }

  lemma {:induction false} VisitSends(l: Lane, s: Setup, base: nat, j: nat, u: nat)
    requires JustVisited(l, s) && AtPhase(l.c, s.sel, base, j) && u >= 1
    ensures VisitTime(l.offset, s.peers, s.cadence, u) >= 1
    ensures AdsAt(l, s, VisitTime(l.offset, s.peers, s.cadence, u)) ==
            Chunk(s.sel, base, PhaseAfter(j, u - 1, Chunks(|s.sel|)))
    decreases u
  {
    hide Emit, AtPhase, Chunk, NextGap, Offset, After, LaneStep;
    AtPhaseBounds(l.c, s.sel, base, j);
    var n := NextGap(l.offset, s.peers, s.cadence);
    NextDue(l, s);
    AtPhaseVisit(l.c, s.sel, base, j, l.tick + n);
    PhaseStep(l.c.(lastVisit := l.tick + n), s.sel, base, j);
    var l' := After(l, s, n);
    var rest := VisitTime(l'.offset, s.peers, s.cadence, u - 1);
    assert VisitTime(l.offset, s.peers, s.cadence, u) == n + rest;
    if u > 1 {
      VisitSends(l', s, base, if j + 1 == Chunks(|s.sel|) then 0 else j + 1, u - 1);
      AfterAdd(l, s, n, rest - 1);
    }
  }

  lemma {:induction false} PhaseAfterClosed(j: nat, v: nat, chunks: nat)
    requires j < chunks && v <= chunks
    ensures PhaseAfter(j, v, chunks) == if j + v < chunks then j + v else j + v - chunks
    decreases v
  {
    if v > 0 { PhaseAfterClosed(if j + 1 == chunks then 0 else j + 1, v - 1, chunks); }
  }

  /** The packet sent just before phase `j`. */
  function Previous(j: nat, chunks: nat): (r: nat)
    requires j < chunks
    ensures r < chunks
  {
    if j == 0 then chunks - 1 else j - 1
  }

  /**
    * Recurrence: a player advertised in the visit that has just ended is next advertised exactly one sweep
    * of due visits later, at no tick before, and within chunks * (cadence + rounds - 1) ticks.
    */
  lemma AdvertisementRecurs(l: Lane, s: Setup, base: nat, j: nat, i: nat)
    requires JustVisited(l, s) && AtPhase(l.c, s.sel, base, j)
    requires i < |s.sel| && s.sel[i] in Chunk(s.sel, base, Previous(j, Chunks(|s.sel|)))
    ensures
      var chunks := Chunks(|s.sel|);
      var n := VisitTime(l.offset, s.peers, s.cadence, chunks);
      && 1 <= n <= chunks * (s.cadence + Rounds(s.peers) - 1)
      && s.sel[i] in AdsAt(l, s, n)
      && forall k :: 1 <= k < n ==> s.sel[i] !in AdsAt(l, s, k)
  {
    hide Emit, AtPhase, Chunk, After, LaneStep, AdsAt, VisitTime, JustVisited, Rounds;
    AtPhaseBounds(l.c, s.sel, base, j);
    JustVisitedBounds(l, s);
    var chunks := Chunks(|s.sel|);
    var n := VisitTime(l.offset, s.peers, s.cadence, chunks);
    VisitSends(l, s, base, j, chunks);
    VisitTimeBound(l.offset, s.peers, s.cadence, chunks);
    PhaseAfterClosed(j, chunks - 1, chunks);
    SweepIsPartition(s.sel, base, i);
    forall k | 1 <= k < n ensures s.sel[i] !in AdsAt(l, s, k) {
      VisitsFollowSweep(l, s, base, j, chunks, k);
      if AdsAt(l, s, k) != [] {
        var u :| 1 <= u <= chunks && k == VisitTime(l.offset, s.peers, s.cadence, u) &&
                 AdsAt(l, s, k) == Chunk(s.sel, base, PhaseAfter(j, u - 1, chunks));
        PhaseAfterClosed(j, u - 1, chunks);
        assert PhaseAfter(j, u - 1, chunks) != Previous(j, chunks);
      }
    }
  }

  lemma JustVisitedBounds(l: Lane, s: Setup)
    requires JustVisited(l, s)
    ensures s.peers - Window(s.peers) <= l.offset < s.peers && s.cadence >= 1 && s.peers >= 2
    ensures |s.sel| == Min(s.peers - 1, VISIBILITY_CEILING)
  {
  }

  /** What a sweep in progress still has to send. */
  function Owed(c: SnapCursor, sel: seq<nat>): (r: nat)
    ensures r <= |sel|
  {
    if CursorPosition(c, sel).None? then 0 else Min(c.remaining, |sel|)
  }

  lemma EmitOwes(c: SnapCursor, sel: seq<nat>)
    requires sel != [] && Owed(c, sel) > 0
    ensures Owed(Emit(c, sel).0, sel) == Owed(c, sel) - Min(Owed(c, sel), ENTITIES_PER_PACKET)
  {
    hide IndexOf;
    var (c', ads) := Emit(c, sel);
    assert ads[|ads| - 1] in sel;
  }

  lemma VisitOwes(c: SnapCursor, sel: seq<nat>, tick: nat)
    ensures Owed(c.(lastVisit := tick), sel) == Owed(c, sel)
  {
    assert CursorPosition(c.(lastVisit := tick), sel) == CursorPosition(c, sel);
  }

  /**
    * Whatever state membership changes have left a recipient's cursor in, within one sweep of due visits it
    * stands between sweeps, from where the recurrence above holds.
    */
  lemma {:induction false} EveryLaneAligns(l: Lane, s: Setup) returns (v: nat, base: nat)
    requires JustVisited(l, s) && Distinct(s.sel) && s.sel != []
    ensures v <= Chunks(Owed(l.c, s.sel)) <= Chunks(|s.sel|)
    ensures
      var aligned := After(l, s, VisitTime(l.offset, s.peers, s.cadence, v));
      JustVisited(aligned, s) && AtPhase(aligned.c, s.sel, base, 0)
    decreases Owed(l.c, s.sel)
  {
    hide Emit, AtPhase, NextGap, Offset, LaneStep, JustVisited, IndexOf;
    JustVisitedBounds(l, s);
    if Owed(l.c, s.sel) == 0 {
      v := 0;
      PhaseZero(l.c, s.sel);
      base := if CursorPosition(l.c, s.sel).None? then 0 else Circular(CursorPosition(l.c, s.sel).value, 1, |s.sel|);
    } else {
      var n := NextGap(l.offset, s.peers, s.cadence);
      NextDue(l, s);
      VisitOwes(l.c, s.sel, l.tick + n);
      EmitOwes(l.c.(lastVisit := l.tick + n), s.sel);
      var l1 := After(l, s, n);
      var more;
      more, base := EveryLaneAligns(l1, s);
      v := more + 1;
      AfterAdd(l, s, n, VisitTime(l1.offset, s.peers, s.cadence, more));
    }
  }

  /** Before its cadence has run out, nothing happens to a recipient but that the clock goes on. */
  lemma {:induction false} NotDueStays(l: Lane, s: Setup, n: nat)
    requires LaneOk(l, s) && l.c.lastVisit != 0 && l.tick + n - l.c.lastVisit < s.cadence
    ensures After(l, s, n) == Lane(Offset(l.offset, s.peers, n), l.tick + n, l.c)
    decreases n
  {
    hide Emit;
    if n > 0 { NotDueStays(LaneStep(l, s).0, s, n - 1); }
  }

  /** Nor while the window has not reached it. */
  lemma {:induction false} OutOfReach(l: Lane, s: Setup, n: nat)
    requires LaneOk(l, s) && n * Window(s.peers) <= l.offset
    ensures After(l, s, n) == Lane(Offset(l.offset, s.peers, n), l.tick + n, l.c)
    decreases n
  {
    hide Emit;
    if n > 0 {
      assert (n - 1) * Window(s.peers) == n * Window(s.peers) - Window(s.peers);
      OutOfReach(LaneStep(l, s).0, s, n - 1);
    }
  }

  /** A recipient that is due is visited within a round. */
  lemma DueVisitComes(l: Lane, s: Setup) returns (n: nat)
    requires LaneOk(l, s) && IsDue(l.c, l.tick + 1, s.cadence)
    ensures 1 <= n <= Rounds(s.peers) && JustVisited(After(l, s, n), s)
  {
    hide Offset, Wait, Rounds, After, Window, LaneStep, JustVisited;
    var w := Wait(l.offset, s.peers);
    EveryRecipientIsConsidered(l.offset, s.peers);
    WaitBounds(l.offset, s.peers);
    OutOfReach(l, s, w);
    n := w + 1;
    AfterAdd(l, s, w, 1);
    StepOnce(After(l, s, w), s);
    VisitNow(After(l, s, w), s);
  }

  /** Any recipient, whenever it was last visited, is visited within a cadence and a round. */
  lemma VisitComes(l: Lane, s: Setup) returns (n: nat)
    requires LaneOk(l, s)
    ensures 1 <= n <= s.cadence + Rounds(s.peers) && JustVisited(After(l, s, n), s)
  {
    hide Offset, Rounds, After, JustVisited;
    if IsDue(l.c, l.tick + 1, s.cadence) {
      n := DueVisitComes(l, s);
    } else {
      var quiet := s.cadence - 1 - (l.tick - l.c.lastVisit);
      NotDueStays(l, s, quiet);
      var more := DueVisitComes(After(l, s, quiet), s);
      n := quiet + more;
      AfterAdd(l, s, quiet, more);
    }
  }

  /** So from any state whatever, a recipient stands between two sweeps, just visited, within four such spans. */
  lemma EveryLaneSettles(l: Lane, s: Setup) returns (n: nat, base: nat)
    requires LaneOk(l, s) && Distinct(s.sel)
    ensures 1 <= n <= 4 * (s.cadence + Rounds(s.peers))
    ensures JustVisited(After(l, s, n), s) && AtPhase(After(l, s, n).c, s.sel, base, 0)
  {
    hide Offset, Rounds, After, JustVisited, AtPhase, VisitTime, Owed;
    var first := VisitComes(l, s);
    var l1 := After(l, s, first);
    JustVisitedBounds(l1, s);
    var v;
    v, base := EveryLaneAligns(l1, s);
    var more := VisitTime(l1.offset, s.peers, s.cadence, v);
    VisitTimeBound(l1.offset, s.peers, s.cadence, v);
    var each := s.cadence + Rounds(s.peers);
    assert v <= 3;
    assert v * (each - 1) <= 3 * (each - 1) by { Product(v, each - 1, 3, each - 1); }
    n := first + more;
    AfterAdd(l, s, first, more);
  }

  // ----- When the closed formula is exact

  /** The peer counts for which every round considers each recipient exactly once. */
  predicate EvenRounds(peers: nat) {
    peers <= PACKETS_PER_TICK || peers % PACKETS_PER_TICK == 0
  }

  /** The cadence rounded up to a whole number of rounds. */
  function Aligned(peers: nat, cadence: nat): nat
    requires peers >= 1
  {
    ((cadence + Rounds(peers) - 1) / Rounds(peers)) * Rounds(peers)
  }

  lemma Scaled(d: nat, x: int)
    requires d > 0
    ensures x >= 1 ==> d * x >= d
    ensures x <= -1 ==> d * x <= 0 - d
  {
    if x >= 1 { assert d * x == d + d * (x - 1); } else if x <= -1 { assert d * x == 0 - d + d * (x + 1); }
  }

  lemma DivUnique(n: nat, d: nat, q: nat, r: nat)
    requires d > 0 && n == d * q + r && r < d
    ensures n / d == q
  {
    var q', r' := n / d, n % d;
    assert d * (q - q') == d * q - d * q';
    Scaled(d, q - q');
  }

  /** With even rounds a recipient is back where it was after exactly one round. */
  lemma RoundIsPeriod(offset: nat, peers: nat)
    requires PACKETS_PER_TICK < peers && peers % PACKETS_PER_TICK == 0
    requires peers - PACKETS_PER_TICK <= offset < peers
    ensures peers == PACKETS_PER_TICK * Rounds(peers)
    ensures Offset(offset, peers, Rounds(peers)) == offset
  {
    var r := Rounds(peers);
    OffsetLinear(offset, peers, r - 1);
    OffsetAdd(offset, peers, r - 1, 1);
    var near := Offset(offset, peers, r - 1);
    assert Offset(near, peers, 1) == Offset(Advance(near, peers), peers, 0);
  }

  lemma {:induction false} RoundsRepeat(offset: nat, peers: nat, q: nat, a: nat)
    requires PACKETS_PER_TICK < peers && peers % PACKETS_PER_TICK == 0
    requires peers - PACKETS_PER_TICK <= offset < peers && a < Rounds(peers)
    ensures Offset(offset, peers, Rounds(peers) * q + a) == offset - PACKETS_PER_TICK * a
    decreases q
  {
    hide Offset;
    RoundIsPeriod(offset, peers);
    if q == 0 {
      OffsetLinear(offset, peers, a);
      assert Rounds(peers) * 0 == 0;
    } else {
      RoundsRepeat(offset, peers, q - 1, a);
      OffsetAdd(offset, peers, Rounds(peers), Rounds(peers) * (q - 1) + a);
      assert Rounds(peers) * q == Rounds(peers) + Rounds(peers) * (q - 1);
    }
  }

  lemma SmallGap(offset: nat, peers: nat, cadence: nat)
    requires 2 <= peers <= PACKETS_PER_TICK && cadence >= 1 && offset < peers
    ensures NextGap(offset, peers, cadence) == Aligned(peers, cadence) == cadence
  {
    hide Offset;
    assert Rounds(peers) == 1;
    assert Wait(Offset(offset, peers, cadence - 1), peers) == 0;
  }

  /** Where a recipient stands just before it is due, and how long it then waits. */
  lemma WaitAt(offset: nat, peers: nat, a: nat)
    requires PACKETS_PER_TICK < peers && peers == PACKETS_PER_TICK * Rounds(peers) && a < Rounds(peers)
    requires peers - PACKETS_PER_TICK <= offset < peers
    ensures 0 <= offset - PACKETS_PER_TICK * a < peers && Wait(offset - PACKETS_PER_TICK * a, peers) == Rounds(peers) - 1 - a
  {
    hide Rounds;
  }

  lemma AlignedAt(peers: nat, cadence: nat, q: nat, a: nat)
    requires peers >= 1 && cadence - 1 == Rounds(peers) * q + a && a < Rounds(peers)
    ensures Aligned(peers, cadence) == Rounds(peers) * (q + 1)
  {
    var r := Rounds(peers);
    hide Rounds;
    assert r * (q + 1) == r * q + r;
    DivUnique(cadence + r - 1, r, q + 1, a);
  }

  lemma LargeGap(offset: nat, peers: nat, cadence: nat)
    requires PACKETS_PER_TICK < peers && peers % PACKETS_PER_TICK == 0 && cadence >= 1
    requires peers - PACKETS_PER_TICK <= offset < peers
    ensures NextGap(offset, peers, cadence) == Aligned(peers, cadence)
    ensures Offset(offset, peers, Aligned(peers, cadence)) == offset
  {
    hide Offset, Rounds, Wait, Aligned;
    RoundIsPeriod(offset, peers);
    var r := Rounds(peers);
    var q, a := (cadence - 1) / r, (cadence - 1) % r;
    AlignedAt(peers, cadence, q, a);
    RoundsRepeat(offset, peers, q, a);
    WaitAt(offset, peers, a);
    RoundsRepeat(offset, peers, q + 1, 0);
    assert r * (q + 1) == r * q + r;
  }

  /** With even rounds every gap between due visits is the aligned cadence, and the pattern repeats. */
  lemma EvenGap(offset: nat, peers: nat, cadence: nat)
    requires peers >= 2 && EvenRounds(peers) && cadence >= 1
    requires peers - Window(peers) <= offset < peers
    ensures NextGap(offset, peers, cadence) == Aligned(peers, cadence)
    ensures Offset(offset, peers, NextGap(offset, peers, cadence)) >= peers - Window(peers)
  {
    hide Offset, Aligned, NextGap;
    if peers <= PACKETS_PER_TICK { SmallGap(offset, peers, cadence); } else { LargeGap(offset, peers, cadence); }
  }

  lemma {:induction false} EvenVisitTime(offset: nat, peers: nat, cadence: nat, v: nat)
    requires peers >= 2 && EvenRounds(peers) && cadence >= 1
    requires peers - Window(peers) <= offset < peers
    ensures VisitTime(offset, peers, cadence, v) == v * Aligned(peers, cadence)
    decreases v
  {
    hide NextGap, Offset, Aligned;
    if v > 0 {
      EvenGap(offset, peers, cadence);
      EvenVisitTime(Offset(offset, peers, NextGap(offset, peers, cadence)), peers, cadence, v - 1);
      OneMore(v, Aligned(peers, cadence));
    }
  }

  /** The players one recipient can be told about, in a crowd of `peers` that all see each other. */
  function Visible(peers: nat): nat
    requires peers >= 1
  {
    Min(peers - 1, VISIBILITY_CEILING)
  }

  lemma FormulaValue(peers: nat, cadence: nat)
    requires peers >= 2 && RecurrenceTicks(peers, cadence).Some?
    ensures cadence >= 1 && RecurrenceTicks(peers, cadence).value == Aligned(peers, cadence) * Chunks(Visible(peers))
  {
  }

  /** Exactness: with even rounds the closed formula is the real recurrence, to the tick. */
  lemma FormulaIsExact(offset: nat, peers: nat, cadence: nat)
    requires peers >= 2 && EvenRounds(peers) && RecurrenceTicks(peers, cadence).Some?
    requires peers - Window(peers) <= offset < peers && cadence >= 1
    ensures VisitTime(offset, peers, cadence, Chunks(Visible(peers))) == RecurrenceTicks(peers, cadence).value
  {
    hide RecurrenceTicks, VisitTime, Aligned;
    FormulaValue(peers, cadence);
    EvenVisitTime(offset, peers, cadence, Chunks(Visible(peers)));
  }

  // ----- When it is not

  /** A cadence at which the formula fails for a peer count with uneven rounds. */
  function WitnessCadence(peers: nat): nat {
    if peers >= 48 then Rounds(peers)
    else if peers >= 40 then 4
    else if peers >= 38 then 6
    else if peers >= 36 then 8
    else if peers == 35 then 12
    else if peers == 34 then 16
    else 32
  }

  /** How far a recipient's place in the window drifts, each time that cadence has run out. */
  function Drift(peers: nat): int
    requires peers > 32
  {
    if peers >= 48 then peers - PACKETS_PER_TICK * Rounds(peers)
    else if peers == 33 then -1
    else if peers == 34 then -2
    else if peers == 35 then 1
    else if peers == 36 then -4
    else if peers == 37 then 3
    else if peers == 38 then -2
    else if peers == 39 then 3
    else if peers == 40 then -8
    else if peers == 41 then -5
    else if peers == 42 then -2
    else 3 * peers - 4 * PACKETS_PER_TICK
  }

  /** Positions are the starting offset less a window a tick, modulo the peer count. */
  lemma {:induction false} OffsetModulo(offset: nat, peers: nat, n: nat) returns (laps: nat)
    requires offset < peers && peers > PACKETS_PER_TICK
    ensures Offset(offset, peers, n) == offset - PACKETS_PER_TICK * n + peers * laps
    decreases n
  {
    if n == 0 {
      laps := 0;
    } else {
      var rest := OffsetModulo(Advance(offset, peers), peers, n - 1);
      laps := if offset >= PACKETS_PER_TICK then rest else rest + 1;
      assert peers * (rest + 1) == peers * rest + peers;
    }
  }

  /** The one representative of `x` modulo `peers` that is a position. */
  lemma InOneLap(peers: nat, x: int, k: int)
    requires peers > 0 && 0 - peers < x < peers && 0 <= x + peers * k < peers
    ensures x + peers * k == if x >= 0 then x else x + peers
  {
    Scaled(peers, k);
    Scaled(peers, k - 1);
    assert peers * (k - 1) == peers * k - peers;
  }

  lemma LargeDrift(peers: nat)
    requires peers >= 48 && peers % PACKETS_PER_TICK != 0
    ensures peers == PACKETS_PER_TICK * WitnessCadence(peers) + Drift(peers)
    ensures Drift(peers) != 0 && 0 - (peers - PACKETS_PER_TICK) <= Drift(peers) <= peers - PACKETS_PER_TICK
    ensures WitnessCadence(peers) >= 1 && Aligned(peers, WitnessCadence(peers)) == WitnessCadence(peers)
  {
    DivUnique(2 * Rounds(peers) - 1, Rounds(peers), 1, Rounds(peers) - 1);
  }

  function SmallLaps(peers: nat): nat {
    if peers == 33 then 31 else if peers == 34 then 15 else if peers == 35 then 11
    else if peers <= 37 then 7 else if peers <= 39 then 5 else 3
  }

  lemma SmallDrift(peers: nat)
    requires PACKETS_PER_TICK < peers < 48
    ensures peers * SmallLaps(peers) == PACKETS_PER_TICK * WitnessCadence(peers) + Drift(peers)
    ensures Drift(peers) != 0 && 0 - (peers - PACKETS_PER_TICK) <= Drift(peers) <= peers - PACKETS_PER_TICK
  {
  }

  lemma SmallAligned(peers: nat)
    requires PACKETS_PER_TICK < peers < 48
    ensures WitnessCadence(peers) >= 1 && Aligned(peers, WitnessCadence(peers)) == WitnessCadence(peers)
  {
    assert Rounds(peers) == 2;
  }

  /** The drift is small but not zero, and the witness cadence is a whole number of rounds. */
  lemma DriftFacts(peers: nat) returns (laps: nat)
    requires peers > PACKETS_PER_TICK && peers % PACKETS_PER_TICK != 0
    ensures peers * laps == PACKETS_PER_TICK * WitnessCadence(peers) + Drift(peers)
    ensures Drift(peers) != 0 && 0 - (peers - PACKETS_PER_TICK) <= Drift(peers) <= peers - PACKETS_PER_TICK
    ensures WitnessCadence(peers) >= 1 && Aligned(peers, WitnessCadence(peers)) == WitnessCadence(peers)
  {
    hide WitnessCadence, Drift, Aligned, SmallLaps;
    if peers >= 48 {
      laps := 1;
      LargeDrift(peers);
    } else {
      laps := SmallLaps(peers);
      SmallDrift(peers);
      SmallAligned(peers);
    }
  }

  lemma DriftStep(place: nat, peers: nat)
    requires peers > PACKETS_PER_TICK && peers % PACKETS_PER_TICK != 0 && place < PACKETS_PER_TICK
    ensures
      var next := place + Drift(peers);
      Offset(place, peers, WitnessCadence(peers)) == if next >= 0 then next else next + peers
  {
    hide Offset, Aligned, WitnessCadence, Drift;
    var base := DriftFacts(peers);
    var laps := OffsetModulo(place, peers, WitnessCadence(peers));
    LapArithmetic(peers, place, PACKETS_PER_TICK * WitnessCadence(peers), Drift(peers), laps, base,
                  Offset(place, peers, WitnessCadence(peers)));
  }

  lemma LapArithmetic(peers: nat, place: nat, moved: nat, drift: int, laps: nat, base: nat, at: nat)
    requires at == place - moved + peers * laps && at < peers
    requires peers * base == moved + drift && 0 - peers < place + drift < peers
    ensures at == if place + drift >= 0 then place + drift else place + drift + peers
  {
    assert peers * (laps - base) == peers * laps - peers * base;
    InOneLap(peers, place + drift, laps - base);
  }

  /** With uneven rounds some recipient's next due visit is later than the witness cadence. */
  lemma UnevenGap(peers: nat) returns (offset: nat)
    requires peers > PACKETS_PER_TICK && peers % PACKETS_PER_TICK != 0
    ensures peers - Window(peers) <= offset < peers && WitnessCadence(peers) >= 1
    ensures NextGap(offset, peers, WitnessCadence(peers)) > WitnessCadence(peers)
  {
    hide Offset, Aligned, WitnessCadence, Drift;
    var base := DriftFacts(peers);
    var place := if Drift(peers) < 0 then 0 else PACKETS_PER_TICK - 1;
    DriftStep(place, peers);
    offset := place + peers - PACKETS_PER_TICK;
    OffsetAfterOne(place, peers, WitnessCadence(peers));
  }

  lemma OffsetAfterOne(place: nat, peers: nat, n: nat)
    requires peers > PACKETS_PER_TICK && place < PACKETS_PER_TICK && n >= 1
    ensures Offset(place, peers, n) == Offset(place + peers - PACKETS_PER_TICK, peers, n - 1)
  {
  }

  /** So there the closed formula promises a recurrence that the scheduler does not keep. */
  lemma FormulaFails(peers: nat) returns (offset: nat)
    requires PACKETS_PER_TICK < peers <= 0xFFFF_FFFF && peers % PACKETS_PER_TICK != 0
    ensures peers - Window(peers) <= offset < peers && WitnessCadence(peers) >= 1
    ensures RecurrenceTicks(peers, WitnessCadence(peers)).Some?
    ensures VisitTime(offset, peers, WitnessCadence(peers), Chunks(Visible(peers)))
            > RecurrenceTicks(peers, WitnessCadence(peers)).value
  {
    hide Offset, Drift, NextGap;
    var cadence := WitnessCadence(peers);
    var base := DriftFacts(peers);
    assert Rounds(peers) <= 0x800_0000 && cadence <= 0x800_0000;
    offset := UnevenGap(peers);
    var next := Offset(offset, peers, NextGap(offset, peers, cadence));
    assert Chunks(Visible(peers)) == 3;
    assert RecurrenceTicks(peers, cadence) == Some(3 * cadence);
    VisitTimeBound(next, peers, cadence, 2);
  }

  /** The configuration check's formula bounds the real recurrence, whatever the cadence. */
  ghost predicate FormulaIsSound(peers: nat)
    requires peers >= 2
  {
    forall cadence: nat, offset: nat ::
      cadence >= 1 && peers - Window(peers) <= offset < peers && RecurrenceTicks(peers, cadence).Some? ==>
        VisitTime(offset, peers, cadence, Chunks(Visible(peers))) <= RecurrenceTicks(peers, cadence).value
  }

  /** The exact condition: the formula is sound for every cadence if and only if the rounds are even. */
  lemma FormulaSoundIff(peers: nat)
    requires 2 <= peers <= 0xFFFF_FFFF
    ensures FormulaIsSound(peers) <==> EvenRounds(peers)
  {
    hide RecurrenceTicks, VisitTime;
    if EvenRounds(peers) {
      forall cadence: nat, offset: nat
        | cadence >= 1 && peers - Window(peers) <= offset < peers && RecurrenceTicks(peers, cadence).Some?
        ensures VisitTime(offset, peers, cadence, Chunks(Visible(peers))) <= RecurrenceTicks(peers, cadence).value
      {
        FormulaIsExact(offset, peers, cadence);
      }
    } else {
      var offset := FormulaFails(peers);
    }
  }

  const CLIENT_EXPIRY_SECS := 5

  /** Ticks between snapshots of one recipient, for rates with a snapshot at most every tick. */
  function TicksPerSnapshot(tickHz: nat, snapshotHz: nat): (r: nat)
    requires snapshotHz > 0
    ensures r >= 1
  {
    if tickHz / snapshotHz == 0 then 1 else tickHz / snapshotHz
  }

  /** The start-up test: both rates fit the wire, and the formula at the ceiling stays below the clients' expiry. */
  predicate Accepts(ceiling: nat, tickHz: nat, snapshotHz: nat) {
    && 1 <= ceiling <= 1024 && 1 <= snapshotHz <= tickHz <= 255
    && RecurrenceTicks(ceiling, TicksPerSnapshot(tickHz, snapshotHz)).Some?
    && RecurrenceTicks(ceiling, TicksPerSnapshot(tickHz, snapshotHz)).value < CLIENT_EXPIRY_SECS * tickHz
  }

  /** In a crowd of this size some recipient goes as long as the expiry without hearing of a player it sees. */
  ghost predicate Starves(peers: nat, cadence: nat, expiry: nat)
    requires peers >= 2 && cadence >= 1
  {
    exists offset: nat :: peers - Window(peers) <= offset < peers &&
                          VisitTime(offset, peers, cadence, Chunks(Visible(peers))) >= expiry
  }

  lemma FormulaIsDefined(peers: nat, cadence: nat)
    requires 2 <= peers <= 1024 && 1 <= cadence <= 255
    ensures RecurrenceTicks(peers, cadence).Some?
  {
    var r := Rounds(peers);
    assert 1 <= r <= 32;
    var due := (cadence + r - 1) / r;
    DivBelow(cadence + r - 1, r);
    Product(due, r, 286, 32);
    Product(due * r, Chunks(Visible(peers)), 286 * 32, 3);
    DefinedFrom(peers, cadence, r, due, Chunks(Visible(peers)));
  }

  lemma DefinedFrom(peers: nat, cadence: nat, round: nat, due: nat, chunks: nat)
    requires 2 <= peers <= 1024 && 1 <= cadence <= 255
    requires round == Rounds(peers) >= 1 && chunks == Chunks(Visible(peers))
    requires due == (cadence + round - 1) / round && due * round * chunks <= U64_MAX && due * round <= U64_MAX && round <= 32
    ensures RecurrenceTicks(peers, cadence).Some?
  {
    assert CheckedDivCeil(peers, PACKETS_PER_TICK) == Some(round);
    assert CheckedDivCeil(Visible(peers), ENTITIES_PER_PACKET) == Some(chunks);
    assert CheckedDivCeil(cadence, round) == Some(due);
  }

  lemma Product(a: nat, b: nat, x: nat, y: nat)
    requires a <= x && b <= y
    ensures a * b <= x * y
  {
    assert x * y - a * b == (x - a) * y + a * (y - b);
  }

  lemma CadenceFits(tickHz: nat, snapshotHz: nat)
    requires 1 <= snapshotHz <= tickHz <= 255
    ensures 1 <= TicksPerSnapshot(tickHz, snapshotHz) <= 255
  {
    assert tickHz / snapshotHz <= tickHz by { DivBelow(tickHz, snapshotHz); }
  }

  lemma DivBelow(n: nat, d: nat)
    requires d >= 1
    ensures n / d <= n
  {
    if n / d > 0 { Scaled(n / d, d); }
    assert d * (n / d) <= n;
  }

  // ----- The gap of any crowd, in laps

  /** Laps of the whole circle before a recipient visited at place `x` of the window is next visited when due. */
  function LapsToNext(x: nat, peers: nat, cadence: nat): (l: nat)
    requires x < PACKETS_PER_TICK < peers && cadence >= 1
    ensures 0 <= x + peers * l - PACKETS_PER_TICK * cadence < peers
  {
    var ahead := PACKETS_PER_TICK * cadence - x;
    var l := (ahead + peers - 1) / peers;
    assert ahead + peers - 1 == peers * l + (ahead + peers - 1) % peers;
    l
  }

  /** Laps before the `v`-th due visit from here. */
  function Laps(x: nat, peers: nat, cadence: nat, v: nat): nat
    requires x < PACKETS_PER_TICK < peers && cadence >= 1
    decreases v
  {
    if v == 0 then 0
    else
      var l := LapsToNext(x, peers, cadence);
      l + Laps((x + peers * l) % PACKETS_PER_TICK, peers, cadence, v - 1)
  }

  /** The place of a recipient just before it is due is what the circle has turned, modulo its size. */
  lemma PlaceWhenDue(x: nat, peers: nat, cadence: nat)
    requires x < PACKETS_PER_TICK < peers && cadence >= 1
    ensures
      var l := LapsToNext(x, peers, cadence);
      Offset(x + peers - PACKETS_PER_TICK, peers, cadence - 1) == x + peers * l - PACKETS_PER_TICK * cadence
  {
    hide Offset, LapsToNext;
    var l := LapsToNext(x, peers, cadence);
    var k := OffsetModulo(x + peers - PACKETS_PER_TICK, peers, cadence - 1);
    assert peers * (k + 1) == peers * k + peers;
    SameLap(peers, x - PACKETS_PER_TICK * cadence, l, k + 1);
  }

  lemma SameLap(peers: nat, x: int, l: nat, k: nat)
    requires 0 <= x + peers * l < peers && 0 <= x + peers * k < peers
    ensures l == k
  {
    assert peers * (l - k) == peers * l - peers * k;
    if l != k { Scaled(peers, l - k); }
  }

  /** From its next consideration on, a recipient is back in the last window. */
  lemma AfterConsideration(y: nat, peers: nat)
    requires y < peers && peers > PACKETS_PER_TICK
    ensures Offset(y, peers, Wait(y, peers) + 1) == y % PACKETS_PER_TICK + peers - PACKETS_PER_TICK
  {
    hide Offset;
    var w := Wait(y, peers);
    OffsetLinear(y, peers, w);
    OffsetAdd(y, peers, w, 1);
    OffsetOnce(Offset(y, peers, w), peers);
  }

  lemma OffsetOnce(y: nat, peers: nat)
    requires y < peers
    ensures Offset(y, peers, 1) == Advance(y, peers)
  {
    assert Offset(Advance(y, peers), peers, 0) == Advance(y, peers);
  }

  lemma GapInLaps(x: nat, peers: nat, cadence: nat)
    requires x < PACKETS_PER_TICK < peers && cadence >= 1
    ensures
      var offset := x + peers - PACKETS_PER_TICK;
      var turned := x + peers * LapsToNext(x, peers, cadence);
      && NextGap(offset, peers, cadence) == turned / PACKETS_PER_TICK
      && Offset(offset, peers, NextGap(offset, peers, cadence)) == turned % PACKETS_PER_TICK + peers - PACKETS_PER_TICK
  {
    hide Offset, LapsToNext;
    var offset := x + peers - PACKETS_PER_TICK;
    var turned := x + peers * LapsToNext(x, peers, cadence);
    var y := turned - PACKETS_PER_TICK * cadence;
    PlaceWhenDue(x, peers, cadence);
    AfterConsideration(y, peers);
    OffsetAdd(offset, peers, cadence - 1, Wait(y, peers) + 1);
  }

  /** The exact gap for every crowd above one window: whole laps, turned one window a tick. */
  lemma {:induction false} GapsInLaps(x: nat, peers: nat, cadence: nat, v: nat)
    requires x < PACKETS_PER_TICK < peers && cadence >= 1
    ensures VisitTime(x + peers - PACKETS_PER_TICK, peers, cadence, v)
            == (x + peers * Laps(x, peers, cadence, v)) / PACKETS_PER_TICK
    decreases v
  {
    hide Offset, LapsToNext, NextGap;
    if v > 0 {
      var l := LapsToNext(x, peers, cadence);
      var turned := x + peers * l;
      GapInLaps(x, peers, cadence);
      GapsInLaps(turned % PACKETS_PER_TICK, peers, cadence, v - 1);
      var rest := Laps(turned % PACKETS_PER_TICK, peers, cadence, v - 1);
      TurnedFurther(x, peers, l, rest);
      assert Laps(x, peers, cadence, v) == l + rest;
    }
  }

  lemma TurnedFurther(x: nat, peers: nat, l: nat, rest: nat)
    ensures
      var turned := x + peers * l;
      turned / PACKETS_PER_TICK + (turned % PACKETS_PER_TICK + peers * rest) / PACKETS_PER_TICK
      == (x + peers * (l + rest)) / PACKETS_PER_TICK
  {
    assert peers * (l + rest) == peers * l + peers * rest;
    WholeTicks(x + peers * l, peers * rest);
  }

  lemma WholeTicks(turned: nat, more: nat)
    ensures turned / PACKETS_PER_TICK + (turned % PACKETS_PER_TICK + more) / PACKETS_PER_TICK == (turned + more) / PACKETS_PER_TICK
  {
  }

  /** The arithmetic test for starving: one window's worth of places to try, and no run of the scheduler. */
  predicate GapReaches(peers: nat, cadence: nat, expiry: nat)
    requires peers >= 2 && cadence >= 1
  {
    if peers <= PACKETS_PER_TICK then Chunks(Visible(peers)) * cadence >= expiry
    else
      exists x: nat :: x < PACKETS_PER_TICK &&
        (x + peers * Laps(x, peers, cadence, Chunks(Visible(peers)))) / PACKETS_PER_TICK >= expiry
  }

  /** For every crowd and every cadence: some recipient starves if and only if the laps say so. */
  lemma StarvesIff(peers: nat, cadence: nat, expiry: nat)
    requires peers >= 2 && cadence >= 1
    ensures Starves(peers, cadence, expiry) <==> GapReaches(peers, cadence, expiry)
  {
    hide VisitTime, Laps, Aligned;
    var v := Chunks(Visible(peers));
    if peers <= PACKETS_PER_TICK {
      SmallGap(0, peers, cadence);
      forall offset: nat | offset < peers ensures VisitTime(offset, peers, cadence, v) == v * cadence {
        EvenVisitTime(offset, peers, cadence, v);
      }
      assert VisitTime(0, peers, cadence, v) == v * cadence;
    } else {
      forall offset: nat | peers - PACKETS_PER_TICK <= offset < peers
        ensures
          var x: nat := offset - (peers - PACKETS_PER_TICK);
          VisitTime(offset, peers, cadence, v) == (x + peers * Laps(x, peers, cadence, v)) / PACKETS_PER_TICK
      {
        GapsInLaps(offset - (peers - PACKETS_PER_TICK), peers, cadence, v);
      }
      if GapReaches(peers, cadence, expiry) {
        var x: nat :| x < PACKETS_PER_TICK && (x + peers * Laps(x, peers, cadence, v)) / PACKETS_PER_TICK >= expiry;
        var offset := x + peers - PACKETS_PER_TICK;
        assert VisitTime(offset, peers, cadence, v) >= expiry;
      }
      if Starves(peers, cadence, expiry) {
        var offset: nat :| peers - Window(peers) <= offset < peers && VisitTime(offset, peers, cadence, v) >= expiry;
        var x: nat := offset - (peers - PACKETS_PER_TICK);
        assert (x + peers * Laps(x, peers, cadence, v)) / PACKETS_PER_TICK >= expiry;
      }
    }
  }

  /**
    * Validation checks the formula at the configured ceiling only. For every accepted configuration and every
    * crowd up to its ceiling: some recipient starves if and only if the laps of that crowd's own size reach the
    * expiry, and when the rounds are even, if and only if the formula put to that size does. Nothing about the
    * ceiling itself prevents it.
    */
  lemma AcceptedStarvesIff(ceiling: nat, tickHz: nat, snapshotHz: nat, peers: nat)
    requires Accepts(ceiling, tickHz, snapshotHz) && 2 <= peers <= ceiling
    ensures
      var cadence := TicksPerSnapshot(tickHz, snapshotHz);
      var expiry := CLIENT_EXPIRY_SECS * tickHz;
      && RecurrenceTicks(peers, cadence).Some?
      && (Starves(peers, cadence, expiry) <==> GapReaches(peers, cadence, expiry))
      && (EvenRounds(peers) ==> (Starves(peers, cadence, expiry) <==> RecurrenceTicks(peers, cadence).value >= expiry))
  {
    hide RecurrenceTicks, VisitTime, TicksPerSnapshot, GapReaches;
    var cadence := TicksPerSnapshot(tickHz, snapshotHz);
    CadenceFits(tickHz, snapshotHz);
    FormulaIsDefined(peers, cadence);
    StarvesIff(peers, cadence, CLIENT_EXPIRY_SECS * tickHz);
    if EvenRounds(peers) { EvenStarvesIff(peers, cadence, CLIENT_EXPIRY_SECS * tickHz); }
  }

  lemma EvenStarvesIff(peers: nat, cadence: nat, expiry: nat)
    requires peers >= 2 && cadence >= 1 && EvenRounds(peers) && RecurrenceTicks(peers, cadence).Some?
    ensures Starves(peers, cadence, expiry) <==> RecurrenceTicks(peers, cadence).value >= expiry
  {
    hide RecurrenceTicks, VisitTime;
    forall offset: nat | peers - Window(peers) <= offset < peers
      ensures VisitTime(offset, peers, cadence, Chunks(Visible(peers))) == RecurrenceTicks(peers, cadence).value
    {
      FormulaIsExact(offset, peers, cadence);
    }
    assert VisitTime(peers - 1, peers, cadence, Chunks(Visible(peers))) == RecurrenceTicks(peers, cadence).value;
  }

  /** It does happen: a ceiling of 224 peers at 7 ticks and one snapshot a second is accepted, and 192 peers starve. */
  lemma AcceptedConfigurationCanStarve()
    ensures Accepts(224, 7, 1) && EvenRounds(192) && 192 <= 224 && Starves(192, TicksPerSnapshot(7, 1), CLIENT_EXPIRY_SECS * 7)
  {
    AcceptedStarvesIff(224, 7, 1, 192);
  }

  /** A check that does cover every smaller crowd: the general bound at the ceiling. */
  lemma GeneralBoundCoversEveryCrowd(ceiling: nat, peers: nat, cadence: nat, offset: nat, expiry: nat)
    requires 2 <= peers <= ceiling && cadence >= 1 && offset < peers
    requires 3 * (cadence + Rounds(ceiling) - 1) < expiry
    ensures VisitTime(offset, peers, cadence, Chunks(Visible(peers))) < expiry
  {
    hide VisitTime;
    var chunks := Chunks(Visible(peers));
    VisitTimeBound(offset, peers, cadence, chunks);
    assert chunks <= 3 && Rounds(peers) <= Rounds(ceiling);
    var each := cadence + Rounds(peers) - 1;
    assert chunks * each <= 3 * each by { assert 3 * each - chunks * each == (3 - chunks) * each; }
  }
}
