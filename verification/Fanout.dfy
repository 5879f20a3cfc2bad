/**
  * Bounded fanout: chat lines in a FIFO queue and one coalescing clock slot, each delivered to the audience
  * captured when it was queued, under one scan budget a tick.
  *
  * `serial` fields are history: the identity of the job, and of the session a recipient was when captured.
  */
module Fanout {
  import opened Options
  import opened Numbers
  import opened OrderedSets
  import opened World

  const PAYLOAD_MAX := 1023
  const CHAT_QUEUE_ITEMS := 256
  const CHAT_QUEUE_BYTES := CHAT_QUEUE_ITEMS * PAYLOAD_MAX
  const DEFAULT_MAX_PEERS := 1024
  const FANOUT_QUEUE_RECIPIENTS := (CHAT_QUEUE_ITEMS + 1) * DEFAULT_MAX_PEERS

  datatype Recipient = Recipient(peer: nat, generation: nat, serial: nat)

  /** A captured audience, shared by reference; `arc` is the identity of the shared allocation. */
  datatype Audience = Audience(arc: nat, recipients: seq<Recipient>)

  datatype Job = Job(serial: nat, bytes: nat, cell: Option<Cell>, audience: Audience, next: nat)

  /** What fanout sees of a live session. */
  datatype Listener = Listener(generation: nat, serial: nat, cells: set<Cell>)

  datatype FanState = FanState(
    chats: seq<Job>, chatBytes: nat, clock: Option<Job>, cache: Option<Audience>, preferClock: bool,
    nextJob: nat, nextArc: nat)

  const NO_FANOUT := FanState([], 0, None, None, true, 0, 0)

  datatype Delivery = Delivery(job: nat, chat: bool, index: nat, recipient: Recipient, heardBy: nat)

  // ----- Invariants

  ghost predicate JobOk(j: Job, nextJob: nat) {
    && j.next < |j.audience.recipients| <= DEFAULT_MAX_PEERS
    && j.serial < nextJob
    && (forall a, b :: 0 <= a < b < |j.audience.recipients| ==>
          j.audience.recipients[a].peer != j.audience.recipients[b].peer)
  }

  function TotalBytes(jobs: seq<Job>): nat {
    if jobs == [] then 0 else jobs[0].bytes + TotalBytes(jobs[1..])
  }

  ghost predicate FanOk(f: FanState) {
    && |f.chats| <= CHAT_QUEUE_ITEMS
    && f.chatBytes == TotalBytes(f.chats)
    && (forall i :: 0 <= i < |f.chats| ==> JobOk(f.chats[i], f.nextJob) && f.chats[i].bytes <= PAYLOAD_MAX)
    && (forall i, j :: 0 <= i < j < |f.chats| ==> f.chats[i].serial < f.chats[j].serial)
    && (f.clock.Some? ==> JobOk(f.clock.value, f.nextJob))
    && (f.clock.Some? ==> forall i :: 0 <= i < |f.chats| ==> f.chats[i].serial != f.clock.value.serial)
  }

  lemma {:induction false} TotalBytesBound(jobs: seq<Job>)
    requires forall i :: 0 <= i < |jobs| ==> jobs[i].bytes <= PAYLOAD_MAX
    ensures TotalBytes(jobs) <= |jobs| * PAYLOAD_MAX
  {
    if jobs != [] { TotalBytesBound(jobs[1..]); }
  }

  lemma {:induction false} TotalBytesAppend(jobs: seq<Job>, j: Job)
    ensures TotalBytes(jobs + [j]) == TotalBytes(jobs) + j.bytes
  {
    if jobs == [] {
      assert [j][1..] == [] && jobs + [j] == [j];
    } else {
      assert (jobs + [j])[1..] == jobs[1..] + [j];
      TotalBytesAppend(jobs[1..], j);
    }
  }

  /** The queued payload never exceeds its byte bound, and below the item bound a full payload always fits. */
  lemma ChatBytesBounded(f: FanState)
    requires FanOk(f)
    ensures f.chatBytes <= CHAT_QUEUE_BYTES
    ensures |f.chats| < CHAT_QUEUE_ITEMS ==> f.chatBytes <= CHAT_QUEUE_BYTES - PAYLOAD_MAX
  {
    TotalBytesBound(f.chats);
  }

  /** No queued recipient can be mistaken for a session other than the one that was captured. */
  ghost predicate Faithful(recipients: seq<Recipient>, live: map<nat, Listener>, nextGen: nat) {
    forall i :: 0 <= i < |recipients| ==>
      var r := recipients[i];
      && r.generation <= nextGen
      && (r.peer in live && live[r.peer].generation == r.generation ==> live[r.peer].serial == r.serial)
  }

  ghost predicate QueuesFaithful(f: FanState, live: map<nat, Listener>, nextGen: nat) {
    && (forall i :: 0 <= i < |f.chats| ==> Faithful(f.chats[i].audience.recipients, live, nextGen))
    && (f.clock.Some? ==> Faithful(f.clock.value.audience.recipients, live, nextGen))
  }

  // ----- Capture

  function RecipientAt(peer: nat, live: map<nat, Listener>): Recipient
    requires peer in live
  {
    Recipient(peer, live[peer].generation, live[peer].serial)
  }

  lemma SortedMember(s: set<nat>, i: nat)
    requires i < |s|
    ensures Sorted(s)[i] in s
  {
    hide Sorted;
    assert Sorted(s)[i] in Sorted(s);
  }

  /** The audience a capture made now would have: every live session, in ascending peer order. */
  function FreshCapture(live: map<nat, Listener>): (r: seq<Recipient>)
    ensures |r| == |live|
  {
    hide Sorted;
    assert |live| == |live.Keys|;
    seq(|live|, i requires 0 <= i < |live| => SortedMember(live.Keys, i); RecipientAt(Sorted(live.Keys)[i], live))
  }

  /** A capture holds each live session exactly once, under its own generation. */
  lemma FreshCaptureHoldsAll(live: map<nat, Listener>)
    ensures forall i :: 0 <= i < |live| ==>
              FreshCapture(live)[i].peer in live && FreshCapture(live)[i] == RecipientAt(FreshCapture(live)[i].peer, live)
    ensures forall i, j :: 0 <= i < j < |live| ==> FreshCapture(live)[i].peer != FreshCapture(live)[j].peer
    ensures forall p :: p in live ==> RecipientAt(p, live) in FreshCapture(live)
  {
    hide Sorted;
    var peers, r := Sorted(live.Keys), FreshCapture(live);
    assert |live| == |live.Keys|;
    forall i | 0 <= i < |r| ensures r[i].peer == peers[i] && peers[i] in live { SortedMember(live.Keys, i); }
    forall p | p in live ensures RecipientAt(p, live) in r {
      var i :| 0 <= i < |peers| && peers[i] == p;
      assert r[i] == RecipientAt(p, live);
    }
  }

  function Audiences(f: FanState): seq<Audience> {
    (if f.cache.Some? then [f.cache.value] else [])
    + seq(|f.chats|, i requires 0 <= i < |f.chats| => f.chats[i].audience)
    + (if f.clock.Some? then [f.clock.value.audience] else [])
  }

  /** Entries retained over the distinct shared audiences. */
  function Retained(audiences: seq<Audience>, seen: set<nat>): nat
    decreases |audiences|
  {
    if audiences == [] then 0
    else if audiences[0].arc in seen then Retained(audiences[1..], seen)
    else |audiences[0].recipients| + Retained(audiences[1..], seen + {audiences[0].arc})
  }

  lemma {:induction false} RetainedBound(audiences: seq<Audience>, seen: set<nat>)
    requires forall i :: 0 <= i < |audiences| ==> |audiences[i].recipients| <= DEFAULT_MAX_PEERS
    ensures Retained(audiences, seen) <= |audiences| * DEFAULT_MAX_PEERS
    decreases |audiences|
  {
    if audiences != [] {
      RetainedBound(audiences[1..], seen);
      RetainedBound(audiences[1..], seen + {audiences[0].arc});
    }
  }

  function Capture(f: FanState, live: map<nat, Listener>): (FanState, Option<Audience>) {
    if f.cache.Some? then (f, f.cache)
    else
      var recipients := FreshCapture(live);
      if recipients == [] || Retained(Audiences(f), {}) + |recipients| > FANOUT_QUEUE_RECIPIENTS then (f, None)
      else
        var a := Audience(f.nextArc, recipients);
        (f.(cache := Some(a), nextArc := f.nextArc + 1), Some(a))
  }

  ghost predicate CacheOk(f: FanState, live: map<nat, Listener>) {
    f.cache.Some? ==> f.cache.value.recipients == FreshCapture(live) && live.Keys != {}
  }

  /**
    * Capturing always yields the audience a fresh capture would, cached or not; and with at most one slot
    * of the queues free the entry ceiling is never what refuses it.
    */
  lemma CaptureIsFresh(f: FanState, live: map<nat, Listener>)
    requires FanOk(f) && CacheOk(f, live) && |live| <= DEFAULT_MAX_PEERS
    requires |f.chats| + (if f.clock.Some? then 1 else 0) <= CHAT_QUEUE_ITEMS
    ensures
      var (r, a) := Capture(f, live);
      && (a.Some? <==> live != map[])
      && (a.Some? ==> a.value.recipients == FreshCapture(live) && r.cache == a)
      && CacheOk(r, live) && FanOk(r)
      && r == f.(cache := r.cache, nextArc := r.nextArc)
  {
    hide FreshCapture;
    assert |live| == |live.Keys|;
    if f.cache.None? {
      var all := Audiences(f);
      assert forall i :: 0 <= i < |all| ==> |all[i].recipients| <= DEFAULT_MAX_PEERS by {
        forall i | 0 <= i < |all| ensures |all[i].recipients| <= DEFAULT_MAX_PEERS {
          if i < |f.chats| { assert all[i] == f.chats[i].audience; } else { assert all[i] == f.clock.value.audience; }
        }
      }
      RetainedBound(all, {});
    }
  }

  // ----- Delivery

  predicate Hears(r: Recipient, cell: Option<Cell>, live: map<nat, Listener>) {
    && r.peer in live
    && live[r.peer].generation == r.generation
    && (cell.None? || cell.value in live[r.peer].cells)
  }

  datatype JobWork = JobWork(job: Job, scans: nat, sends: nat, delivered: seq<Delivery>)

  /** Deliver one job to its remaining recipients while both budgets last. */
  function RunJob(j: Job, chat: bool, live: map<nat, Listener>, scans: nat, sends: nat): (w: JobWork)
    requires j.next <= |j.audience.recipients|
    ensures w.job == j.(next := w.job.next) && j.next <= w.job.next <= |j.audience.recipients|
    decreases |j.audience.recipients| - j.next
  {
    if j.next == |j.audience.recipients| || scans == 0 || sends == 0 then JobWork(j, scans, sends, [])
    else
      var r := j.audience.recipients[j.next];
      var ok := Hears(r, j.cell, live);
      var w := RunJob(j.(next := j.next + 1), chat, live, scans - 1, if ok then sends - 1 else sends);
      w.(delivered := (if ok then [Delivery(j.serial, chat, j.next, r, live[r.peer].serial)] else []) + w.delivered)
  }

  datatype FanWork = FanWork(state: FanState, scans: nat, sends: nat, delivered: seq<Delivery>, completed: seq<bool>)

  predicate FromClock(f: FanState) {
    f.clock.Some? && (f.preferClock || f.chats == [])
  }

  function Waiting(f: FanState): nat {
    |f.chats| + if f.clock.Some? then 1 else 0
  }

  /** The queues once the chosen job has been run to its end. */
  function Finished(f: FanState): FanState
    requires f.clock.Some? || f.chats != []
  {
    if FromClock(f) then f.(clock := None, preferClock := false)
    else
      var bytes := f.chats[0].bytes;
      f.(chats := f.chats[1..], chatBytes := if bytes < f.chatBytes then f.chatBytes - bytes else 0, preferClock := true)
  }

  /** The queues once the chosen job has run out of budget and gone back to the front. */
  function Suspended(f: FanState, j: Job): FanState
    requires f.clock.Some? || f.chats != []
  {
    if FromClock(f) then f.(clock := Some(j)) else f.(chats := [j] + f.chats[1..])
  }

  function Chosen(f: FanState): Job
    requires f.clock.Some? || f.chats != []
  {
    if FromClock(f) then f.clock.value else f.chats[0]
  }

  /** One tick of fanout; `completed` lists the finished jobs, `true` for the clock. */
  function Process(f: FanState, live: map<nat, Listener>, scans: nat, sends: nat): FanWork
    requires FanOk(f)
    decreases Waiting(f)
  {
    if scans == 0 || sends == 0 || Waiting(f) == 0 then FanWork(f, scans, sends, [], [])
    else
      var w := RunJob(Chosen(f), !FromClock(f), live, scans, sends);
      if w.job.next == |w.job.audience.recipients| then
        FinishedOk(f);
        var rest := Process(Finished(f), live, w.scans, w.sends);
        rest.(delivered := w.delivered + rest.delivered, completed := [FromClock(f)] + rest.completed)
      else FanWork(Suspended(f, w.job), w.scans, w.sends, w.delivered, [])
  }

  lemma FinishedOk(f: FanState)
    requires FanOk(f) && Waiting(f) > 0
    ensures FanOk(Finished(f)) && Waiting(Finished(f)) < Waiting(f)
  {
  }

  lemma SuspendedOk(f: FanState, j: Job)
    requires FanOk(f) && Waiting(f) > 0
    requires j == Chosen(f).(next := j.next) && j.next < |j.audience.recipients|
    ensures FanOk(Suspended(f, j))
  {
    if !FromClock(f) { assert ([j] + f.chats[1..])[1..] == f.chats[1..]; }
  }

  lemma {:induction false} ProcessOk(f: FanState, live: map<nat, Listener>, scans: nat, sends: nat)
    requires FanOk(f)
    ensures FanOk(Process(f, live, scans, sends).state)
    ensures
      var r := Process(f, live, scans, sends).state;
      r.cache == f.cache && r.nextJob == f.nextJob && r.nextArc == f.nextArc && |r.chats| <= |f.chats|
    decreases Waiting(f)
  {
    hide FanOk, RunJob;
    if !(scans == 0 || sends == 0 || Waiting(f) == 0) {
      ChosenOk(f);
      var w := RunJob(Chosen(f), !FromClock(f), live, scans, sends);
      if w.job.next == |w.job.audience.recipients| {
        FinishedOk(f);
        ProcessOk(Finished(f), live, w.scans, w.sends);
      } else {
        SuspendedOk(f, w.job);
      }
    }
  }

  lemma ChosenOk(f: FanState)
    requires FanOk(f) && Waiting(f) > 0
    ensures JobOk(Chosen(f), f.nextJob)
  {
  }

  // ----- Draining

  function Left(j: Job): nat
    requires j.next <= |j.audience.recipients|
  {
    |j.audience.recipients| - j.next
  }

  ghost function LeftIn(jobs: seq<Job>): nat
    requires forall i :: 0 <= i < |jobs| ==> jobs[i].next <= |jobs[i].audience.recipients|
  {
    if jobs == [] then 0 else Left(jobs[0]) + LeftIn(jobs[1..])
  }

  /** Recipients not yet scanned, over all queued jobs. */
  ghost function Outstanding(f: FanState): nat
    requires FanOk(f)
  {
    LeftIn(f.chats) + if f.clock.Some? then Left(f.clock.value) else 0
  }

  lemma {:induction false} RunJobDrains(j: Job, chat: bool, live: map<nat, Listener>, scans: nat, sends: nat)
    requires j.next <= |j.audience.recipients| && scans <= sends
    ensures
      var w := RunJob(j, chat, live, scans, sends);
      && w.scans == scans - Min(scans, Left(j)) && w.scans <= w.sends
      && w.job.next == j.next + Min(scans, Left(j))
    decreases |j.audience.recipients| - j.next
  {
    if j.next < |j.audience.recipients| && scans > 0 {
      var ok := Hears(j.audience.recipients[j.next], j.cell, live);
      RunJobDrains(j.(next := j.next + 1), chat, live, scans - 1, if ok then sends - 1 else sends);
    }
  }

  lemma OutstandingSplit(f: FanState)
    requires FanOk(f) && Waiting(f) > 0
    ensures FanOk(Finished(f)) && Outstanding(f) == Left(Chosen(f)) + Outstanding(Finished(f))
    ensures Left(Chosen(f)) > 0
  {
    FinishedOk(f);
  }

  /** One tick with equal budgets scans exactly as much as there is, or as much as it may. */
  lemma {:induction false} TickDrains(f: FanState, live: map<nat, Listener>, scans: nat, sends: nat)
    requires FanOk(f) && scans <= sends
    ensures Process(f, live, scans, sends).scans == scans - Min(scans, Outstanding(f))
    decreases Waiting(f)
  {
    hide FanOk, RunJob, Finished, Suspended;
    if scans > 0 && Waiting(f) > 0 {
      OutstandingSplit(f);
      ChosenOk(f);
      FinishedOk(f);
      RunJobDrains(Chosen(f), !FromClock(f), live, scans, sends);
      var w := RunJob(Chosen(f), !FromClock(f), live, scans, sends);
      if w.job.next == |w.job.audience.recipients| { TickDrains(Finished(f), live, w.scans, w.sends); }
    } else if Waiting(f) == 0 {
      NothingOutstanding(f);
    }
  }

  lemma NothingOutstanding(f: FanState)
    requires FanOk(f) && Waiting(f) == 0
    ensures Outstanding(f) == 0
  {
  }

  /** How many chat jobs may still finish before a pending clock does. */
  function Patience(f: FanState): nat {
    if f.preferClock then 0 else 1
  }

  function ChatsBeforeClock(completed: seq<bool>): nat {
    if completed == [] || completed[0] then 0 else 1 + ChatsBeforeClock(completed[1..])
  }

  /**
    * In one tick a pending clock is overtaken by at most as many chat jobs as the queues have patience for, and
    * if it is still pending afterwards, what is left of that patience has gone down by those that overtook it.
    */
  lemma {:induction false} ClockIsOvertakenAtMostOnce(f: FanState, live: map<nat, Listener>, scans: nat, sends: nat)
    requires FanOk(f) && f.clock.Some?
    ensures
      var w := Process(f, live, scans, sends);
      && ChatsBeforeClock(w.completed) <= Patience(f)
      && (true !in w.completed ==>
            w.state.clock.Some? && ChatsBeforeClock(w.completed) + Patience(w.state) <= Patience(f))
    decreases Waiting(f)
  {
    hide FanOk, RunJob;
    if !(scans == 0 || sends == 0) {
      ChosenOk(f);
      var w := RunJob(Chosen(f), !FromClock(f), live, scans, sends);
      if w.job.next == |w.job.audience.recipients| {
        FinishedOk(f);
        var rest := Process(Finished(f), live, w.scans, w.sends);
        assert ([FromClock(f)] + rest.completed)[1..] == rest.completed;
        if !FromClock(f) {
          ClockIsOvertakenAtMostOnce(Finished(f), live, w.scans, w.sends);
        }
      }
    }
  }

  function ChatPatience(f: FanState): nat {
    if f.preferClock then 1 else 0
  }

  function ClocksBeforeChat(completed: seq<bool>): nat {
    if completed == [] || !completed[0] then 0 else 1 + ClocksBeforeChat(completed[1..])
  }

  /** And the other way round: waiting chats are overtaken by at most one clock before one of them completes. */
  lemma {:induction false} ChatIsOvertakenAtMostOnce(f: FanState, live: map<nat, Listener>, scans: nat, sends: nat)
    requires FanOk(f) && f.chats != []
    ensures
      var w := Process(f, live, scans, sends);
      && ClocksBeforeChat(w.completed) <= ChatPatience(f)
      && (false !in w.completed ==>
            w.state.chats != [] && ClocksBeforeChat(w.completed) + ChatPatience(w.state) <= ChatPatience(f))
    decreases Waiting(f)
  {
    hide FanOk, RunJob;
    if !(scans == 0 || sends == 0) {
      ChosenOk(f);
      var w := RunJob(Chosen(f), !FromClock(f), live, scans, sends);
      if w.job.next == |w.job.audience.recipients| {
        FinishedOk(f);
        var rest := Process(Finished(f), live, w.scans, w.sends);
        assert ([FromClock(f)] + rest.completed)[1..] == rest.completed;
        if FromClock(f) {
          ChatIsOvertakenAtMostOnce(Finished(f), live, w.scans, w.sends);
        }
      }
    }
  }

  // ----- Shared audiences

  /** While both queues wait, the audience kept for reuse is that of the job queued last, so it costs nothing extra. */
  predicate Snug(f: FanState) {
    f.cache.Some? && f.clock.Some? && f.chats != [] ==>
      f.cache.value.arc == f.clock.value.audience.arc || f.cache.value.arc == f.chats[|f.chats| - 1].audience.arc
  }

  lemma {:induction false} ProcessSnug(f: FanState, live: map<nat, Listener>, scans: nat, sends: nat)
    requires FanOk(f) && Snug(f)
    ensures Snug(Process(f, live, scans, sends).state)
    decreases Waiting(f)
  {
    hide FanOk, RunJob;
    if !(scans == 0 || sends == 0 || Waiting(f) == 0) {
      ChosenOk(f);
      var w := RunJob(Chosen(f), !FromClock(f), live, scans, sends);
      if w.job.next == |w.job.audience.recipients| {
        FinishedOk(f);
        ProcessSnug(Finished(f), live, w.scans, w.sends);
      }
    }
  }

  /** The audience is kept for reuse or that of a queued job. */
  predicate Uses(f: FanState, a: Audience) {
    || f.cache == Some(a) || (f.clock.Some? && f.clock.value.audience == a)
    || exists i :: 0 <= i < |f.chats| && f.chats[i].audience == a
  }

  /** Allocations are told apart: one identity, one audience. */
  ghost predicate ArcsOk(f: FanState) {
    && (forall a :: Uses(f, a) ==> a.arc < f.nextArc)
    && (forall a, b :: Uses(f, a) && Uses(f, b) && a.arc == b.arc ==> a == b)
  }

  lemma FewerUses(f: FanState, g: FanState)
    requires ArcsOk(f) && g.nextArc == f.nextArc && forall a :: Uses(g, a) ==> Uses(f, a)
    ensures ArcsOk(g)
  {
    hide Uses;
  }

  lemma FinishedUses(f: FanState, a: Audience)
    requires Waiting(f) > 0 && Uses(Finished(f), a)
    ensures Uses(f, a)
  {
    if !FromClock(f) && exists i :: 0 <= i < |f.chats[1..]| && f.chats[1..][i].audience == a {
      var i :| 0 <= i < |f.chats[1..]| && f.chats[1..][i].audience == a;
      assert f.chats[i + 1].audience == a;
    }
  }

  lemma SuspendedUses(f: FanState, j: Job, a: Audience)
    requires Waiting(f) > 0 && j == Chosen(f).(next := j.next) && Uses(Suspended(f, j), a)
    ensures Uses(f, a)
  {
    if !FromClock(f) && exists i :: 0 <= i < |f.chats| && ([j] + f.chats[1..])[i].audience == a {
      var i :| 0 <= i < |f.chats| && ([j] + f.chats[1..])[i].audience == a;
      assert f.chats[i].audience == a;
    }
  }

  lemma {:induction false} ProcessArcs(f: FanState, live: map<nat, Listener>, scans: nat, sends: nat)
    requires FanOk(f) && ArcsOk(f)
    ensures ArcsOk(Process(f, live, scans, sends).state)
    decreases Waiting(f)
  {
    hide FanOk, RunJob, ArcsOk, Uses;
    if !(scans == 0 || sends == 0 || Waiting(f) == 0) {
      ChosenOk(f);
      var w := RunJob(Chosen(f), !FromClock(f), live, scans, sends);
      if w.job.next == |w.job.audience.recipients| {
        FinishedOk(f);
        forall a | Uses(Finished(f), a) ensures Uses(f, a) { FinishedUses(f, a); }
        FewerUses(f, Finished(f));
        ProcessArcs(Finished(f), live, w.scans, w.sends);
      } else {
        forall a | Uses(Suspended(f, w.job), a) ensures Uses(f, a) { SuspendedUses(f, w.job, a); }
        FewerUses(f, Suspended(f, w.job));
      }
    }
  }

  /** A capture is told apart from every audience in use, unless it is one of them. */
  lemma CaptureArcs(f: FanState, live: map<nat, Listener>)
    requires ArcsOk(f)
    ensures
      var (r, a) := Capture(f, live);
      ArcsOk(r) && (a.Some? ==> r.cache == a)
  {
    hide FreshCapture, Retained, Audiences;
  }

  lemma {:induction false} RetainedSeen(audiences: seq<Audience>, seen: set<nat>, k: nat)
    requires forall i :: 0 <= i < |audiences| ==> |audiences[i].recipients| <= DEFAULT_MAX_PEERS
    requires k < |audiences| && audiences[k].arc in seen
    ensures Retained(audiences, seen) <= (|audiences| - 1) * DEFAULT_MAX_PEERS
    decreases |audiences|
  {
    if k == 0 {
      RetainedBound(audiences[1..], seen);
    } else {
      assert audiences[1..][k - 1] == audiences[k];
      RetainedSeen(audiences[1..], seen, k - 1);
      RetainedSeen(audiences[1..], seen + {audiences[0].arc}, k - 1);
    }
  }

  lemma AudiencesFit(f: FanState, live: map<nat, Listener>)
    requires FanOk(f) && CacheOk(f, live) && |live| <= DEFAULT_MAX_PEERS
    ensures forall i :: 0 <= i < |Audiences(f)| ==> |Audiences(f)[i].recipients| <= DEFAULT_MAX_PEERS
  {
    hide FreshCapture, TotalBytes;
    var all, first := Audiences(f), if f.cache.Some? then 1 else 0;
    forall i | 0 <= i < |all| ensures |all[i].recipients| <= DEFAULT_MAX_PEERS {
      if first <= i < first + |f.chats| { assert all[i] == f.chats[i - first].audience; }
    }
  }

  lemma SharedAt(f: FanState) returns (k: nat)
    requires f.cache.Some? && f.clock.Some? && f.chats != [] && Snug(f)
    ensures 0 < k < |Audiences(f)| == |f.chats| + 2 && Audiences(f)[k].arc == Audiences(f)[0].arc
  {
    var all, n := Audiences(f), |f.chats|;
    assert all[0] == f.cache.value && all[n] == f.chats[n - 1].audience && all[n + 1] == f.clock.value.audience;
    k := if f.cache.value.arc == f.clock.value.audience.arc then n + 1 else n;
  }

  lemma AudienceCount(f: FanState)
    ensures |Audiences(f)| == |f.chats| + (if f.cache.Some? then 1 else 0) + (if f.clock.Some? then 1 else 0)
  {
  }

  lemma {:induction false} RetainedAgain(audiences: seq<Audience>, k: nat)
    requires forall i :: 0 <= i < |audiences| ==> |audiences[i].recipients| <= DEFAULT_MAX_PEERS
    requires 0 < k < |audiences| && audiences[k].arc == audiences[0].arc
    ensures Retained(audiences, {}) <= (|audiences| - 1) * DEFAULT_MAX_PEERS
  {
    assert audiences[1..][k - 1] == audiences[k];
    RetainedSeen(audiences[1..], {} + {audiences[0].arc}, k - 1);
  }

  /** So the entries retained over the distinct audiences stay within their ceiling, whatever is queued. */
  lemma RetainedIsBounded(f: FanState, live: map<nat, Listener>)
    requires FanOk(f) && CacheOk(f, live) && Snug(f) && |live| <= DEFAULT_MAX_PEERS
    ensures Retained(Audiences(f), {}) <= FANOUT_QUEUE_RECIPIENTS
  {
    hide CacheOk, FreshCapture, Audiences, Retained, FanOk, Snug;
    AudiencesFit(f, live);
    AudienceCount(f);
    QueueFits(f);
    if f.cache.Some? && f.clock.Some? && f.chats != [] {
      var k := SharedAt(f);
      RetainedAgain(Audiences(f), k);
    } else {
      RetainedBound(Audiences(f), {});
    }
  }

  lemma QueueFits(f: FanState)
    requires FanOk(f)
    ensures |f.chats| <= CHAT_QUEUE_ITEMS
  {
  }

  // ----- The delivery log

  /**
    * The log so far, against the queues still to come: a queued job has been delivered only below its
    * cursor, no chat in the queue is older than one already heard, no job reached a peer twice, and every
    * delivery was heard by the session that was captured.
    */
  ghost predicate LogOk(log: seq<Delivery>, f: FanState) {
    LogBehindQueues(log, f) && LogSound(log)
  }

  ghost predicate LogSound(log: seq<Delivery>) {
    && (forall i, j :: 0 <= i < j < |log| && log[i].job == log[j].job ==>
          log[i].index != log[j].index && log[i].recipient.peer != log[j].recipient.peer)
    && (forall i, j :: 0 <= i < j < |log| && log[i].chat && log[j].chat ==> log[i].job <= log[j].job)
    && (forall i :: 0 <= i < |log| ==> log[i].recipient.serial == log[i].heardBy)
  }

  /** If this delivery is one of a job's, the job is past it. */
  ghost predicate Behind(d: Delivery, j: Job) {
    d.job == j.serial ==>
      d.index < j.next && d.index < |j.audience.recipients| && d.recipient == j.audience.recipients[d.index]
  }

  ghost predicate LogBehindQueues(log: seq<Delivery>, f: FanState) {
    && (forall i :: 0 <= i < |log| ==> log[i].job < f.nextJob)
    && (forall i, c :: 0 <= i < |log| && 0 <= c < |f.chats| ==>
          Behind(log[i], f.chats[c]) && (log[i].chat ==> log[i].job <= f.chats[c].serial))
    && (f.clock.Some? ==> forall i :: 0 <= i < |log| ==> Behind(log[i], f.clock.value))
  }

  /** A delivery of this job, at a recipient between two cursors, to the session that was captured. */
  ghost predicate IsEntry(d: Delivery, j: Job, chat: bool, upTo: nat) {
    && d.job == j.serial && d.chat == chat
    && j.next <= d.index < upTo <= |j.audience.recipients|
    && d.recipient == j.audience.recipients[d.index]
    && d.recipient.serial == d.heardBy
  }

  ghost predicate AreEntries(ds: seq<Delivery>, j: Job, chat: bool, upTo: nat) {
    && (forall i :: 0 <= i < |ds| ==> IsEntry(ds[i], j, chat, upTo))
    && (forall a, b :: 0 <= a < b < |ds| ==> ds[a].index < ds[b].index)
  }

  lemma ConsEntries(head: seq<Delivery>, rest: seq<Delivery>, j: Job, chat: bool, upTo: nat)
    requires j.next < |j.audience.recipients| && j.next < upTo && AreEntries(rest, j.(next := j.next + 1), chat, upTo)
    requires |head| <= 1 && (head != [] ==> IsEntry(head[0], j, chat, j.next + 1))
    requires upTo <= |j.audience.recipients|
    ensures AreEntries(head + rest, j, chat, upTo)
  {
    var j1 := j.(next := j.next + 1);
    var ds := head + rest;
    forall i | 0 <= i < |ds| ensures IsEntry(ds[i], j, chat, upTo) {
      if i >= |head| { assert IsEntry(rest[i - |head|], j1, chat, upTo); }
    }
    forall a, b | 0 <= a < b < |ds| ensures ds[a].index < ds[b].index {
      assert IsEntry(rest[b - |head|], j1, chat, upTo);
    }
  }

  /** What one job's run adds to the log. */
  lemma {:induction false} RunJobLog(j: Job, chat: bool, live: map<nat, Listener>, nextGen: nat, scans: nat, sends: nat)
    requires j.next <= |j.audience.recipients| && Faithful(j.audience.recipients, live, nextGen)
    ensures
      var w := RunJob(j, chat, live, scans, sends);
      AreEntries(w.delivered, j, chat, w.job.next)
    decreases |j.audience.recipients| - j.next
  {
    hide AreEntries;
    if j.next == |j.audience.recipients| || scans == 0 || sends == 0 {
      NoEntries(j, chat, j.next);
    } else {
      var r := j.audience.recipients[j.next];
      var ok := Hears(r, j.cell, live);
      var j1 := j.(next := j.next + 1);
      RunJobLog(j1, chat, live, nextGen, scans - 1, if ok then sends - 1 else sends);
      var rest := RunJob(j1, chat, live, scans - 1, if ok then sends - 1 else sends);
      var head := if ok then [Delivery(j.serial, chat, j.next, r, live[r.peer].serial)] else [];
      ConsEntries(head, rest.delivered, j, chat, rest.job.next);
    }
  }

  lemma NoEntries(j: Job, chat: bool, upTo: nat)
    ensures AreEntries([], j, chat, upTo)
  {
  }

  lemma AppendLog(log: seq<Delivery>, f: FanState, j: Job, next: nat, more: seq<Delivery>)
    requires FanOk(f) && Waiting(f) > 0 && LogOk(log, f) && j == Chosen(f)
    requires AreEntries(more, j, !FromClock(f), next)
    ensures LogSound(log + more)
  {
    var l := log + more;
    ChosenOk(f);
    assert forall d :: d in log ==> Behind(d, j);
    forall i, k | 0 <= i < k < |l|
      ensures l[i].job == l[k].job ==> l[i].index != l[k].index && l[i].recipient.peer != l[k].recipient.peer
      ensures l[i].chat && l[k].chat ==> l[i].job <= l[k].job
    {
      if i >= |log| {
        assert IsEntry(more[i - |log|], j, !FromClock(f), next) && IsEntry(more[k - |log|], j, !FromClock(f), next);
      } else if k >= |log| {
        assert IsEntry(more[k - |log|], j, !FromClock(f), next);
        assert log[i] in log;
        if !FromClock(f) { assert f.chats[0] == j; }
      }
    }
    forall i | 0 <= i < |l| ensures l[i].recipient.serial == l[i].heardBy {
      if i >= |log| { assert IsEntry(more[i - |log|], j, !FromClock(f), next); }
    }
  }

  lemma FinishedLog(log: seq<Delivery>, f: FanState, next: nat, more: seq<Delivery>)
    requires FanOk(f) && Waiting(f) > 0 && LogOk(log, f)
    requires AreEntries(more, Chosen(f), !FromClock(f), next)
    ensures LogBehindQueues(log + more, Finished(f))
  {
    var l, r, j := log + more, Finished(f), Chosen(f);
    forall i, c | 0 <= i < |l| && 0 <= c < |r.chats|
      ensures Behind(l[i], r.chats[c])
      ensures l[i].chat ==> l[i].job <= r.chats[c].serial
    {
      var c' := if FromClock(f) then c else c + 1;
      assert r.chats[c] == f.chats[c'];
      if i >= |log| { assert IsEntry(more[i - |log|], j, !FromClock(f), next); }
    }
    forall i | 0 <= i < |l| ensures l[i].job < r.nextJob {
      if i >= |log| { assert IsEntry(more[i - |log|], j, !FromClock(f), next); ChosenOk(f); }
    }
    if r.clock.Some? {
      forall i | 0 <= i < |l| ensures Behind(l[i], r.clock.value) {
        assert i >= |log| ==> IsEntry(more[i - |log|], j, !FromClock(f), next);
      }
    }
  }

  lemma SuspendedLog(log: seq<Delivery>, f: FanState, j: Job, more: seq<Delivery>)
    requires FanOk(f) && Waiting(f) > 0 && LogOk(log, f)
    requires j == Chosen(f).(next := j.next) && Chosen(f).next <= j.next < |j.audience.recipients|
    requires AreEntries(more, Chosen(f), !FromClock(f), j.next)
    ensures LogBehindQueues(log + more, Suspended(f, j))
  {
    var l, r := log + more, Suspended(f, j);
    forall i, c | 0 <= i < |l| && 0 <= c < |r.chats|
      ensures Behind(l[i], r.chats[c])
      ensures l[i].chat ==> l[i].job <= r.chats[c].serial
    {
      assert f.chats[c].serial == r.chats[c].serial && f.chats[c].next <= r.chats[c].next;
      if i >= |log| { assert IsEntry(more[i - |log|], Chosen(f), !FromClock(f), j.next); }
    }
    forall i | 0 <= i < |l| ensures l[i].job < r.nextJob {
      if i >= |log| { assert IsEntry(more[i - |log|], Chosen(f), !FromClock(f), j.next); ChosenOk(f); }
    }
    if r.clock.Some? {
      forall i | 0 <= i < |l| ensures Behind(l[i], r.clock.value) {
        if i >= |log| { assert IsEntry(more[i - |log|], Chosen(f), !FromClock(f), j.next); }
      }
    }
  }

  lemma FinishedFaithful(f: FanState, live: map<nat, Listener>, nextGen: nat)
    requires QueuesFaithful(f, live, nextGen) && Waiting(f) > 0
    ensures QueuesFaithful(Finished(f), live, nextGen)
    ensures Faithful(Chosen(f).audience.recipients, live, nextGen)
  {
    hide Faithful;
  }

  lemma SuspendedFaithful(f: FanState, j: Job, live: map<nat, Listener>, nextGen: nat)
    requires QueuesFaithful(f, live, nextGen) && Waiting(f) > 0 && j == Chosen(f).(next := j.next)
    ensures QueuesFaithful(Suspended(f, j), live, nextGen)
  {
    hide Faithful;
    FinishedFaithful(f, live, nextGen);
  }

  /**
    * Identity, at-most-once and FIFO: whatever a tick delivers goes to the very session that was captured,
    * to no recipient twice, and in queue order for chat.
    */
  lemma {:induction false} ProcessKeepsLog(log: seq<Delivery>, f: FanState, live: map<nat, Listener>, nextGen: nat,
                                          scans: nat, sends: nat)
    requires FanOk(f) && LogOk(log, f) && QueuesFaithful(f, live, nextGen)
    ensures
      var w := Process(f, live, scans, sends);
      LogOk(log + w.delivered, w.state) && QueuesFaithful(w.state, live, nextGen)
    decreases Waiting(f)
  {
    hide FanOk, RunJob, LogBehindQueues, LogSound, QueuesFaithful, Faithful, AreEntries, Finished, Suspended;
    if scans == 0 || sends == 0 || Waiting(f) == 0 {
      assert log + [] == log;
    } else {
      ChosenOk(f);
      FinishedFaithful(f, live, nextGen);
      RunJobLog(Chosen(f), !FromClock(f), live, nextGen, scans, sends);
      var w := RunJob(Chosen(f), !FromClock(f), live, scans, sends);
      AppendLog(log, f, Chosen(f), w.job.next, w.delivered);
      if w.job.next == |w.job.audience.recipients| {
        FinishedOk(f);
        FinishedLog(log, f, w.job.next, w.delivered);
        ProcessKeepsLog(log + w.delivered, Finished(f), live, nextGen, w.scans, w.sends);
        var rest := Process(Finished(f), live, w.scans, w.sends);
        assert log + (w.delivered + rest.delivered) == (log + w.delivered) + rest.delivered;
      } else {
        SuspendedLog(log, f, w.job, w.delivered);
        SuspendedFaithful(f, w.job, live, nextGen);
      }
    }
  }
}
