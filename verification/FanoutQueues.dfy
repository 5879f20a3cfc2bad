/** The imperative fanout queues, proved against the functions of `Fanout`. */
module FanoutQueues {
  import opened Options
  import opened OrderedSets
  import opened World
  import opened Fanout

  lemma RunJobStep(j: Job, chat: bool, live: map<nat, Listener>, scans: nat, sends: nat)
    requires j.next < |j.audience.recipients| && scans > 0 && sends > 0
    ensures
      var r := j.audience.recipients[j.next];
      var w := RunJob(j, chat, live, scans, sends);
      var ok := Hears(r, j.cell, live);
      var rest := RunJob(j.(next := j.next + 1), chat, live, scans - 1, if ok then sends - 1 else sends);
      && w.job == rest.job && w.scans == rest.scans && w.sends == rest.sends
      && w.delivered == (if ok then [Delivery(j.serial, chat, j.next, r, live[r.peer].serial)] else []) + rest.delivered
  {
  }

  lemma RunJobStop(j: Job, chat: bool, live: map<nat, Listener>, scans: nat, sends: nat)
    requires j.next <= |j.audience.recipients|
    requires j.next == |j.audience.recipients| || scans == 0 || sends == 0
    ensures RunJob(j, chat, live, scans, sends) == JobWork(j, scans, sends, [])
  {
  }

  /** `all` is what has been delivered and completed so far, followed by `rest`. */
  ghost predicate Linked(all: FanWork, delivered: seq<Delivery>, completed: seq<bool>, rest: FanWork) {
    && all.state == rest.state && all.scans == rest.scans && all.sends == rest.sends
    && all.delivered == delivered + rest.delivered && all.completed == completed + rest.completed
  }

  lemma LinkedThen(all: FanWork, d1: seq<Delivery>, c1: seq<bool>, mid: FanWork, d2: seq<Delivery>, c2: seq<bool>, rest: FanWork)
    requires Linked(all, d1, c1, mid) && Linked(mid, d2, c2, rest)
    ensures Linked(all, d1 + d2, c1 + c2, rest)
  {
  }

  lemma LinkedStart(all: FanWork)
    ensures Linked(all, [], [], all)
  {
  }

  lemma LinkedEnd(all: FanWork, d1: seq<Delivery>, c1: seq<bool>, rest: FanWork)
    requires Linked(all, d1, c1, rest)
    ensures all == FanWork(rest.state, rest.scans, rest.sends, d1 + rest.delivered, c1 + rest.completed)
  {
  }

  lemma ProcessStep(f: FanState, live: map<nat, Listener>, scans: nat, sends: nat, w: JobWork)
    requires FanOk(f) && scans > 0 && sends > 0 && Waiting(f) > 0
    requires Chosen(f).next <= |Chosen(f).audience.recipients| && w == RunJob(Chosen(f), !FromClock(f), live, scans, sends)
    ensures FanOk(Finished(f))
    ensures
      var all := Process(f, live, scans, sends);
      var rest := Process(Finished(f), live, w.scans, w.sends);
      if w.job.next == |w.job.audience.recipients| then Linked(all, w.delivered, [FromClock(f)], rest)
      else all == FanWork(Suspended(f, w.job), w.scans, w.sends, w.delivered, [])
  {
    hide FanOk, RunJob, Finished, Suspended, Chosen, FromClock;
    FinishedOk(f);
  }

  lemma ChosenNext(f: FanState)
    requires FanOk(f) && Waiting(f) > 0
    ensures f.clock.Some? || f.chats != []
    ensures Chosen(f).next <= |Chosen(f).audience.recipients|
  {
  }

  /** The queues while the chosen job is out of them. */
  ghost function Taken(f: FanState): FanState
    requires Waiting(f) > 0
  {
    if FromClock(f) then f.(clock := None) else f.(chats := f.chats[1..])
  }

  lemma ProcessStop(f: FanState, live: map<nat, Listener>, scans: nat, sends: nat)
    requires FanOk(f) && (scans == 0 || sends == 0 || Waiting(f) == 0)
    ensures Process(f, live, scans, sends) == FanWork(f, scans, sends, [], [])
  {
  }

  class Queues {
    var chats: seq<Job>
    var chatBytes: nat
    var clock: Option<Job>
    var cache: Option<Audience>
    var preferClock: bool
    var nextJob: nat
    var nextArc: nat

    ghost function View(): FanState
      reads this
    {
      FanState(chats, chatBytes, clock, cache, preferClock, nextJob, nextArc)
    }

    constructor ()
      ensures View() == NO_FANOUT && FanOk(View())
    {
      chats, chatBytes, clock, cache := [], 0, None, None;
      preferClock, nextJob, nextArc := true, 0, 0;
    }

    /** Every recipient that is still a live session, in ascending peer order, up to the peer ceiling. */
    static method LiveRecipients(order: set<nat>, live: map<nat, Listener>, maxPeers: nat) returns (recipients: seq<Recipient>)
      requires order == live.Keys && |live| <= maxPeers
      ensures recipients == FreshCapture(live)
    {
      hide Sorted;
      var peers := Sorted(order);
      recipients := [];
      assert |live| == |live.Keys|;
      for i := 0 to |peers|
        invariant |recipients| == i
        invariant forall k :: 0 <= k < i ==> recipients[k] == FreshCapture(live)[k]
      {
        SortedMember(live.Keys, i);
        if peers[i] in live && |recipients| < maxPeers {
          recipients := recipients + [Recipient(peers[i], live[peers[i]].generation, live[peers[i]].serial)];
        }
      }
    }

    /** Entries retained by the distinct audiences of the cache and the queues. */
    method RetainedEntries() returns (entries: nat)
      ensures entries == Retained(Audiences(View()), {})
    {
      var audiences := Audiences(FanState(chats, chatBytes, clock, cache, preferClock, nextJob, nextArc));
      var seen := {};
      entries := 0;
      assert audiences[0..] == audiences;
      for i := 0 to |audiences|
        invariant Retained(audiences, {}) == entries + Retained(audiences[i..], seen)
      {
        assert audiences[i..][1..] == audiences[i + 1..];
        if audiences[i].arc !in seen {
          seen := seen + {audiences[i].arc};
          entries := entries + |audiences[i].recipients|;
        }
      }
    }

    method CaptureRecipients(order: set<nat>, live: map<nat, Listener>, maxPeers: nat) returns (audience: Option<Audience>)
      requires order == live.Keys && |live| <= maxPeers
      modifies this
      ensures (View(), audience) == Capture(old(View()), live)
    {
      hide FreshCapture, Retained, Audiences;
      if cache.Some? { return cache; }
      var recipients := LiveRecipients(order, live, maxPeers);
      var entries := RetainedEntries();
      if recipients == [] || entries + |recipients| > FANOUT_QUEUE_RECIPIENTS { return None; }
      cache := Some(Audience(nextArc, recipients));
      nextArc := nextArc + 1;
      audience := cache;
    }

    /** Deliver one job while both budgets last. */
    static method RunOne(start: Job, chat: bool, live: map<nat, Listener>, scanBudget: nat, sendBudget: nat)
      returns (job: Job, scans: nat, sends: nat, delivered: seq<Delivery>)
      requires start.next <= |start.audience.recipients|
      ensures scans <= scanBudget && sends <= sendBudget
      ensures JobWork(job, scanBudget - scans, sendBudget - sends, delivered) == RunJob(start, chat, live, scanBudget, sendBudget)
    {
      hide RunJob;
      job, scans, sends, delivered := start, 0, 0, [];
      ghost var all := RunJob(start, chat, live, scanBudget, sendBudget);
      while job.next < |job.audience.recipients| && scans < scanBudget && sends < sendBudget
        invariant scans <= scanBudget && sends <= sendBudget
        invariant job == start.(next := job.next) && job.next <= |job.audience.recipients|
        invariant
          var rest := RunJob(job, chat, live, scanBudget - scans, sendBudget - sends);
          && all.job == rest.job && all.scans == rest.scans && all.sends == rest.sends
          && all.delivered == delivered + rest.delivered
        decreases |job.audience.recipients| - job.next
      {
        RunJobStep(job, chat, live, scanBudget - scans, sendBudget - sends);
        var index := job.next;
        var recipient := job.audience.recipients[index];
        job := job.(next := index + 1);
        scans := scans + 1;
        if Hears(recipient, job.cell, live) {
          delivered := delivered + [Delivery(job.serial, chat, index, recipient, live[recipient.peer].serial)];
          sends := sends + 1;
        }
      }
      RunJobStop(job, chat, live, scanBudget - scans, sendBudget - sends);
    }

    method TakeJob() returns (job: Option<Job>, fromClock: bool)
      modifies this
      ensures Waiting(old(View())) == 0 ==> job.None? && View() == old(View())
      ensures Waiting(old(View())) > 0 ==> job == Some(Chosen(old(View()))) && View() == Taken(old(View()))
      ensures fromClock == FromClock(old(View()))
      ensures job.None? ==> clock.None? && chats == []
    {
      fromClock := clock.Some? && (preferClock || chats == []);
      if fromClock {
        job, clock := clock, None;
      } else if chats != [] {
        job, chats := Some(chats[0]), chats[1..];
      } else {
        job := None;
      }
    }

    /** Account for a job that was run: finished for good, or back to the front for the next tick. */
    method Settle(ghost before: FanState, job: Job, fromClock: bool) returns (done: bool)
      requires Waiting(before) > 0 && View() == Taken(before) && fromClock == FromClock(before)
      requires job == Chosen(before).(next := job.next)
      modifies this
      ensures done == (job.next == |job.audience.recipients|)
      ensures View() == if done then Finished(before) else Suspended(before, job)
    {
      done := job.next == |job.audience.recipients|;
      if done {
        if fromClock {
          preferClock := false;
        } else {
          chatBytes := if job.bytes < chatBytes then chatBytes - job.bytes else 0;
          preferClock := true;
        }
      } else {
        if fromClock { clock := Some(job); } else { chats := [job] + chats; }
      }
    }

    /** One tick of fanout. The branch that flips the preference without taking a job is dead. */
    method ProcessFanoutWork(live: map<nat, Listener>, scanBudget: nat, sendBudget: nat)
      returns (scans: nat, sends: nat, delivered: seq<Delivery>, completed: seq<bool>)
      requires FanOk(View())
      modifies this
      ensures scans <= scanBudget && sends <= sendBudget
      ensures FanWork(View(), scanBudget - scans, sendBudget - sends, delivered, completed)
              == Process(old(View()), live, scanBudget, sendBudget)
      ensures FanOk(View())
    {
      hide FanOk, RunJob, Process, Finished, Suspended, Taken, Chosen, FromClock, Waiting, Linked;
      scans, sends, delivered, completed := 0, 0, [], [];
      ghost var all := Process(View(), live, scanBudget, sendBudget);
      assert Linked(all, [], [], all) by { LinkedStart(all); }
      while scans < scanBudget && sends < sendBudget
        invariant FanOk(View()) && scans <= scanBudget && sends <= sendBudget
        invariant Linked(all, delivered, completed, Process(View(), live, scanBudget - scans, sendBudget - sends))
        decreases Waiting(View())
      {
        ghost var before := View();
        var taken, fromClock := TakeJob();
        if taken.None? {
          if clock.None? && chats == [] { break; }
          assert false;
        }
        ChosenNext(before);
        FinishedOk(before);
        ProcessStep(before, live, scanBudget - scans, sendBudget - sends,
                    RunJob(taken.value, !fromClock, live, scanBudget - scans, sendBudget - sends));
        var job, scanned, sent, heard := RunOne(taken.value, !fromClock, live, scanBudget - scans, sendBudget - sends);
        var done := Settle(before, job, fromClock);
        ghost var mid := Process(before, live, scanBudget - scans, sendBudget - sends);
        scans, sends := scans + scanned, sends + sent;
        if !done {
          SuspendedOk(before, job);
          LinkedEnd(all, delivered, completed, mid);
          delivered := delivered + heard;
          return;
        }
        LinkedThen(all, delivered, completed, mid, heard, [fromClock],
                   Process(View(), live, scanBudget - scans, sendBudget - sends));
        delivered, completed := delivered + heard, completed + [fromClock];
      }
      ProcessStop(View(), live, scanBudget - scans, sendBudget - sends);
      LinkedEnd(all, delivered, completed, Process(View(), live, scanBudget - scans, sendBudget - sends));
    }
  }
}
