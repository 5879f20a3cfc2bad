/** What a fanout tick delivers, exactly: every listener it passes, and nobody else. */
module FanoutExactness {
  import opened Options
  import opened World
  import opened Fanout

  ghost predicate Sent(ds: seq<Delivery>, job: nat, index: nat) {
    exists k :: 0 <= k < |ds| && ds[k].job == job && ds[k].index == index
  }

  lemma SentConcat(a: seq<Delivery>, b: seq<Delivery>, job: nat, index: nat)
    ensures Sent(a + b, job, index) <==> Sent(a, job, index) || Sent(b, job, index)
  {
    if Sent(a, job, index) {
      var k :| 0 <= k < |a| && a[k].job == job && a[k].index == index;
      assert (a + b)[k] == a[k];
    } else if Sent(b, job, index) {
      var k :| 0 <= k < |b| && b[k].job == job && b[k].index == index;
      assert (a + b)[|a| + k] == b[k];
    }
  }

  /** All of these are deliveries of one job. */
  ghost predicate OnlyJob(ds: seq<Delivery>, job: nat) {
    forall k :: 0 <= k < |ds| ==> ds[k].job == job
  }

  /** This recipient of the job was passed between two cursors and hears it. */
  ghost predicate Due(j: Job, index: nat, upTo: nat, live: map<nat, Listener>) {
    j.next <= index < upTo && index < |j.audience.recipients| && Hears(j.audience.recipients[index], j.cell, live)
  }

  /** Running one job sends to each recipient it passes that hears it, and to no other. */
  lemma {:induction false} RunJobExact(j: Job, chat: bool, live: map<nat, Listener>, scans: nat, sends: nat, index: nat)
    requires j.next <= |j.audience.recipients|
    ensures
      var w := RunJob(j, chat, live, scans, sends);
      OnlyJob(w.delivered, j.serial) && (Sent(w.delivered, j.serial, index) <==> Due(j, index, w.job.next, live))
    decreases |j.audience.recipients| - j.next
  {
    hide Hears, Sent;
    if j.next == |j.audience.recipients| || scans == 0 || sends == 0 {
      NothingSent(j.serial, index);
    } else {
      var r := j.audience.recipients[j.next];
      var ok := Hears(r, j.cell, live);
      var j1 := j.(next := j.next + 1);
      RunJobExact(j1, chat, live, scans - 1, if ok then sends - 1 else sends, index);
      var rest := RunJob(j1, chat, live, scans - 1, if ok then sends - 1 else sends);
      if ok {
        HeardPeer(r, j.cell, live);
        var d := Delivery(j.serial, chat, j.next, r, live[r.peer].serial);
        SentConcat([d], rest.delivered, j.serial, index);
        OneSent(d, j.serial, index);
      } else {
        assert [] + rest.delivered == rest.delivered;
      }
    }
  }

  lemma HeardPeer(r: Recipient, cell: Option<Cell>, live: map<nat, Listener>)
    requires Hears(r, cell, live)
    ensures r.peer in live
  {
  }

  lemma NothingSent(job: nat, index: nat)
    ensures !Sent([], job, index)
  {
  }

  lemma OneSent(d: Delivery, job: nat, index: nat)
    ensures Sent([d], job, index) <==> d.job == job && d.index == index
  {
    assert [d][0] == d;
  }

  lemma NotSent(ds: seq<Delivery>, job: nat, other: nat, index: nat)
    requires OnlyJob(ds, other) && job != other
    ensures !Sent(ds, job, index)
  {
  }

  // ----- Where a job stands

  predicate Among(jobs: seq<Job>, serial: nat) {
    exists k :: 0 <= k < |jobs| && jobs[k].serial == serial
  }

  predicate HasJob(f: FanState, serial: nat) {
    (f.clock.Some? && f.clock.value.serial == serial) || Among(f.chats, serial)
  }

  function CursorIn(jobs: seq<Job>, serial: nat, done: nat): nat {
    if jobs == [] then done else if jobs[0].serial == serial then jobs[0].next else CursorIn(jobs[1..], serial, done)
  }

  /** How far a job has been delivered: its cursor while it is queued, its whole audience once it has gone. */
  function CursorOf(f: FanState, j: Job): nat {
    if f.clock.Some? && f.clock.value.serial == j.serial then f.clock.value.next
    else CursorIn(f.chats, j.serial, |j.audience.recipients|)
  }

  predicate Queued(f: FanState, j: Job) {
    j in f.chats || f.clock == Some(j)
  }

  lemma {:induction false} CursorAbsent(jobs: seq<Job>, serial: nat, done: nat)
    requires !Among(jobs, serial)
    ensures CursorIn(jobs, serial, done) == done
  {
    if jobs != [] {
      assert forall k :: 0 <= k < |jobs[1..]| ==> jobs[1..][k] == jobs[k + 1];
      CursorAbsent(jobs[1..], serial, done);
    }
  }

  lemma {:induction false} CursorPresent(jobs: seq<Job>, j: Job, done: nat)
    requires j in jobs && forall a, b :: 0 <= a < b < |jobs| ==> jobs[a].serial < jobs[b].serial
    ensures CursorIn(jobs, j.serial, done) == j.next
  {
    if jobs[0] != j {
      var k :| 0 <= k < |jobs| && jobs[k] == j;
      assert jobs[1..][k - 1] == j && jobs[0].serial < jobs[k].serial;
      CursorPresent(jobs[1..], j, done);
    }
  }

  lemma CursorOfQueued(f: FanState, j: Job)
    requires FanOk(f) && Queued(f, j)
    ensures CursorOf(f, j) == j.next
  {
    if f.clock != Some(j) {
      var k :| 0 <= k < |f.chats| && f.chats[k] == j;
      CursorPresent(f.chats, j, |j.audience.recipients|);
    }
  }

  lemma CursorOfGone(f: FanState, j: Job)
    requires !HasJob(f, j.serial)
    ensures CursorOf(f, j) == |j.audience.recipients|
  {
    CursorAbsent(f.chats, j.serial, |j.audience.recipients|);
  }

  /** Once its turn is over, a finished job is not in the queues, and the others are as they were. */
  lemma FinishedJobs(f: FanState, j: Job)
    requires FanOk(f) && Waiting(f) > 0
    ensures !HasJob(Finished(f), Chosen(f).serial)
    ensures Queued(f, j) && j != Chosen(f) ==> Queued(Finished(f), j) && j.serial != Chosen(f).serial
    ensures forall n :: HasJob(Finished(f), n) ==> HasJob(f, n)
  {
    var r := Finished(f);
    if !FromClock(f) {
      assert forall k :: 0 <= k < |r.chats| ==> r.chats[k] == f.chats[k + 1];
      assert f.chats == [f.chats[0]] + f.chats[1..];
    }
  }

  lemma SuspendedJobs(f: FanState, w: Job, j: Job)
    requires FanOk(f) && Waiting(f) > 0 && w == Chosen(f).(next := w.next)
    ensures Queued(Suspended(f, w), w)
    ensures Queued(f, j) && j != Chosen(f) ==> Queued(Suspended(f, w), j) && j.serial != Chosen(f).serial
    ensures forall n :: HasJob(Suspended(f, w), n) ==> HasJob(f, n)
  {
    FinishedJobs(f, j);
    var r := Suspended(f, w);
    if !FromClock(f) {
      assert r.chats[0] == w && r.chats[1..] == f.chats[1..];
      assert forall k :: 0 < k < |r.chats| ==> r.chats[k] == f.chats[k];
    }
  }

  lemma ChosenIsQueued(f: FanState)
    requires Waiting(f) > 0
    ensures Queued(f, Chosen(f)) && HasJob(f, Chosen(f).serial)
  {
  }

  lemma {:induction false} ProcessJobs(f: FanState, live: map<nat, Listener>, scans: nat, sends: nat, job: nat, index: nat)
    requires FanOk(f) && !HasJob(f, job)
    ensures
      var w := Process(f, live, scans, sends);
      !Sent(w.delivered, job, index) && !HasJob(w.state, job)
    decreases Waiting(f)
  {
    hide FanOk, RunJob, Finished, Suspended, Sent, HasJob, Chosen, OnlyJob;
    if scans == 0 || sends == 0 || Waiting(f) == 0 {
      NothingSent(job, index);
    } else {
      ChosenOk(f);
      ChosenIsQueued(f);
      var c := Chosen(f);
      var w := RunJob(c, !FromClock(f), live, scans, sends);
      RunJobExact(c, !FromClock(f), live, scans, sends, index);
      NotSent(w.delivered, job, c.serial, index);
      FinishedOk(f);
      if w.job.next == |w.job.audience.recipients| {
        FinishedJobs(f, c);
        ProcessJobs(Finished(f), live, w.scans, w.sends, job, index);
        SentConcat(w.delivered, Process(Finished(f), live, w.scans, w.sends).delivered, job, index);
      } else {
        SuspendedJobs(f, w.job, c);
      }
    }
  }

  /** The tick's account of one job: sent to those between its old and its new cursor that hear it. */
  ghost predicate ExactFor(j: Job, w: FanWork, live: map<nat, Listener>, index: nat) {
    Sent(w.delivered, j.serial, index) <==> Due(j, index, CursorOf(w.state, j), live)
  }

  lemma NothingDue(j: Job, live: map<nat, Listener>, index: nat)
    ensures !Due(j, index, j.next, live)
  {
  }

  /**
    * A whole tick, for every job in the queues and every recipient of it: the recipient is sent the job if and
    * only if the tick passed it and it hears the job, being the captured session, still live, and in range of
    * the cell it was spoken in.
    */
  lemma {:induction false} TickDeliversExactly(f: FanState, live: map<nat, Listener>, scans: nat, sends: nat, j: Job, index: nat)
    requires FanOk(f) && Queued(f, j)
    ensures ExactFor(j, Process(f, live, scans, sends), live, index)
    decreases Waiting(f)
  {
    hide FanOk, RunJob, Finished, Suspended, Sent, HasJob, Chosen, OnlyJob, Due, CursorOf, Queued;
    if scans == 0 || sends == 0 || Waiting(f) == 0 {
      NothingSent(j.serial, index);
      CursorOfQueued(f, j);
      NothingDue(j, live, index);
    } else {
      ChosenOk(f);
      FinishedOk(f);
      FinishedJobs(f, j);
      var c := Chosen(f);
      var w := RunJob(c, !FromClock(f), live, scans, sends);
      RunJobExact(c, !FromClock(f), live, scans, sends, index);
      if j != c { NotSent(w.delivered, j.serial, c.serial, index); }
      if w.job.next == |w.job.audience.recipients| {
        var rest := Process(Finished(f), live, w.scans, w.sends);
        SentConcat(w.delivered, rest.delivered, j.serial, index);
        if j == c {
          ProcessJobs(Finished(f), live, w.scans, w.sends, j.serial, index);
          CursorOfGone(rest.state, j);
        } else {
          TickDeliversExactly(Finished(f), live, w.scans, w.sends, j, index);
        }
      } else {
        SuspendedJobs(f, w.job, j);
        SuspendedOk(f, w.job);
        if j == c {
          CursorOfQueued(Suspended(f, w.job), w.job);
          SameCursor(Suspended(f, w.job), j, w.job);
        } else {
          CursorOfQueued(Suspended(f, w.job), j);
          NothingDue(j, live, index);
        }
      }
    }
  }

  lemma SameCursor(f: FanState, j: Job, k: Job)
    requires j.serial == k.serial && j.audience == k.audience
    ensures CursorOf(f, j) == CursorOf(f, k)
  {
  }
}
