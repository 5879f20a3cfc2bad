/**
  * The gold ledger over its in-memory store: every balance is a fold of the commit log, and a resend of a
  * committed transaction is invisible except for its own reply.
  */
module Economy {
  import opened Options
  import opened Numbers

  function CheckedAdd(a: int, b: int): Option<int> {
    if I64_MIN <= a + b <= I64_MAX then Some(a + b) else None
  }

  datatype Reason = Fresh | Duplicate | Insufficient | OutOfRange | InvalidPrice

  // ----- Ledger

  datatype Txn = Txn(id: nat, amount: int, kind: nat, note: string)

  datatype RecordedTxn = RecordedTxn(player: nat, newBalance: int)

  datatype LogEntry = LogEntry(player: nat, txn: Txn, newBalance: int)

  datatype MemStore = MemStore(balances: map<nat, int>, txns: map<nat, RecordedTxn>, log: seq<LogEntry>)

  datatype LedgerAck = LedgerAck(id: nat, accepted: bool, balance: int, reason: Reason)

  function Balance(s: MemStore, player: nat): int {
    BalanceIn(s.balances, player)
  }

  function Commit(s: MemStore, player: nat, txn: Txn, newBalance: int): MemStore {
    MemStore(s.balances[player := newBalance], s.txns[txn.id := RecordedTxn(player, newBalance)],
             s.log + [LogEntry(player, txn, newBalance)])
  }

  function ApplyTxn(s: MemStore, player: nat, txn: Txn): (MemStore, LedgerAck) {
    if txn.id in s.txns then (s, LedgerAck(txn.id, true, s.txns[txn.id].newBalance, Duplicate))
    else
      var balance := Balance(s, player);
      match CheckedAdd(balance, txn.amount)
      case Some(n) =>
        if n >= 0 then (Commit(s, player, txn, n), LedgerAck(txn.id, true, n, Fresh))
        else (s, LedgerAck(txn.id, false, balance, Insufficient))
      case None => (s, LedgerAck(txn.id, false, balance, OutOfRange))
  }

  class Ledger {
    var balances: map<nat, int>
    var txns: map<nat, RecordedTxn>
    var log: seq<LogEntry>

    ghost function View(): MemStore
      reads this
    {
      MemStore(balances, txns, log)
    }

    constructor ()
      ensures View() == MemStore(map[], map[], [])
    {
      balances, txns, log := map[], map[], [];
    }

    method Apply(player: nat, txn: Txn) returns (ack: LedgerAck)
      modifies this
      ensures (View(), ack) == ApplyTxn(old(View()), player, txn)
    {
      if txn.id in txns { return LedgerAck(txn.id, true, txns[txn.id].newBalance, Duplicate); }
      var balance := if player in balances then balances[player] else 0;
      var sum := CheckedAdd(balance, txn.amount);
      if sum.None? { return LedgerAck(txn.id, false, balance, OutOfRange); }
      if sum.value < 0 { return LedgerAck(txn.id, false, balance, Insufficient); }
      balances := balances[player := sum.value];
      txns := txns[txn.id := RecordedTxn(player, sum.value)];
      log := log + [LogEntry(player, txn, sum.value)];
      ack := LedgerAck(txn.id, true, sum.value, Fresh);
    }
  }

  /** The sum of one player's logged amounts. */
  function Sum(log: seq<LogEntry>, player: nat): int {
    if log == [] then 0
    else
      var last := log[|log| - 1];
      Sum(log[..|log| - 1], player) + if last.player == player then last.txn.amount else 0
  }

  function BalanceIn(balances: map<nat, int>, player: nat): int {
    if player in balances then balances[player] else 0
  }

  /** Every balance is the fold of the log, and so is every balance recorded in it. */
  ghost predicate BalancesOk(balances: map<nat, int>, log: seq<LogEntry>) {
    && (forall p :: BalanceIn(balances, p) == Sum(log, p) && 0 <= BalanceIn(balances, p) <= I64_MAX)
    && (forall i :: 0 <= i < |log| ==> log[i].newBalance == Sum(log[..i + 1], log[i].player))
  }

  /** Ids are logged once, and the dedup table records exactly what was committed. */
  ghost predicate DedupOk(txns: map<nat, RecordedTxn>, log: seq<LogEntry>) {
    && (forall i, j :: 0 <= i < j < |log| ==> log[i].txn.id != log[j].txn.id)
    && (forall i :: 0 <= i < |log| ==>
          log[i].txn.id in txns && txns[log[i].txn.id] == RecordedTxn(log[i].player, log[i].newBalance))
    && (forall id :: id in txns ==> exists i :: 0 <= i < |log| && log[i].txn.id == id)
  }

  ghost predicate LedgerOk(s: MemStore) {
    BalancesOk(s.balances, s.log) && DedupOk(s.txns, s.log)
  }

  lemma SumAppend(log: seq<LogEntry>, e: LogEntry, player: nat)
    ensures Sum(log + [e], player) == Sum(log, player) + if e.player == player then e.txn.amount else 0
  {
    assert (log + [e])[..|log|] == log;
  }

  lemma CommitBalances(balances: map<nat, int>, log: seq<LogEntry>, e: LogEntry)
    requires BalancesOk(balances, log)
    requires e.newBalance == BalanceIn(balances, e.player) + e.txn.amount && 0 <= e.newBalance <= I64_MAX
    ensures BalancesOk(balances[e.player := e.newBalance], log + [e])
  {
    hide Sum;
    var b, l := balances[e.player := e.newBalance], log + [e];
    forall p ensures BalanceIn(b, p) == Sum(l, p) && 0 <= BalanceIn(b, p) <= I64_MAX {
      SumAppend(log, e, p);
      assert BalanceIn(balances, p) == Sum(log, p);
    }
    forall i | 0 <= i < |l| ensures l[i].newBalance == Sum(l[..i + 1], l[i].player) {
      if i < |log| { assert l[..i + 1] == log[..i + 1]; } else { assert l[..i + 1] == l; }
    }
  }

  lemma CommitDedup(txns: map<nat, RecordedTxn>, log: seq<LogEntry>, e: LogEntry)
    requires DedupOk(txns, log) && e.txn.id !in txns
    ensures DedupOk(txns[e.txn.id := RecordedTxn(e.player, e.newBalance)], log + [e])
  {
    var t, l := txns[e.txn.id := RecordedTxn(e.player, e.newBalance)], log + [e];
    forall id | id in t ensures exists i :: 0 <= i < |l| && l[i].txn.id == id {
      if id == e.txn.id {
        assert l[|log|].txn.id == id;
      } else {
        var i :| 0 <= i < |log| && log[i].txn.id == id;
        assert l[i].txn.id == id;
      }
    }
  }

  lemma ApplyTxnOk(s: MemStore, player: nat, txn: Txn)
    requires LedgerOk(s)
    ensures LedgerOk(ApplyTxn(s, player, txn).0)
  {
    hide BalancesOk, DedupOk;
    if ApplyTxn(s, player, txn).1.reason == Fresh {
      var e := LogEntry(player, txn, Balance(s, player) + txn.amount);
      CommitBalances(s.balances, s.log, e);
      CommitDedup(s.txns, s.log, e);
    }
  }

  /**
    * What a new id does, exactly: it is accepted if and only if the balance stays within zero and the 64-bit
    * maximum, and then the balance moves by just that amount and the log gains just that entry; otherwise
    * nothing changes.
    */
  lemma FreshTxnAcceptedIff(s: MemStore, player: nat, txn: Txn)
    requires txn.id !in s.txns
    ensures
      var (r, ack) := ApplyTxn(s, player, txn);
      var next := Balance(s, player) + txn.amount;
      && (ack.accepted <==> 0 <= next <= I64_MAX)
      && (ack.accepted ==> r.log == s.log + [LogEntry(player, txn, next)] && Balance(r, player) == ack.balance == next)
      && (!ack.accepted ==> r == s && ack.balance == Balance(s, player))
      && ack.id == txn.id
      && ack.reason == (if ack.accepted then Fresh else if I64_MIN <= next < 0 then Insufficient else OutOfRange)
      && (forall other :: other != player ==> Balance(r, other) == Balance(s, other))
  {
  }

  datatype Request = Request(player: nat, txn: Txn)

  function RunLedger(s: MemStore, requests: seq<Request>): (MemStore, seq<LedgerAck>)
    decreases |requests|
  {
    if requests == [] then (s, [])
    else
      var (s1, ack) := ApplyTxn(s, requests[0].player, requests[0].txn);
      var (r, acks) := RunLedger(s1, requests[1..]);
      (r, [ack] + acks)
  }

  /** The economy as a fold, for every request sequence. */
  lemma {:induction false} LedgerIsFold(s: MemStore, requests: seq<Request>)
    requires LedgerOk(s)
    ensures LedgerOk(RunLedger(s, requests).0)
    decreases |requests|
  {
    hide ApplyTxn, LedgerOk;
    if requests != [] {
      ApplyTxnOk(s, requests[0].player, requests[0].txn);
      LedgerIsFold(ApplyTxn(s, requests[0].player, requests[0].txn).0, requests[1..]);
    }
  }

  // ----- Resends

  datatype Arrival = Arrival(request: Request, resend: bool)

  /** Each arrival flagged as a resend carries the id of a transaction committed before it arrives. */
  predicate ResendsOk(s: MemStore, arrivals: seq<Arrival>)
    decreases |arrivals|
  {
    if arrivals == [] then true
    else
      var a := arrivals[0];
      && (a.resend ==> a.request.txn.id in s.txns)
      && ResendsOk(ApplyTxn(s, a.request.player, a.request.txn).0, arrivals[1..])
  }

  function AllRequests(arrivals: seq<Arrival>): seq<Request> {
    if arrivals == [] then [] else [arrivals[0].request] + AllRequests(arrivals[1..])
  }

  function Originals(arrivals: seq<Arrival>): seq<Request> {
    if arrivals == [] then [] else (if arrivals[0].resend then [] else [arrivals[0].request]) + Originals(arrivals[1..])
  }

  /** The replies to the originals, out of the replies to everything. */
  function OriginalAcks(arrivals: seq<Arrival>, acks: seq<LedgerAck>): seq<LedgerAck>
    requires |arrivals| == |acks|
    decreases |arrivals|
  {
    if arrivals == [] then [] else (if arrivals[0].resend then [] else [acks[0]]) + OriginalAcks(arrivals[1..], acks[1..])
  }

  /** Each resend is answered with what was recorded when its transaction was committed. */
  ghost predicate ResendsAnswered(s: MemStore, arrivals: seq<Arrival>, acks: seq<LedgerAck>)
    requires |arrivals| == |acks|
  {
    forall i :: 0 <= i < |arrivals| && arrivals[i].resend ==>
      var id := arrivals[i].request.txn.id;
      id in s.txns && acks[i] == LedgerAck(id, true, s.txns[id].newBalance, Duplicate)
  }

  lemma TxnsGrow(s: MemStore, player: nat, txn: Txn, id: nat)
    requires id in s.txns
    ensures
      var r := ApplyTxn(s, player, txn).0;
      id in r.txns && r.txns[id] == s.txns[id]
  {
  }

  lemma {:induction false} TxnsGrowOverRuns(s: MemStore, requests: seq<Request>, id: nat)
    requires id in s.txns
    ensures
      var r := RunLedger(s, requests).0;
      id in r.txns && r.txns[id] == s.txns[id]
    decreases |requests|
  {
    hide ApplyTxn;
    if requests != [] {
      TxnsGrow(s, requests[0].player, requests[0].txn, id);
      TxnsGrowOverRuns(ApplyTxn(s, requests[0].player, requests[0].txn).0, requests[1..], id);
    }
  }

  /**
    * Insensitivity to retries: resends inserted anywhere after their commit change no balance, no log
    * and no other reply, and each is answered with the recorded result.
    */
  lemma {:induction false} ResendsAreInvisible(s: MemStore, arrivals: seq<Arrival>)
    requires ResendsOk(s, arrivals)
    ensures
      var (all, acks) := RunLedger(s, AllRequests(arrivals));
      var (plain, plainAcks) := RunLedger(s, Originals(arrivals));
      && |acks| == |arrivals|
      && all == plain
      && OriginalAcks(arrivals, acks) == plainAcks
      && ResendsAnswered(all, arrivals, acks)
    decreases |arrivals|
  {
    hide ApplyTxn;
    if arrivals != [] {
      var a := arrivals[0];
      var (s1, ack) := ApplyTxn(s, a.request.player, a.request.txn);
      var rest := arrivals[1..];
      ResendsAreInvisible(s1, rest);
      assert AllRequests(arrivals)[1..] == AllRequests(rest);
      var (all, acks) := RunLedger(s, AllRequests(arrivals));
      assert acks[1..] == RunLedger(s1, AllRequests(rest)).1;
      if a.resend {
        ReplayIsIdentity(s, a.request);
        TxnsGrowOverRuns(s1, AllRequests(rest), a.request.txn.id);
        assert Originals(arrivals) == Originals(rest);
      } else {
        assert Originals(arrivals)[1..] == Originals(rest);
      }
      AnsweredCons(all, arrivals, acks);
    }
  }

  lemma ReplayIsIdentity(s: MemStore, r: Request)
    requires r.txn.id in s.txns
    ensures ApplyTxn(s, r.player, r.txn) == (s, LedgerAck(r.txn.id, true, s.txns[r.txn.id].newBalance, Duplicate))
  {
  }

  lemma AnsweredCons(s: MemStore, arrivals: seq<Arrival>, acks: seq<LedgerAck>)
    requires |arrivals| == |acks| > 0 && ResendsAnswered(s, arrivals[1..], acks[1..])
    requires arrivals[0].resend ==>
      var id := arrivals[0].request.txn.id;
      id in s.txns && acks[0] == LedgerAck(id, true, s.txns[id].newBalance, Duplicate)
    ensures ResendsAnswered(s, arrivals, acks)
  {
    forall i | 0 < i < |arrivals| && arrivals[i].resend
      ensures
        var id := arrivals[i].request.txn.id;
        id in s.txns && acks[i] == LedgerAck(id, true, s.txns[id].newBalance, Duplicate)
    {
      assert arrivals[1..][i - 1] == arrivals[i] && acks[1..][i - 1] == acks[i];
    }
  }

  // ----- Accepted is not always applied

  /** This very transaction of this player is in the log. */
  ghost predicate Applied(log: seq<LogEntry>, player: nat, txn: Txn) {
    exists i :: 0 <= i < |log| && log[i].player == player && log[i].txn == txn
  }

  /** The id was never spent on another player's transaction, or on another one of this player. */
  ghost predicate IdUncontested(log: seq<LogEntry>, player: nat, txn: Txn) {
    forall i :: 0 <= i < |log| && log[i].txn.id == txn.id ==> log[i].player == player && log[i].txn == txn
  }

  /**
    * Deduplication is by id alone, so an accepted reply means that the transaction was applied, now or before,
    * if and only if its id was not spent on something else. For every consistent store and every request.
    */
  lemma AcceptedIsAppliedIff(s: MemStore, player: nat, txn: Txn)
    requires LedgerOk(s)
    ensures
      var (r, ack) := ApplyTxn(s, player, txn);
      ack.accepted ==> (Applied(r.log, player, txn) <==> IdUncontested(s.log, player, txn))
  {
    hide BalancesOk;
    var (r, ack) := ApplyTxn(s, player, txn);
    if txn.id in s.txns {
      var i :| 0 <= i < |s.log| && s.log[i].txn.id == txn.id;
      if Applied(s.log, player, txn) {
        var k :| 0 <= k < |s.log| && s.log[k].player == player && s.log[k].txn == txn;
        forall j | 0 <= j < |s.log| && s.log[j].txn.id == txn.id ensures j == k {
          assert s.log[j].txn.id == s.log[k].txn.id;
        }
      }
    } else if ack.accepted {
      assert r.log[|s.log|].player == player && r.log[|s.log|].txn == txn;
      assert forall j :: 0 <= j < |s.log| ==> s.log[j].txn.id in s.txns;
    }
  }

  /** Two players, one id: both are told they were accepted, and the second keeps an empty balance. */
  lemma SharedIdIsNotApplied(id: nat)
    ensures
      var (r, acks) := RunLedger(MemStore(map[], map[], []), [Request(1, Txn(id, 50, 0, "")), Request(2, Txn(id, 50, 0, ""))]);
      && |acks| == 2 && acks[0].accepted && acks[1].accepted && acks[1].balance == 50
      && Balance(r, 1) == 50 && Balance(r, 2) == 0 && !Applied(r.log, 2, Txn(id, 50, 0, ""))
  {
    var none := MemStore(map[], map[], []);
    var first, second := Request(1, Txn(id, 50, 0, "")), Request(2, Txn(id, 50, 0, ""));
    var s1 := ApplyTxn(none, 1, first.txn).0;
    RunLedgerStep(none, first, [second]);
    RunLedgerStep(s1, second, []);
    assert [first] + [second] == [first, second] && [second] + [] == [second];
  }

  lemma RunLedgerStep(s: MemStore, r: Request, rest: seq<Request>)
    ensures
      var (s1, ack) := ApplyTxn(s, r.player, r.txn);
      && RunLedger(s, [r] + rest).0 == RunLedger(s1, rest).0
      && RunLedger(s, [r] + rest).1 == [ack] + RunLedger(s1, rest).1
  {
    assert ([r] + rest)[1..] == rest;
  }
}
