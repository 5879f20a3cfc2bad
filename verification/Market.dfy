/** The shared port market: stock is the fold of logged quantities, the price is the last one logged. */
module Market {
  import opened Options
  import opened Numbers
  import opened Economy

  datatype Trade = Trade(id: nat, port: nat, item: nat, qty: int, unitPrice: int)

  datatype RecordedTrade = RecordedTrade(port: nat, item: nat, stock: int, price: int)

  datatype TradeEntry = TradeEntry(trade: Trade, stock: int, price: int)

  datatype MarketStore = MarketStore(
    state: map<(nat, nat), (int, int)>, trades: map<nat, RecordedTrade>, log: seq<TradeEntry>)

  datatype MarketAck = MarketAck(id: nat, accepted: bool, port: nat, item: nat, stock: int, price: int, reason: Reason)

  function StateOf(s: MarketStore, port: nat, item: nat): (int, int) {
    StateIn(s.state, port, item)
  }

  function CommitTrade(s: MarketStore, t: Trade, stock: int): MarketStore {
    MarketStore(s.state[(t.port, t.item) := (stock, t.unitPrice)],
                s.trades[t.id := RecordedTrade(t.port, t.item, stock, t.unitPrice)],
                s.log + [TradeEntry(t, stock, t.unitPrice)])
  }

  function ApplyTrade(s: MarketStore, t: Trade): (MarketStore, MarketAck) {
    if t.id in s.trades then
      var r := s.trades[t.id];
      (s, MarketAck(t.id, true, r.port, r.item, r.stock, r.price, Duplicate))
    else
      var (stock, price) := StateOf(s, t.port, t.item);
      if t.unitPrice < 0 then (s, MarketAck(t.id, false, t.port, t.item, stock, price, InvalidPrice))
      else
        match CheckedAdd(stock, t.qty)
        case Some(n) =>
          if n >= 0 then (CommitTrade(s, t, n), MarketAck(t.id, true, t.port, t.item, n, t.unitPrice, Fresh))
          else (s, MarketAck(t.id, false, t.port, t.item, stock, price, Insufficient))
        case None => (s, MarketAck(t.id, false, t.port, t.item, stock, price, OutOfRange))
  }

  class PortMarket {
    var state: map<(nat, nat), (int, int)>
    var trades: map<nat, RecordedTrade>
    var log: seq<TradeEntry>

    ghost function View(): MarketStore
      reads this
    {
      MarketStore(state, trades, log)
    }

    constructor ()
      ensures View() == MarketStore(map[], map[], [])
    {
      state, trades, log := map[], map[], [];
    }

    method Apply(t: Trade) returns (ack: MarketAck)
      modifies this
      ensures (View(), ack) == ApplyTrade(old(View()), t)
    {
      if t.id in trades {
        var r := trades[t.id];
        return MarketAck(t.id, true, r.port, r.item, r.stock, r.price, Duplicate);
      }
      var current := if (t.port, t.item) in state then state[(t.port, t.item)] else (0, 0);
      var (stock, price) := current;
      if t.unitPrice < 0 { return MarketAck(t.id, false, t.port, t.item, stock, price, InvalidPrice); }
      var sum := CheckedAdd(stock, t.qty);
      if sum.None? { return MarketAck(t.id, false, t.port, t.item, stock, price, OutOfRange); }
      if sum.value < 0 { return MarketAck(t.id, false, t.port, t.item, stock, price, Insufficient); }
      state := state[(t.port, t.item) := (sum.value, t.unitPrice)];
      trades := trades[t.id := RecordedTrade(t.port, t.item, sum.value, t.unitPrice)];
      log := log + [TradeEntry(t, sum.value, t.unitPrice)];
      ack := MarketAck(t.id, true, t.port, t.item, sum.value, t.unitPrice, Fresh);
    }
  }

  /** The sum of the quantities logged for one port and item, with the last price logged for them. */
  function Fold(log: seq<TradeEntry>, port: nat, item: nat): (int, int) {
    if log == [] then (0, 0)
    else
      var (stock, price) := Fold(log[..|log| - 1], port, item);
      var last := log[|log| - 1].trade;
      if last.port == port && last.item == item then (stock + last.qty, last.unitPrice) else (stock, price)
  }

  function StateIn(state: map<(nat, nat), (int, int)>, port: nat, item: nat): (int, int) {
    if (port, item) in state then state[(port, item)] else (0, 0)
  }

  /** Every stock and price is the fold of the log, and so is every one recorded in it. */
  ghost predicate StockOk(state: map<(nat, nat), (int, int)>, log: seq<TradeEntry>) {
    && (forall p, i ::
          && StateIn(state, p, i) == Fold(log, p, i)
          && 0 <= StateIn(state, p, i).0 <= I64_MAX && StateIn(state, p, i).1 >= 0)
    && (forall k :: 0 <= k < |log| ==>
          (log[k].stock, log[k].price) == Fold(log[..k + 1], log[k].trade.port, log[k].trade.item))
  }

  ghost predicate TradesOk(trades: map<nat, RecordedTrade>, log: seq<TradeEntry>) {
    && (forall i, j :: 0 <= i < j < |log| ==> log[i].trade.id != log[j].trade.id)
    && (forall i :: 0 <= i < |log| ==> log[i].trade.id in trades && trades[log[i].trade.id] == Record(log[i]))
    && (forall id :: id in trades ==> exists i :: 0 <= i < |log| && log[i].trade.id == id)
  }

  function Record(e: TradeEntry): RecordedTrade {
    RecordedTrade(e.trade.port, e.trade.item, e.stock, e.price)
  }

  ghost predicate MarketOk(s: MarketStore) {
    StockOk(s.state, s.log) && TradesOk(s.trades, s.log)
  }

  lemma FoldAppend(log: seq<TradeEntry>, e: TradeEntry, port: nat, item: nat)
    ensures Fold(log + [e], port, item) ==
            if e.trade.port == port && e.trade.item == item
            then (Fold(log, port, item).0 + e.trade.qty, e.trade.unitPrice) else Fold(log, port, item)
  {
    assert (log + [e])[..|log|] == log;
  }

  lemma CommitStock(state: map<(nat, nat), (int, int)>, log: seq<TradeEntry>, e: TradeEntry)
    requires StockOk(state, log) && e.price == e.trade.unitPrice >= 0
    requires 0 <= e.stock == StateIn(state, e.trade.port, e.trade.item).0 + e.trade.qty <= I64_MAX
    ensures StockOk(state[(e.trade.port, e.trade.item) := (e.stock, e.price)], log + [e])
  {
    hide Fold;
    var t, l := e.trade, log + [e];
    var r := state[(t.port, t.item) := (e.stock, e.price)];
    forall p, i
      ensures StateIn(r, p, i) == Fold(log + [e], p, i) && 0 <= StateIn(r, p, i).0 <= I64_MAX && StateIn(r, p, i).1 >= 0
    {
      FoldAppend(log, e, p, i);
      assert StateIn(state, p, i) == Fold(log, p, i);
    }
    forall k | 0 <= k < |l| ensures (l[k].stock, l[k].price) == Fold(l[..k + 1], l[k].trade.port, l[k].trade.item) {
      if k < |log| {
        assert l[..k + 1] == log[..k + 1];
      } else {
        assert l[..k + 1] == l;
        FoldAppend(log, e, t.port, t.item);
      }
    }
  }

  lemma CommitRecord(trades: map<nat, RecordedTrade>, log: seq<TradeEntry>, e: TradeEntry)
    requires TradesOk(trades, log) && e.trade.id !in trades
    ensures TradesOk(trades[e.trade.id := Record(e)], log + [e])
  {
    var t, l := trades[e.trade.id := Record(e)], log + [e];
    forall id | id in t ensures exists i :: 0 <= i < |l| && l[i].trade.id == id {
      if id == e.trade.id {
        assert l[|log|].trade.id == id;
      } else {
        var i :| 0 <= i < |log| && log[i].trade.id == id;
        assert l[i].trade.id == id;
      }
    }
  }

  lemma ApplyTradeOk(s: MarketStore, t: Trade)
    requires MarketOk(s)
    ensures MarketOk(ApplyTrade(s, t).0)
  {
    hide StockOk, TradesOk;
    if ApplyTrade(s, t).1.reason == Fresh {
      var e := TradeEntry(t, StateOf(s, t.port, t.item).0 + t.qty, t.unitPrice);
      CommitStock(s.state, s.log, e);
      CommitRecord(s.trades, s.log, e);
    }
  }

  /**
    * What a new trade id does, exactly: it is accepted if and only if the price is not negative and the stock
    * stays within zero and the 64-bit maximum, and then stock and price of just that item at just that port
    * move; otherwise nothing changes.
    */
  lemma FreshTradeAcceptedIff(s: MarketStore, t: Trade)
    requires t.id !in s.trades
    ensures
      var (r, ack) := ApplyTrade(s, t);
      var stock := StateOf(s, t.port, t.item).0 + t.qty;
      && (ack.accepted <==> t.unitPrice >= 0 && 0 <= stock <= I64_MAX)
      && (ack.accepted ==> r.log == s.log + [TradeEntry(t, stock, t.unitPrice)]
                           && StateOf(r, t.port, t.item) == (ack.stock, ack.price) == (stock, t.unitPrice))
      && (!ack.accepted ==> r == s && (ack.stock, ack.price) == StateOf(s, t.port, t.item))
      && ack.id == t.id && ack.port == t.port && ack.item == t.item
      && ack.reason == (if ack.accepted then Fresh else if t.unitPrice < 0 then InvalidPrice
                        else if I64_MIN <= stock < 0 then Insufficient else OutOfRange)
      && (forall port: nat, item: nat :: (port, item) != (t.port, t.item) ==> StateOf(r, port, item) == StateOf(s, port, item))
  {
  }

  function RunMarket(s: MarketStore, trades: seq<Trade>): (MarketStore, seq<MarketAck>)
    decreases |trades|
  {
    if trades == [] then (s, [])
    else
      var (s1, ack) := ApplyTrade(s, trades[0]);
      var (r, acks) := RunMarket(s1, trades[1..]);
      (r, [ack] + acks)
  }

  /** For every run of trades, stock and price are the fold of the log, never negative, never out of range. */
  lemma {:induction false} MarketIsFold(s: MarketStore, trades: seq<Trade>)
    requires MarketOk(s)
    ensures MarketOk(RunMarket(s, trades).0)
    decreases |trades|
  {
    hide ApplyTrade, MarketOk;
    if trades != [] {
      ApplyTradeOk(s, trades[0]);
      MarketIsFold(ApplyTrade(s, trades[0]).0, trades[1..]);
    }
  }

  // ----- Resends

  datatype Arrival = Arrival(trade: Trade, resend: bool)

  /** Each arrival flagged as a resend carries the id of a trade committed before it arrives. */
  predicate ResendsOk(s: MarketStore, arrivals: seq<Arrival>)
    decreases |arrivals|
  {
    if arrivals == [] then true
    else
      && (arrivals[0].resend ==> arrivals[0].trade.id in s.trades)
      && ResendsOk(ApplyTrade(s, arrivals[0].trade).0, arrivals[1..])
  }

  function AllTrades(arrivals: seq<Arrival>): seq<Trade> {
    if arrivals == [] then [] else [arrivals[0].trade] + AllTrades(arrivals[1..])
  }

  function Originals(arrivals: seq<Arrival>): seq<Trade> {
    if arrivals == [] then [] else (if arrivals[0].resend then [] else [arrivals[0].trade]) + Originals(arrivals[1..])
  }

  /** The replies to the originals, out of the replies to everything. */
  function OriginalAcks(arrivals: seq<Arrival>, acks: seq<MarketAck>): seq<MarketAck>
    requires |arrivals| == |acks|
    decreases |arrivals|
  {
    if arrivals == [] then [] else (if arrivals[0].resend then [] else [acks[0]]) + OriginalAcks(arrivals[1..], acks[1..])
  }

  /** The reply that repeats what was recorded when the trade was committed. */
  function Repeated(s: MarketStore, id: nat): MarketAck
    requires id in s.trades
  {
    var r := s.trades[id];
    MarketAck(id, true, r.port, r.item, r.stock, r.price, Duplicate)
  }

  ghost predicate ResendsAnswered(s: MarketStore, arrivals: seq<Arrival>, acks: seq<MarketAck>)
    requires |arrivals| == |acks|
  {
    forall i :: 0 <= i < |arrivals| && arrivals[i].resend ==>
      arrivals[i].trade.id in s.trades && acks[i] == Repeated(s, arrivals[i].trade.id)
  }

  lemma ReplayedTrade(s: MarketStore, t: Trade)
    requires t.id in s.trades
    ensures ApplyTrade(s, t) == (s, Repeated(s, t.id))
  {
  }

  lemma TradesGrow(s: MarketStore, t: Trade, id: nat)
    requires id in s.trades
    ensures
      var r := ApplyTrade(s, t).0;
      id in r.trades && r.trades[id] == s.trades[id]
  {
  }

  lemma {:induction false} TradesGrowOverRuns(s: MarketStore, trades: seq<Trade>, id: nat)
    requires id in s.trades
    ensures
      var r := RunMarket(s, trades).0;
      id in r.trades && r.trades[id] == s.trades[id]
    decreases |trades|
  {
    hide ApplyTrade;
    if trades != [] {
      TradesGrow(s, trades[0], id);
      TradesGrowOverRuns(ApplyTrade(s, trades[0]).0, trades[1..], id);
    }
  }

  lemma AnsweredCons(s: MarketStore, arrivals: seq<Arrival>, acks: seq<MarketAck>)
    requires |arrivals| == |acks| > 0 && ResendsAnswered(s, arrivals[1..], acks[1..])
    requires arrivals[0].resend ==> arrivals[0].trade.id in s.trades && acks[0] == Repeated(s, arrivals[0].trade.id)
    ensures ResendsAnswered(s, arrivals, acks)
  {
    forall i | 0 < i < |arrivals| && arrivals[i].resend
      ensures arrivals[i].trade.id in s.trades && acks[i] == Repeated(s, arrivals[i].trade.id)
    {
      assert arrivals[1..][i - 1] == arrivals[i] && acks[1..][i - 1] == acks[i];
    }
  }

  /**
    * Insensitivity to retries: any number of resends, inserted anywhere after their commits, change no stock, no
    * price, no log and no other reply, and each is answered with the recorded result.
    */
  lemma {:induction false} ResentTradesAreInvisible(s: MarketStore, arrivals: seq<Arrival>)
    requires ResendsOk(s, arrivals)
    ensures
      var (all, acks) := RunMarket(s, AllTrades(arrivals));
      var (plain, plainAcks) := RunMarket(s, Originals(arrivals));
      && |acks| == |arrivals|
      && all == plain
      && OriginalAcks(arrivals, acks) == plainAcks
      && ResendsAnswered(all, arrivals, acks)
    decreases |arrivals|
  {
    hide ApplyTrade;
    if arrivals != [] {
      var a := arrivals[0];
      var (s1, ack) := ApplyTrade(s, a.trade);
      var rest := arrivals[1..];
      ResentTradesAreInvisible(s1, rest);
      assert AllTrades(arrivals)[1..] == AllTrades(rest);
      var (all, acks) := RunMarket(s, AllTrades(arrivals));
      assert acks[1..] == RunMarket(s1, AllTrades(rest)).1;
      if a.resend {
        ReplayedTrade(s, a.trade);
        TradesGrowOverRuns(s1, AllTrades(rest), a.trade.id);
        assert Originals(arrivals) == Originals(rest);
      } else {
        assert Originals(arrivals)[1..] == Originals(rest);
      }
      AnsweredCons(all, arrivals, acks);
    }
  }

  /** The recorded result is the result at commit: stock and price folded from the log up to and including it. */
  lemma RecordedIsCommitted(s: MarketStore, id: nat) returns (k: nat)
    requires MarketOk(s) && id in s.trades
    ensures k < |s.log| && s.log[k].trade.id == id
    ensures
      var t := s.log[k].trade;
      s.trades[id].port == t.port && s.trades[id].item == t.item &&
      (s.trades[id].stock, s.trades[id].price) == Fold(s.log[..k + 1], t.port, t.item)
  {
    hide Fold;
    k :| 0 <= k < |s.log| && s.log[k].trade.id == id;
  }

  // ----- Accepted is not always applied

  ghost predicate Applied(log: seq<TradeEntry>, t: Trade) {
    exists i :: 0 <= i < |log| && log[i].trade == t
  }

  /** The id was never spent on a trade of another port, item, quantity or price. */
  ghost predicate IdUncontested(log: seq<TradeEntry>, t: Trade) {
    forall i :: 0 <= i < |log| && log[i].trade.id == t.id ==> log[i].trade == t
  }

  /** An accepted reply means that the trade was applied, now or before, if and only if its id was not spent on another. */
  lemma AcceptedIsAppliedIff(s: MarketStore, t: Trade)
    requires MarketOk(s)
    ensures
      var (r, ack) := ApplyTrade(s, t);
      ack.accepted ==> (Applied(r.log, t) <==> IdUncontested(s.log, t))
  {
    hide StockOk;
    var (r, ack) := ApplyTrade(s, t);
    if t.id in s.trades {
      var i :| 0 <= i < |s.log| && s.log[i].trade.id == t.id;
      if Applied(s.log, t) {
        var k :| 0 <= k < |s.log| && s.log[k].trade == t;
        forall j | 0 <= j < |s.log| && s.log[j].trade.id == t.id ensures j == k {
          assert s.log[j].trade.id == s.log[k].trade.id;
        }
      }
    } else if ack.accepted {
      assert r.log[|s.log|].trade == t;
      assert forall j :: 0 <= j < |s.log| ==> s.log[j].trade.id in s.trades;
    }
  }

  /** One id, two ports: the second trade is acknowledged with the first one's port and stock, and not applied. */
  lemma SharedTradeIdIsNotApplied(id: nat)
    ensures
      var a, b := Trade(id, 1, 9, 10, 3), Trade(id, 2, 9, 10, 3);
      var (r, acks) := RunMarket(MarketStore(map[], map[], []), [a, b]);
      && |acks| == 2 && acks[1].accepted && acks[1].port == 1 && acks[1].stock == 10
      && StateOf(r, 2, 9) == (0, 0) && !Applied(r.log, b)
  {
    var a, b := Trade(id, 1, 9, 10, 3), Trade(id, 2, 9, 10, 3);
    var none := MarketStore(map[], map[], []);
    var s1 := ApplyTrade(none, a).0;
    RunMarketStep(none, a, [b]);
    RunMarketStep(s1, b, []);
    assert [a] + [b] == [a, b] && [b] + [] == [b];
  }

  lemma RunMarketStep(s: MarketStore, t: Trade, rest: seq<Trade>)
    ensures
      var (s1, ack) := ApplyTrade(s, t);
      && RunMarket(s, [t] + rest).0 == RunMarket(s1, rest).0
      && RunMarket(s, [t] + rest).1 == [ack] + RunMarket(s1, rest).1
  {
    assert ([t] + rest)[1..] == rest;
  }
}
