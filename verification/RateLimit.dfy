/** The three minimum-interval limiters, and what the bounded one keeps of a limiter with full history. */
module RateLimit {
  import opened Options
  import opened Numbers
  import OrderedSets

  function SaturatingSub(a: int, b: int): int {
    if a - b > I64_MAX then I64_MAX else if a - b < I64_MIN then I64_MIN else a - b
  }

  /** Whether less than the interval has passed; a rolled-back clock counts as no time at all. */
  predicate TooSoon(now: int, last: int, interval: int) {
    SaturatingSub(now, last) < interval
  }

  /** Saturation never changes the verdict for an interval that is itself a 64-bit number. */
  lemma TooSoonIsExact(now: int, last: int, interval: int)
    requires 0 < interval <= I64_MAX
    ensures TooSoon(now, last, interval) <==> now - last < interval
  {
  }

  // ----- One process-wide gate

  function GlobalAllow(last: Option<int>, interval: int, now: int): (Option<int>, bool) {
    if interval <= 0 then (last, true)
    else if last.Some? && TooSoon(now, last.value, interval) then (last, false)
    else (Some(now), true)
  }

  class GlobalRateLimiter {
    const interval: int
    var last: Option<int>

    constructor (minIntervalMs: int)
      ensures interval == minIntervalMs && last == None
    {
      interval := minIntervalMs;
      last := None;
    }

    method Allow(now: int) returns (ok: bool)
      modifies this
      ensures (last, ok) == GlobalAllow(old(last), interval, now)
    {
      if interval <= 0 { return true; }
      if last.Some? && TooSoon(now, last.value, interval) { return false; }
      last := Some(now);
      ok := true;
    }
  }

  // ----- One entry per key

  function KeyedAllow(last: map<nat, int>, interval: int, key: nat, now: int): (map<nat, int>, bool) {
    if interval <= 0 then (last, true)
    else if key in last && TooSoon(now, last[key], interval) then (last, false)
    else (last[key := now], true)
  }

  /** A key is admitted if and only if it was never admitted or its interval has run out, and only then recorded. */
  lemma KeyedAdmitsIff(last: map<nat, int>, interval: int, key: nat, now: int)
    requires 0 < interval <= I64_MAX
    ensures
      var (r, ok) := KeyedAllow(last, interval, key, now);
      && (ok <==> key !in last || now - last[key] >= interval)
      && r == if ok then last[key := now] else last
  {
    if key in last { TooSoonIsExact(now, last[key], interval); }
  }

  class RateLimiter {
    const interval: int
    var last: map<nat, int>

    constructor (minIntervalMs: int)
      ensures interval == minIntervalMs && last == map[]
    {
      interval := minIntervalMs;
      last := map[];
    }

    method Allow(key: nat, now: int) returns (ok: bool)
      modifies this
      ensures (last, ok) == KeyedAllow(old(last), interval, key, now)
    {
      if interval <= 0 { return true; }
      if key in last && TooSoon(now, last[key], interval) { return false; }
      last := last[key := now];
      ok := true;
    }

    method Clear(key: nat)
      modifies this
      ensures last == old(last) - {key}
    {
      last := last - {key};
    }
  }

  // ----- A hard ceiling on keys

  datatype Bounded = Bounded(last: map<nat, int>, oldest: set<(int, nat)>)

  predicate Before(a: (int, nat), b: (int, nat)) {
    a.0 < b.0 || (a.0 == b.0 && a.1 <= b.1)
  }

  ghost predicate IsFirst(s: set<(int, nat)>, e: (int, nat)) {
    e in s && forall f :: f in s ==> Before(e, f)
  }

  lemma {:induction false} FirstExists(s: set<(int, nat)>) returns (e: (int, nat))
    requires s != {}
    ensures IsFirst(s, e)
  {
    e :| e in s;
    if s != {e} {
      var f := FirstExists(s - {e});
      forall g | g in s ensures Before(if Before(e, f) then e else f, g) {
        if g != e { assert g in s - {e}; }
      }
      e := if Before(e, f) then e else f;
    }
  }

  function First(s: set<(int, nat)>): (e: (int, nat))
    requires s != {}
    ensures IsFirst(s, e)
  {
    assert exists e :: IsFirst(s, e) by { var e := FirstExists(s); }
    var e :| e in s && forall f :: f in s ==> Before(e, f);
    e
  }

  /** The ordered set is exactly the inverse of the map, and both stay within the key budget. */
  ghost predicate BoundedOk(b: Bounded, maxKeys: nat) {
    && |b.last| <= maxKeys
    && (forall k :: k in b.last ==> (b.last[k], k) in b.oldest)
    && (forall e :: e in b.oldest ==> e.1 in b.last && b.last[e.1] == e.0)
  }

  function BoundedAllow(b: Bounded, interval: int, maxKeys: nat, key: nat, now: int): (Bounded, bool) {
    if interval <= 0 then (b, true)
    else if key in b.last then
      if TooSoon(now, b.last[key], interval) then (b, false)
      else (Bounded(b.last[key := now], b.oldest - {(b.last[key], key)} + {(now, key)}), true)
    else if |b.last| >= maxKeys then
      if b.oldest == {} then (b, false)
      else
        var e := First(b.oldest);
        if TooSoon(now, e.0, interval) then (b, false)
        else (Bounded((b.last - {e.1})[key := now], b.oldest - {e} + {(now, key)}), true)
    else (Bounded(b.last[key := now], b.oldest + {(now, key)}), true)
  }

  lemma BoundedAllowOk(b: Bounded, interval: int, maxKeys: nat, key: nat, now: int)
    requires BoundedOk(b, maxKeys)
    ensures BoundedOk(BoundedAllow(b, interval, maxKeys, key, now).0, maxKeys)
  {
    hide BoundedOk, TooSoon;
    if key in b.last {
      RefreshOk(b, maxKeys, key, now);
    } else if |b.last| >= maxKeys && b.oldest != {} {
      var e := First(b.oldest);
      DropOk(b, maxKeys, e);
      RecordOk(Bounded(b.last - {e.1}, b.oldest - {e}), maxKeys, key, now);
    } else if |b.last| < maxKeys {
      RecordOk(b, maxKeys, key, now);
    }
  }

  lemma RefreshOk(b: Bounded, maxKeys: nat, key: nat, now: int)
    requires BoundedOk(b, maxKeys) && key in b.last
    ensures BoundedOk(Bounded(b.last[key := now], b.oldest - {(b.last[key], key)} + {(now, key)}), maxKeys)
  {
    assert b.last[key := now].Keys == b.last.Keys;
    assert |b.last[key := now]| == |b.last[key := now].Keys| == |b.last.Keys| == |b.last|;
  }

  lemma DropOk(b: Bounded, maxKeys: nat, e: (int, nat))
    requires BoundedOk(b, maxKeys) && e in b.oldest
    ensures BoundedOk(Bounded(b.last - {e.1}, b.oldest - {e}), maxKeys) && |b.last - {e.1}| < maxKeys
  {
    assert |b.last - {e.1}| == |b.last| - 1;
  }

  lemma RecordOk(b: Bounded, maxKeys: nat, key: nat, now: int)
    requires BoundedOk(b, maxKeys) && key !in b.last && |b.last| < maxKeys
    ensures BoundedOk(Bounded(b.last[key := now], b.oldest + {(now, key)}), maxKeys)
  {
  }

  class BoundedRateLimiter {
    const interval: int
    const maxKeys: nat
    var last: map<nat, int>
    var oldest: set<(int, nat)>

    ghost function View(): Bounded
      reads this
    {
      Bounded(last, oldest)
    }

    constructor (minIntervalMs: int, keys: nat)
      ensures interval == minIntervalMs && maxKeys == keys && View() == Bounded(map[], {})
    {
      interval, maxKeys := minIntervalMs, keys;
      last, oldest := map[], {};
    }

    method Allow(key: nat, now: int) returns (ok: bool)
      requires BoundedOk(View(), maxKeys)
      modifies this
      ensures (View(), ok) == BoundedAllow(old(View()), interval, maxKeys, key, now)
      ensures BoundedOk(View(), maxKeys)
    {
      BoundedAllowOk(View(), interval, maxKeys, key, now);
      if interval <= 0 { return true; }
      if key in last {
        if TooSoon(now, last[key], interval) { return false; }
        oldest := oldest - {(last[key], key)};
      } else if |last| >= maxKeys {
        if oldest == {} { return false; }
        var e := First(oldest);
        if TooSoon(now, e.0, interval) { return false; }
        oldest := oldest - {e};
        last := last - {e.1};
      }
      last := last[key := now];
      oldest := oldest + {(now, key)};
      ok := true;
    }
  }

  // ----- The bounded limiter against the full admission history

  datatype Request = Request(key: nat, now: int)

  /**
    * `history` is each key's latest admission, never forgotten. A key the limiter has dropped was dropped
    * only once its interval had run out, so forgetting it gives nothing away.
    */
  ghost predicate Faithful(b: Bounded, history: map<nat, int>, interval: int, clock: int) {
    && (forall k :: k in b.last ==> k in history && history[k] == b.last[k])
    && (forall k :: k in history ==> k in b.last || clock - history[k] >= interval)
  }

  /** Every tracked key but `key` itself was admitted less than an interval ago, and there are `maxKeys` of them. */
  ghost predicate Saturated(history: map<nat, int>, interval: int, maxKeys: nat, key: nat, now: int) {
    exists keys: set<nat> :: |keys| == maxKeys && key !in keys && AllRecent(keys, history, interval, now)
  }

  ghost predicate AllRecent(keys: set<nat>, history: map<nat, int>, interval: int, now: int) {
    forall k :: k in keys ==> k in history && now - history[k] < interval
  }

  ghost predicate Refines(b: Bounded, history: map<nat, int>, interval: int, maxKeys: nat, key: nat, now: int) {
    var (b', ok) := BoundedAllow(b, interval, maxKeys, key, now);
    var (history', full) := KeyedAllow(history, interval, key, now);
    && (ok ==> full && Faithful(b', history', interval, now))
    && (!ok ==> b' == b && Faithful(b, history, interval, now))
    && (full && !ok ==> Saturated(history, interval, maxKeys, key, now))
  }

  lemma LaterFaithful(b: Bounded, history: map<nat, int>, interval: int, clock: int, now: int)
    requires Faithful(b, history, interval, clock) && clock <= now
    ensures Faithful(b, history, interval, now)
  {
  }

  lemma KnownRefines(b: Bounded, history: map<nat, int>, interval: int, maxKeys: nat, key: nat, now: int)
    requires 0 < interval <= I64_MAX && Faithful(b, history, interval, now) && key in b.last
    ensures Refines(b, history, interval, maxKeys, key, now)
  {
    hide Saturated;
    TooSoonIsExact(now, b.last[key], interval);
  }

  lemma RoomRefines(b: Bounded, history: map<nat, int>, interval: int, maxKeys: nat, key: nat, now: int)
    requires 0 < interval <= I64_MAX && Faithful(b, history, interval, now) && key !in b.last && |b.last| < maxKeys
    ensures Refines(b, history, interval, maxKeys, key, now)
  {
    hide Saturated;
    if key in history { TooSoonIsExact(now, history[key], interval); }
  }

  /** The oldest entry is still fresh, so every entry is. */
  lemma AllFresh(b: Bounded, history: map<nat, int>, interval: int, maxKeys: nat, key: nat, now: int)
    requires BoundedOk(b, maxKeys) && Faithful(b, history, interval, now) && key !in b.last && |b.last| >= maxKeys
    requires b.oldest != {} ==> now - First(b.oldest).0 < interval
    ensures Saturated(history, interval, maxKeys, key, now)
  {
    assert |b.last.Keys| == |b.last| == maxKeys;
    forall k | k in b.last.Keys ensures k in history && now - history[k] < interval {
      assert (b.last[k], k) in b.oldest;
      assert Before(First(b.oldest), (b.last[k], k));
    }
    assert AllRecent(b.last.Keys, history, interval, now);
  }

  lemma EvictRefines(b: Bounded, history: map<nat, int>, interval: int, maxKeys: nat, key: nat, now: int)
    requires BoundedOk(b, maxKeys) && Faithful(b, history, interval, now) && key !in b.last && b.oldest != {}
    requires now - First(b.oldest).0 >= interval
    ensures
      var e := First(b.oldest);
      Faithful(Bounded((b.last - {e.1})[key := now], b.oldest - {e} + {(now, key)}), history[key := now], interval, now)
  {
  }

  lemma FullRefines(b: Bounded, history: map<nat, int>, interval: int, maxKeys: nat, key: nat, now: int)
    requires BoundedOk(b, maxKeys) && 0 < interval <= I64_MAX && Faithful(b, history, interval, now)
    requires key !in b.last && |b.last| >= maxKeys
    ensures Refines(b, history, interval, maxKeys, key, now)
  {
    hide BoundedOk, Saturated, TooSoon;
    if key in history { TooSoonIsExact(now, history[key], interval); }
    if b.oldest == {} {
      AllFresh(b, history, interval, maxKeys, key, now);
    } else {
      TooSoonIsExact(now, First(b.oldest).0, interval);
      if now - First(b.oldest).0 < interval {
        AllFresh(b, history, interval, maxKeys, key, now);
      } else {
        EvictRefines(b, history, interval, maxKeys, key, now);
      }
    }
  }

  /**
    * One step: whatever the bounded limiter admits, a limiter with full history admits too; and what the
    * full history would admit is refused only when the whole key budget is spent on fresh admissions.
    */
  lemma BoundedRefinesHistory(b: Bounded, history: map<nat, int>, interval: int, maxKeys: nat, key: nat, clock: int, now: int)
    requires BoundedOk(b, maxKeys) && 0 < interval <= I64_MAX && clock <= now
    requires Faithful(b, history, interval, clock)
    ensures Refines(b, history, interval, maxKeys, key, now)
  {
    hide BoundedOk, Faithful, Refines;
    LaterFaithful(b, history, interval, clock, now);
    if key in b.last {
      KnownRefines(b, history, interval, maxKeys, key, now);
    } else if |b.last| < maxKeys {
      RoomRefines(b, history, interval, maxKeys, key, now);
    } else {
      FullRefines(b, history, interval, maxKeys, key, now);
    }
  }

  ghost predicate Nondecreasing(requests: seq<Request>, clock: int)
    decreases |requests|
  {
    requests != [] ==> clock <= requests[0].now && Nondecreasing(requests[1..], requests[0].now)
  }

  /** The verdicts of the bounded limiter on a run of requests. */
  ghost function Verdicts(b: Bounded, interval: int, maxKeys: nat, requests: seq<Request>): (v: seq<bool>)
    ensures |v| == |requests|
    decreases |requests|
  {
    if requests == [] then [] else
      var (b', ok) := BoundedAllow(b, interval, maxKeys, requests[0].key, requests[0].now);
      [ok] + Verdicts(b', interval, maxKeys, requests[1..])
  }

  lemma {:induction false} AdmittedAfterHistory(b: Bounded, history: map<nat, int>, interval: int, maxKeys: nat,
                                               requests: seq<Request>, clock: int, j: nat)
    requires BoundedOk(b, maxKeys) && 0 < interval <= I64_MAX
    requires Faithful(b, history, interval, clock) && Nondecreasing(requests, clock)
    requires j < |requests| && Verdicts(b, interval, maxKeys, requests)[j] && requests[j].key in history
    ensures requests[j].now - history[requests[j].key] >= interval
    decreases |requests|
  {
    hide BoundedAllow, BoundedOk, Faithful;
    var r := requests[0];
    BoundedRefinesHistory(b, history, interval, maxKeys, r.key, clock, r.now);
    BoundedAllowOk(b, interval, maxKeys, r.key, r.now);
    var (b', ok) := BoundedAllow(b, interval, maxKeys, r.key, r.now);
    var history' := if ok then KeyedAllow(history, interval, r.key, r.now).0 else history;
    if r.key in history { TooSoonIsExact(r.now, history[r.key], interval); }
    if j > 0 {
      AdmittedAfterHistory(b', history', interval, maxKeys, requests[1..], r.now, j - 1);
    }
  }

  /**
    * Spacing over every run under a nondecreasing clock: two admissions of one key are at least an
    * interval apart, even when the key was evicted and came back in between.
    */
  lemma {:induction false} AdmissionsAreSpaced(b: Bounded, history: map<nat, int>, interval: int, maxKeys: nat,
                                              requests: seq<Request>, clock: int, i: nat, j: nat)
    requires BoundedOk(b, maxKeys) && 0 < interval <= I64_MAX
    requires Faithful(b, history, interval, clock) && Nondecreasing(requests, clock)
    requires i < j < |requests| && requests[i].key == requests[j].key
    requires Verdicts(b, interval, maxKeys, requests)[i] && Verdicts(b, interval, maxKeys, requests)[j]
    ensures requests[j].now - requests[i].now >= interval
    decreases |requests|
  {
    hide BoundedAllow, BoundedOk, Faithful;
    var r := requests[0];
    BoundedRefinesHistory(b, history, interval, maxKeys, r.key, clock, r.now);
    BoundedAllowOk(b, interval, maxKeys, r.key, r.now);
    var (b', ok) := BoundedAllow(b, interval, maxKeys, r.key, r.now);
    var history' := if ok then KeyedAllow(history, interval, r.key, r.now).0 else history;
    if i > 0 {
      AdmissionsAreSpaced(b', history', interval, maxKeys, requests[1..], r.now, i - 1, j - 1);
    } else {
      AdmittedAfterHistory(b', history', interval, maxKeys, requests[1..], r.now, j - 1);
    }
  }

  /** Each key's latest admission over the first `j` requests. */
  ghost function LogAt(b: Bounded, history: map<nat, int>, interval: int, maxKeys: nat, requests: seq<Request>, j: nat): map<nat, int>
    requires j <= |requests|
    decreases j
  {
    if j == 0 then history
    else
      var (b', ok) := BoundedAllow(b, interval, maxKeys, requests[0].key, requests[0].now);
      LogAt(b', if ok then history[requests[0].key := requests[0].now] else history, interval, maxKeys, requests[1..], j - 1)
  }

  /** Less than an interval has passed since the key was last admitted. */
  predicate Recent(log: map<nat, int>, interval: int, key: nat, now: int) {
    key in log && now - log[key] < interval
  }

  lemma {:induction false} SameSet(a: set<nat>, b: set<nat>)
    requires a <= b && |a| >= |b|
    ensures a == b
  {
    assert |b - a| == |b| - |a|;
  }

  /** A budget spent on fresh admissions does refuse: those keys are all tracked, and nothing else is. */
  lemma SaturatedRefuses(b: Bounded, history: map<nat, int>, interval: int, maxKeys: nat, key: nat, now: int)
    requires BoundedOk(b, maxKeys) && 0 < interval <= I64_MAX && Faithful(b, history, interval, now)
    requires Saturated(history, interval, maxKeys, key, now)
    ensures !BoundedAllow(b, interval, maxKeys, key, now).1
  {
    var keys: set<nat> :| |keys| == maxKeys && key !in keys && AllRecent(keys, history, interval, now);
    assert |b.last| == |b.last.Keys|;
    SameSet(keys, b.last.Keys);
    if b.oldest != {} {
      var e := First(b.oldest);
      assert e.1 in keys;
      TooSoonIsExact(now, e.0, interval);
    }
  }

  /** One request against the full log: admitted exactly when it is not recent and the budget is not spent. */
  lemma VerdictIff(b: Bounded, history: map<nat, int>, interval: int, maxKeys: nat, key: nat, clock: int, now: int)
    requires BoundedOk(b, maxKeys) && 0 < interval <= I64_MAX && Faithful(b, history, interval, clock) && clock <= now
    ensures BoundedAllow(b, interval, maxKeys, key, now).1 <==>
            !Recent(history, interval, key, now) && !Saturated(history, interval, maxKeys, key, now)
  {
    hide BoundedOk, Faithful, BoundedAllow, Saturated;
    BoundedRefinesHistory(b, history, interval, maxKeys, key, clock, now);
    KeyedAdmitsIff(history, interval, key, now);
    LaterFaithful(b, history, interval, clock, now);
    if Saturated(history, interval, maxKeys, key, now) { SaturatedRefuses(b, history, interval, maxKeys, key, now); }
  }

  lemma {:induction false} VerdictsIff(b: Bounded, history: map<nat, int>, interval: int, maxKeys: nat, requests: seq<Request>,
                                      clock: int, j: nat)
    requires BoundedOk(b, maxKeys) && 0 < interval <= I64_MAX && Faithful(b, history, interval, clock)
    requires Nondecreasing(requests, clock) && j < |requests|
    ensures
      var log := LogAt(b, history, interval, maxKeys, requests, j);
      var r := requests[j];
      Verdicts(b, interval, maxKeys, requests)[j] <==>
        !Recent(log, interval, r.key, r.now) && !Saturated(log, interval, maxKeys, r.key, r.now)
    decreases |requests|
  {
    hide BoundedAllow, BoundedOk, Faithful, Saturated, Recent;
    var r := requests[0];
    var (b', ok) := BoundedAllow(b, interval, maxKeys, r.key, r.now);
    if j == 0 {
      VerdictIff(b, history, interval, maxKeys, r.key, clock, r.now);
    } else {
      BoundedAllowOk(b, interval, maxKeys, r.key, r.now);
      BoundedRefinesHistory(b, history, interval, maxKeys, r.key, clock, r.now);
      KeyedAdmitsIff(history, interval, r.key, r.now);
      VerdictsIff(b', if ok then history[r.key := r.now] else history, interval, maxKeys, requests[1..], r.now, j - 1);
    }
  }

  /**
    * The bounded limiter over every run from empty, under a nondecreasing clock: a request is refused if and only
    * if its key was admitted less than an interval ago, or the whole key budget is spent on other keys that were.
    */
  lemma RefusedIff(interval: int, maxKeys: nat, requests: seq<Request>, clock: int, j: nat)
    requires 0 < interval <= I64_MAX && Nondecreasing(requests, clock) && j < |requests|
    ensures
      var log := LogAt(Bounded(map[], {}), map[], interval, maxKeys, requests, j);
      var r := requests[j];
      !Verdicts(Bounded(map[], {}), interval, maxKeys, requests)[j] <==>
        Recent(log, interval, r.key, r.now) || Saturated(log, interval, maxKeys, r.key, r.now)
  {
    hide Verdicts, LogAt, Saturated, Recent, Nondecreasing;
    VerdictsIff(Bounded(map[], {}), map[], interval, maxKeys, requests, clock, j);
  }

  // ----- A throttle that may be switched off

  /** The key may act now: the throttle is off, or the key has not acted within the interval. */
  predicate Unthrottled(log: map<nat, int>, interval: int, key: nat, now: int) {
    interval <= 0 || !Recent(log, interval, key, now)
  }

  /** What acting records. */
  function Noted(log: map<nat, int>, interval: int, key: nat, now: int): map<nat, int> {
    if interval <= 0 then log else log[key := now]
  }

  /** The keyed limiter admits exactly the unthrottled, and records exactly those it admits. */
  lemma ThrottleIff(log: map<nat, int>, interval: int, key: nat, now: int)
    requires interval <= I64_MAX
    ensures
      var (r, ok) := KeyedAllow(log, interval, key, now);
      (ok <==> Unthrottled(log, interval, key, now)) && r == if ok then Noted(log, interval, key, now) else log
  {
    if interval > 0 { KeyedAdmitsIff(log, interval, key, now); }
  }

  // ----- The bounded limiter on its own recorded times

  /** The key is recorded at this time, and nothing else changes but that keys whose interval has run out may be forgotten. */
  ghost predicate Charged(before: map<nat, int>, after: map<nat, int>, interval: int, key: nat, now: int) {
    && key in after && after[key] == now
    && (forall k :: k in after && k != key ==> k in before && after[k] == before[k])
    && (forall k :: k in before && k != key && k !in after ==> now - before[k] >= interval)
  }

  /** A key is admitted if and only if it is not recent and the budget is not spent on recent keys, and only then recorded. */
  lemma BoundedAdmitsIff(b: Bounded, interval: int, maxKeys: nat, key: nat, now: int)
    requires BoundedOk(b, maxKeys) && 0 < interval <= I64_MAX
    ensures
      var (r, ok) := BoundedAllow(b, interval, maxKeys, key, now);
      && (ok <==> !Recent(b.last, interval, key, now) && !Saturated(b.last, interval, maxKeys, key, now))
      && (if ok then Charged(b.last, r.last, interval, key, now) else r == b)
  {
    hide BoundedOk, BoundedAllow, Saturated, Recent, Charged;
    OwnHistory(b, interval, now);
    VerdictIff(b, b.last, interval, maxKeys, key, now, now);
    AdmittedIsCharged(b, interval, maxKeys, key, now);
  }

  lemma OwnHistory(b: Bounded, interval: int, now: int)
    ensures Faithful(b, b.last, interval, now)
  {
  }

  lemma RecordIsCharged(last: map<nat, int>, interval: int, key: nat, now: int)
    ensures Charged(last, last[key := now], interval, key, now)
  {
  }

  lemma EvictionIsCharged(b: Bounded, interval: int, maxKeys: nat, key: nat, now: int)
    requires BoundedOk(b, maxKeys) && b.oldest != {} && now - First(b.oldest).0 >= interval
    ensures Charged(b.last, (b.last - {First(b.oldest).1})[key := now], interval, key, now)
  {
    var e := First(b.oldest);
    assert e in b.oldest;
  }

  lemma AdmittedIsCharged(b: Bounded, interval: int, maxKeys: nat, key: nat, now: int)
    requires BoundedOk(b, maxKeys) && 0 < interval <= I64_MAX
    ensures
      var (r, ok) := BoundedAllow(b, interval, maxKeys, key, now);
      if ok then Charged(b.last, r.last, interval, key, now) else r == b
  {
    hide TooSoon, BoundedOk, Charged, First;
    RecordIsCharged(b.last, interval, key, now);
    if key !in b.last && |b.last| >= maxKeys && b.oldest != {} {
      TooSoonIsExact(now, First(b.oldest).0, interval);
      if now - First(b.oldest).0 >= interval { EvictionIsCharged(b, interval, maxKeys, key, now); }
    }
  }

  /** A key that is tracked, or for which there is room, is not refused for a spent budget. */
  lemma RoomIsNotSaturated(b: Bounded, interval: int, maxKeys: nat, key: nat, now: int)
    requires BoundedOk(b, maxKeys) && (key in b.last || |b.last| < maxKeys)
    ensures !Saturated(b.last, interval, maxKeys, key, now)
  {
    if Saturated(b.last, interval, maxKeys, key, now) {
      var keys: set<nat> :| |keys| == maxKeys && key !in keys && AllRecent(keys, b.last, interval, now);
      assert keys <= b.last.Keys && |b.last.Keys| == |b.last|;
      OrderedSets.SubsetSize(keys, b.last.Keys);
      SameSet(keys, b.last.Keys);
    }
  }

  /** An admission of the key at this time still counts: it is recorded, or its interval has run out. */
  ghost predicate Fenced(last: map<nat, int>, interval: int, key: nat, at: int, clock: int) {
    if key in last then last[key] >= at else clock - at >= interval
  }

  lemma ChargedIsFenced(before: map<nat, int>, after: map<nat, int>, interval: int, key: nat, now: int)
    requires Charged(before, after, interval, key, now)
    ensures Fenced(after, interval, key, now, now)
  {
  }

  lemma FencedLater(last: map<nat, int>, interval: int, key: nat, at: int, clock: int, now: int)
    requires Fenced(last, interval, key, at, clock) && clock <= now
    ensures Fenced(last, interval, key, at, now)
    ensures !Recent(last, interval, key, now) ==> now - at >= interval
  {
  }

  // ----- The derived source interval

  function Clamped(v: nat, lo: nat, hi: nat): nat {
    if v < lo then lo else if v > hi then hi else v
  }

  /** The per-source admission interval: longer than two complete process-wide intervals. */
  function SourceInterval(helloMs: nat, newSessionMs: nat): nat {
    var hello := Clamped(helloMs, 1, 250);
    var global := Clamped(newSessionMs, 1, 1000);
    if hello > 2 * global + 1 then hello else 2 * global + 1
  }

  /** Out-of-range settings count as the nearest that validation admits; of those, the longer of the two intervals is taken. */
  lemma SourceIntervalIs(helloMs: nat, newSessionMs: nat)
    ensures
      var r := SourceInterval(helloMs, newSessionMs);
      && (1 <= helloMs <= 250 && 1 <= newSessionMs <= 1000 ==>
            r >= helloMs && r >= 2 * newSessionMs + 1 && (r == helloMs || r == 2 * newSessionMs + 1))
      && (helloMs > 250 ==> r == SourceInterval(250, newSessionMs)) && (helloMs < 1 ==> r == SourceInterval(1, newSessionMs))
      && (newSessionMs > 1000 ==> r == SourceInterval(helloMs, 1000)) && (newSessionMs < 1 ==> r == SourceInterval(helloMs, 1))
  {
  }

  /**
    * For every configuration and every run: a source admitted at one request is refused at every later one
    * within two process-wide intervals, so a whole window after its own is uncontested by it.
    */
  lemma SourceSitsOut(helloMs: nat, newSessionMs: nat, maxKeys: nat, requests: seq<Request>, clock: int, i: nat, j: nat)
    requires Nondecreasing(requests, clock) && i < j < |requests| && requests[i].key == requests[j].key
    requires Verdicts(Bounded(map[], {}), SourceInterval(helloMs, newSessionMs), maxKeys, requests)[i]
    requires requests[j].now <= requests[i].now + 2 * Clamped(newSessionMs, 1, 1000)
    ensures !Verdicts(Bounded(map[], {}), SourceInterval(helloMs, newSessionMs), maxKeys, requests)[j]
  {
    hide Verdicts;
    var none := Bounded(map[], {});
    if Verdicts(none, SourceInterval(helloMs, newSessionMs), maxKeys, requests)[j] {
      AdmissionsAreSpaced(none, map[], SourceInterval(helloMs, newSessionMs), maxKeys, requests, clock, i, j);
    }
  }
}
