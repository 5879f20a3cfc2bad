/** The client's view of remote entities: the sample ring, the pose sampler over it, and the snapshot cache. */
module ClientSync {
  import opened Options
  import opened OrderedSets

  const RING_CAPACITY := 32

  datatype Vec3 = Vec3(x: real, y: real, z: real)

  /** A rotation as received, or the spherical blend of two by a fraction. */
  datatype Rotation = Exact(q: nat) | Slerp(from: nat, to: nat, fraction: real)

  datatype Sample = Sample(pos: Vec3, rot: nat, vel: Vec3, tMs: nat, receivedMs: int, link: nat)

  const NO_SAMPLE := Sample(Vec3(0.0, 0.0, 0.0), 0, Vec3(0.0, 0.0, 0.0), 0, 0, 0)

  // ----- The ring

  /** The last `cap` elements. */
  function Suffix<T>(s: seq<T>, cap: nat): seq<T> {
    if |s| <= cap then s else s[|s| - cap..]
  }

  lemma ModOneLap(x: nat, n: nat)
    requires 0 < n && x < 2 * n
    ensures x % n == if x < n then x else x - n
  {
    if x >= n { assert x % n == (x - n) % n; }
  }

  ghost predicate RingOk(capacity: nat, head: nat, count: nat) {
    0 < capacity && head < capacity && count <= capacity && (count < capacity ==> head == count)
  }

  /** What a ring of slots holds, oldest first. */
  ghost function Unrolled(slots: seq<Sample>, head: nat, count: nat): (s: seq<Sample>)
    requires RingOk(|slots|, head, count)
    ensures |s| == count
  {
    if count < |slots| then slots[..count] else slots[head..] + slots[..head]
  }

  /** Writing at the head drops the oldest sample once the ring is full, and none before. */
  lemma PushUnrolled(slots: seq<Sample>, head: nat, count: nat, sample: Sample)
    requires RingOk(|slots|, head, count)
    ensures
      var head' := if head + 1 < |slots| then head + 1 else 0;
      var count' := if count < |slots| then count + 1 else count;
      && RingOk(|slots|, head', count')
      && Unrolled(slots[head := sample], head', count') == Suffix(Unrolled(slots, head, count) + [sample], |slots|)
  {
  }

  /** Reading relative to the oldest sample. */
  lemma UnrolledAt(slots: seq<Sample>, head: nat, count: nat, index: nat)
    requires RingOk(|slots|, head, count) && index < count
    ensures
      var start := if count < |slots| then 0 else head;
      Unrolled(slots, head, count)[index] == slots[if start + index < |slots| then start + index else start + index - |slots|]
  {
  }

  class EntityTrack {
    const id: nat
    const ring: array<Sample>
    var head: nat
    var count: nat
    var latest: Sample
    var lastUpdatedMs: int

    ghost predicate Valid()
      reads this
    {
      RingOk(ring.Length, head, count)
    }

    /** The retained samples, oldest first. */
    ghost function Contents(): (s: seq<Sample>)
      requires Valid()
      reads this, ring
      ensures |s| == count
    {
      Unrolled(ring[..], head, count)
    }

    constructor (entity: nat, capacity: nat)
      requires capacity > 0
      ensures Valid() && fresh(ring) && ring.Length == capacity && id == entity && Contents() == []
    {
      id := entity;
      ring := new Sample[capacity](_ => NO_SAMPLE);
      head, count := 0, 0;
      latest, lastUpdatedMs := NO_SAMPLE, 0;
    }

    /** Overwrite the oldest sample once the ring is full. */
    method Push(sample: Sample)
      requires Valid()
      modifies this, ring
      ensures Valid()
      ensures Contents() == Suffix(old(Contents()) + [sample], ring.Length)
      ensures latest == sample && lastUpdatedMs == sample.receivedMs
    {
      hide Unrolled, Suffix;
      PushUnrolled(ring[..], head, count, sample);
      ModOneLap(head + 1, ring.Length);
      latest := sample;
      lastUpdatedMs := sample.receivedMs;
      ring[head] := sample;
      assert ring[..] == old(ring[..])[old(head) := sample];
      head := (head + 1) % ring.Length;
      if count < ring.Length { count := count + 1; }
    }

    /** Read a retained sample, 0 for the oldest; out of range is refused. */
    method TryGetSample(index: int) returns (ok: bool, sample: Sample)
      requires Valid()
      ensures ok <==> 0 <= index < count
      ensures ok ==> sample == Contents()[index]
    {
      hide Unrolled;
      if index < 0 || index >= count { return false, NO_SAMPLE; }
      ModOneLap(head + ring.Length - count, ring.Length);
      var start := (head + ring.Length - count) % ring.Length;
      ModOneLap(start + index, ring.Length);
      var slot := (start + index) % ring.Length;
      UnrolledAt(ring[..], head, count, index);
      return true, ring[slot];
    }

    method SampleAt(renderMs: int, delayMs: int, maxAheadMs: int) returns (pose: Option<Pose>)
      requires Valid()
      ensures pose == PoseAt(Contents(), renderMs, delayMs, maxAheadMs)
    {
      hide Contents, Blend, Extrapolate, FirstBracket;
      if count == 0 { return None; }
      var _, oldest := TryGetSample(0);
      if count == 1 { return Some(Pose(oldest.pos, Exact(oldest.rot))); }
      var effective := renderMs - delayMs;
      var _, newest := TryGetSample(count - 1);
      if effective <= oldest.tMs { return Some(Pose(oldest.pos, Exact(oldest.rot))); }
      if effective >= newest.tMs {
        return Some(Pose(Extrapolate(newest, effective - newest.tMs, maxAheadMs), Exact(newest.rot)));
      }
      BracketExists(Contents(), effective, 0);
      for i := 0 to count - 1
        invariant FirstBracket(Contents(), effective, 0) == FirstBracket(Contents(), effective, i)
      {
        FirstBracketStep(Contents(), effective, i);
        var _, a := TryGetSample(i);
        var _, b := TryGetSample(i + 1);
        if a.tMs <= effective <= b.tMs { return Some(Blend(a, b, effective)); }
      }
      FirstBracketStep(Contents(), effective, count - 1);
      assert false;
    }
  }

  /** Pushing one sample at a time. */
  function PushAll(contents: seq<Sample>, samples: seq<Sample>, cap: nat): seq<Sample>
    decreases |samples|
  {
    if samples == [] then contents else PushAll(Suffix(contents + [samples[0]], cap), samples[1..], cap)
  }

  /** After any pushes the ring enumerates exactly the most recent samples, oldest to newest. */
  lemma {:induction false} RingKeepsMostRecent(contents: seq<Sample>, samples: seq<Sample>, cap: nat)
    requires |contents| <= cap && cap > 0
    ensures PushAll(contents, samples, cap) == Suffix(contents + samples, cap)
    decreases |samples|
  {
    if samples == [] {
      assert contents + samples == contents;
    } else {
      var next := Suffix(contents + [samples[0]], cap);
      RingKeepsMostRecent(next, samples[1..], cap);
      SuffixConcat(contents + [samples[0]], samples[1..], cap);
      assert contents + [samples[0]] + samples[1..] == contents + samples;
    }
  }

  lemma SuffixConcat(a: seq<Sample>, b: seq<Sample>, cap: nat)
    ensures Suffix(Suffix(a, cap) + b, cap) == Suffix(a + b, cap)
  {
  }

  // ----- The sampler

  datatype Pose = Pose(pos: Vec3, rot: Rotation)

  function Extrapolate(newest: Sample, aheadMs: int, maxAheadMs: int): Vec3 {
    var t := (if aheadMs > maxAheadMs then maxAheadMs else aheadMs) as real / 1000.0;
    Vec3(newest.pos.x + newest.vel.x * t, newest.pos.y + newest.vel.y * t, newest.pos.z + newest.vel.z * t)
  }

  function Lerp(a: real, b: real, f: real): real {
    a * (1.0 - f) + b * f
  }

  function Fraction(a: Sample, b: Sample, effective: int): real {
    var span := b.tMs - a.tMs;
    if span <= 0 then 0.0 else (effective - a.tMs) as real / span as real
  }

  function Blend(a: Sample, b: Sample, effective: int): Pose {
    var f := Fraction(a, b, effective);
    Pose(Vec3(Lerp(a.pos.x, b.pos.x, f), Lerp(a.pos.y, b.pos.y, f), Lerp(a.pos.z, b.pos.z, f)), Slerp(a.rot, b.rot, f))
  }

  /** The first adjacent pair that brackets the time, at or after `from`. */
  function FirstBracket(s: seq<Sample>, effective: int, from: nat): (r: Option<nat>)
    ensures r.Some? ==> r.value + 1 < |s| && s[r.value].tMs <= effective <= s[r.value + 1].tMs
    decreases |s| - from
  {
    if from + 1 >= |s| then None
    else if s[from].tMs <= effective <= s[from + 1].tMs then Some(from)
    else FirstBracket(s, effective, from + 1)
  }

  lemma FirstBracketStep(s: seq<Sample>, effective: int, from: nat)
    ensures FirstBracket(s, effective, from) ==
            if from + 1 >= |s| then None
            else if s[from].tMs <= effective <= s[from + 1].tMs then Some(from)
            else FirstBracket(s, effective, from + 1)
  {
  }

  /** What the sampler shows at a render time; the last case is its fallback for a missing bracket. */
  function PoseAt(s: seq<Sample>, renderMs: int, delayMs: int, maxAheadMs: int): Option<Pose> {
    if s == [] then None
    else if |s| == 1 then Some(Pose(s[0].pos, Exact(s[0].rot)))
    else
      var effective := renderMs - delayMs;
      var oldest, newest := s[0], s[|s| - 1];
      if effective <= oldest.tMs then Some(Pose(oldest.pos, Exact(oldest.rot)))
      else if effective >= newest.tMs
      then Some(Pose(Extrapolate(newest, effective - newest.tMs, maxAheadMs), Exact(newest.rot)))
      else
        var at := FirstBracket(s, effective, 0);
        if at.Some? then Some(Blend(s[at.value], s[at.value + 1], effective))
        else Some(Pose(newest.pos, Exact(newest.rot)))
  }

  /**
    * The fallback is dead code, and not only for ordered timestamps: a track that starts before the time
    * and ends after it crosses it somewhere, however its timestamps jump in between.
    */
  lemma {:induction false} BracketExists(s: seq<Sample>, effective: int, from: nat)
    requires from < |s| && s[from].tMs <= effective < s[|s| - 1].tMs
    ensures FirstBracket(s, effective, from).Some?
    decreases |s| - from
  {
    if !(s[from].tMs <= effective <= s[from + 1].tMs) { BracketExists(s, effective, from + 1); }
  }

  predicate Between(v: real, a: real, b: real) {
    (a <= v <= b) || (b <= v <= a)
  }

  lemma LerpBetween(a: real, b: real, f: real)
    requires 0.0 <= f <= 1.0
    ensures Between(Lerp(a, b, f), a, b)
  {
    assert Lerp(a, b, f) - a == (b - a) * f;
    assert b - Lerp(a, b, f) == (b - a) * (1.0 - f);
    SignOfProduct(b - a, f);
    SignOfProduct(b - a, 1.0 - f);
  }

  lemma SignOfProduct(x: real, f: real)
    requires f >= 0.0
    ensures x >= 0.0 ==> x * f >= 0.0
    ensures x <= 0.0 ==> x * f <= 0.0
  {
  }

  lemma FractionInUnit(a: Sample, b: Sample, effective: int)
    requires a.tMs <= effective <= b.tMs
    ensures 0.0 <= Fraction(a, b, effective) <= 1.0
  {
  }

  /** Interpolation never leaves the box spanned by its bracket. */
  lemma BlendBetween(a: Sample, b: Sample, effective: int)
    requires a.tMs <= effective <= b.tMs
    ensures
      var p := Blend(a, b, effective).pos;
      Between(p.x, a.pos.x, b.pos.x) && Between(p.y, a.pos.y, b.pos.y) && Between(p.z, a.pos.z, b.pos.z)
  {
    hide Fraction;
    FractionInUnit(a, b, effective);
    var f := Fraction(a, b, effective);
    LerpBetween(a.pos.x, b.pos.x, f);
    LerpBetween(a.pos.y, b.pos.y, f);
    LerpBetween(a.pos.z, b.pos.z, f);
  }

  /** Distance covered, and turn taken, is in proportion to time elapsed, from one sample to the other. */
  lemma BlendIsProportional(a: Sample, b: Sample, effective: int)
    requires a.tMs <= effective <= b.tMs
    ensures
      var p := Blend(a, b, effective).pos;
      var span, part := (b.tMs - a.tMs) as real, (effective - a.tMs) as real;
      && (p.x - a.pos.x) * span == (b.pos.x - a.pos.x) * part
      && (p.y - a.pos.y) * span == (b.pos.y - a.pos.y) * part
      && (p.z - a.pos.z) * span == (b.pos.z - a.pos.z) * part
    ensures
      var r := Blend(a, b, effective).rot;
      r.Slerp? && r.from == a.rot && r.to == b.rot && r.fraction * (b.tMs - a.tMs) as real == (effective - a.tMs) as real
  {
    var span, part := (b.tMs - a.tMs) as real, (effective - a.tMs) as real;
    var f := Fraction(a, b, effective);
    assert f * span == part;
    ScaledStep(a.pos.x, b.pos.x, f, span, part);
    ScaledStep(a.pos.y, b.pos.y, f, span, part);
    ScaledStep(a.pos.z, b.pos.z, f, span, part);
  }

  lemma ScaledStep(a: real, b: real, f: real, span: real, part: real)
    requires f * span == part
    ensures (Lerp(a, b, f) - a) * span == (b - a) * part
  {
    assert Lerp(a, b, f) - a == (b - a) * f;
    assert (b - a) * f * span == (b - a) * (f * span);
  }

  /** Up to the cap, extrapolation is the newest velocity times the time elapsed since the newest sample. */
  lemma ExtrapolationFollowsVelocity(newest: Sample, aheadMs: int, maxAheadMs: int)
    requires 0 <= aheadMs <= maxAheadMs
    ensures
      var p := Extrapolate(newest, aheadMs, maxAheadMs);
      && (p.x - newest.pos.x) * 1000.0 == newest.vel.x * aheadMs as real
      && (p.y - newest.pos.y) * 1000.0 == newest.vel.y * aheadMs as real
      && (p.z - newest.pos.z) * 1000.0 == newest.vel.z * aheadMs as real
    ensures forall more :: more >= maxAheadMs ==> Extrapolate(newest, more, maxAheadMs) == Extrapolate(newest, maxAheadMs, maxAheadMs)
  {
    var t := aheadMs as real / 1000.0;
    assert newest.vel.x * t * 1000.0 == newest.vel.x * (t * 1000.0);
    assert newest.vel.y * t * 1000.0 == newest.vel.y * (t * 1000.0);
    assert newest.vel.z * t * 1000.0 == newest.vel.z * (t * 1000.0);
  }

  function AbsR(x: real): real { if x < 0.0 then -x else x }

  lemma StepBound(v: real, t: real, cap: real)
    requires 0.0 <= t <= cap
    ensures AbsR(v * t) <= AbsR(v) * cap
  {
    assert AbsR(v * t) == AbsR(v) * t;
    assert AbsR(v) * cap - AbsR(v) * t == AbsR(v) * (cap - t);
  }

  /** Extrapolation moves each coordinate by at most the velocity times the cap. */
  lemma ExtrapolationIsCapped(newest: Sample, aheadMs: int, maxAheadMs: int)
    requires 0 <= aheadMs && 0 <= maxAheadMs
    ensures
      var p := Extrapolate(newest, aheadMs, maxAheadMs);
      var cap := maxAheadMs as real / 1000.0;
      && AbsR(p.x - newest.pos.x) <= AbsR(newest.vel.x) * cap
      && AbsR(p.y - newest.pos.y) <= AbsR(newest.vel.y) * cap
      && AbsR(p.z - newest.pos.z) <= AbsR(newest.vel.z) * cap
  {
    var t := (if aheadMs > maxAheadMs then maxAheadMs else aheadMs) as real / 1000.0;
    var cap := maxAheadMs as real / 1000.0;
    StepBound(newest.vel.x, t, cap);
    StepBound(newest.vel.y, t, cap);
    StepBound(newest.vel.z, t, cap);
  }

  /** The pair brackets the time, and no earlier pair does. */
  ghost predicate Brackets(s: seq<Sample>, effective: int, i: nat) {
    && i + 1 < |s| && s[i].tMs <= effective <= s[i + 1].tMs
    && forall k :: 0 <= k < i ==> !(s[k].tMs <= effective <= s[k + 1].tMs)
  }

  /**
    * How a pose comes about, for every track and every time: the only sample, or the oldest until its time; from the
    * newest sample's time on, that sample moved ahead; and in between a blend of the first pair that brackets the time.
    */
  ghost predicate Explained(s: seq<Sample>, effective: int, maxAheadMs: int, pose: Pose)
    requires s != []
  {
    var oldest, newest := s[0], s[|s| - 1];
    if |s| == 1 || effective <= oldest.tMs then pose == Pose(oldest.pos, Exact(oldest.rot))
    else if effective >= newest.tMs
    then pose == Pose(Extrapolate(newest, effective - newest.tMs, maxAheadMs), Exact(newest.rot))
    else exists i: nat :: Brackets(s, effective, i) && pose == Blend(s[i], s[i + 1], effective)
  }

  lemma {:induction false} BracketIsFirst(s: seq<Sample>, effective: int, from: nat)
    requires forall k :: 0 <= k < from && k + 1 < |s| ==> !(s[k].tMs <= effective <= s[k + 1].tMs)
    ensures FirstBracket(s, effective, from).Some? ==> Brackets(s, effective, FirstBracket(s, effective, from).value)
    decreases |s| - from
  {
    if from + 1 < |s| && !(s[from].tMs <= effective <= s[from + 1].tMs) { BracketIsFirst(s, effective, from + 1); }
  }

  /** There is a pose exactly for a track with samples, it is the explained one, and the fallback is never shown. */
  lemma PosesAreExplained(s: seq<Sample>, renderMs: int, delayMs: int, maxAheadMs: int)
    ensures PoseAt(s, renderMs, delayMs, maxAheadMs).None? <==> s == []
    ensures s != [] ==> Explained(s, renderMs - delayMs, maxAheadMs, PoseAt(s, renderMs, delayMs, maxAheadMs).value)
  {
    hide Blend, Extrapolate, Brackets;
    if |s| > 1 && s[0].tMs < renderMs - delayMs < s[|s| - 1].tMs {
      BracketExists(s, renderMs - delayMs, 0);
      BracketIsFirst(s, renderMs - delayMs, 0);
    }
  }

  ghost predicate Rising(s: seq<Sample>) {
    forall i, j :: 0 <= i < j < |s| ==> s[i].tMs < s[j].tMs
  }

  lemma BlendAtEnds(a: Sample, b: Sample)
    requires a.tMs < b.tMs
    ensures Blend(a, b, a.tMs).pos == a.pos && Blend(a, b, b.tMs).pos == b.pos
  {
    assert Fraction(a, b, a.tMs) == 0.0;
    var span := (b.tMs - a.tMs) as real;
    assert span / span == 1.0;
  }

  lemma NothingAhead(newest: Sample, maxAheadMs: int)
    requires maxAheadMs >= 0
    ensures Extrapolate(newest, 0, maxAheadMs) == newest.pos
  {
    assert 0.0 / 1000.0 == 0.0;
  }

  lemma BracketAtSample(s: seq<Sample>, i: nat, k: nat)
    requires Rising(s) && 0 < i < |s| && Brackets(s, s[i].tMs, k)
    ensures k == i - 1
  {
    assert s[i - 1].tMs <= s[i].tMs <= s[(i - 1) + 1].tMs;
  }

  /** The motion passes through its samples: with rising timestamps, each is shown exactly where it was at its own time. */
  lemma SamplesAreShown(s: seq<Sample>, i: nat, renderMs: int, delayMs: int, maxAheadMs: int)
    requires Rising(s) && i < |s| && renderMs - delayMs == s[i].tMs && maxAheadMs >= 0
    ensures PoseAt(s, renderMs, delayMs, maxAheadMs).Some? && PoseAt(s, renderMs, delayMs, maxAheadMs).value.pos == s[i].pos
  {
    hide PoseAt, Blend, Extrapolate, Brackets, Rising, Explained;
    PosesAreExplained(s, renderMs, delayMs, maxAheadMs);
    ShownAt(s, i, maxAheadMs, PoseAt(s, renderMs, delayMs, maxAheadMs).value);
  }

  lemma RisingAt(s: seq<Sample>, i: nat)
    requires Rising(s) && i < |s|
    ensures (0 < i ==> s[0].tMs < s[i].tMs) && (i < |s| - 1 ==> s[i].tMs < s[|s| - 1].tMs)
  {
  }

  lemma ShownAt(s: seq<Sample>, i: nat, maxAheadMs: int, pose: Pose)
    requires Rising(s) && i < |s| && maxAheadMs >= 0 && Explained(s, s[i].tMs, maxAheadMs, pose)
    ensures pose.pos == s[i].pos
  {
    hide Blend, Extrapolate, Rising;
    RisingAt(s, i);
    NothingAhead(s[|s| - 1], maxAheadMs);
    if 0 < i < |s| - 1 {
      var k: nat :| Brackets(s, s[i].tMs, k) && pose == Blend(s[k], s[k + 1], s[i].tMs);
      BracketAtSample(s, i, k);
      assert s[k].tMs < s[k + 1].tMs by { RisingNext(s, k); }
      BlendAtEnds(s[k], s[k + 1]);
    }
  }

  lemma RisingNext(s: seq<Sample>, k: nat)
    requires Rising(s) && k + 1 < |s|
    ensures s[k].tMs < s[k + 1].tMs
  {
  }

  // ----- The cache

  datatype Track = Track(samples: seq<Sample>, lastUpdatedMs: int)

  function Updated(tracks: map<nat, Track>, id: nat, sample: Sample): map<nat, Track> {
    var before := if id in tracks then tracks[id].samples else [];
    tracks[id := Track(Suffix(before + [sample], RING_CAPACITY), sample.receivedMs)]
  }

  predicate Stale(t: Track, now: int, maxAge: int) {
    now - t.lastUpdatedMs > maxAge
  }

  function Pruned(tracks: map<nat, Track>, now: int, maxAge: int): map<nat, Track> {
    map id | id in tracks && !Stale(tracks[id], now, maxAge) :: tracks[id]
  }

  // ----- The cache over whole runs

  datatype CacheOp = Upsert(id: nat, sample: Sample) | PruneAt(now: int, maxAge: int)

  function DoCache(tracks: map<nat, Track>, op: CacheOp): map<nat, Track> {
    match op
    case Upsert(id, sample) => Updated(tracks, id, sample)
    case PruneAt(now, maxAge) => Pruned(tracks, now, maxAge)
  }

  function RunCacheOps(tracks: map<nat, Track>, ops: seq<CacheOp>): map<nat, Track>
    decreases |ops|
  {
    if ops == [] then tracks else RunCacheOps(DoCache(tracks, ops[0]), ops[1..])
  }

  /** Every sample of one entity since it last appeared: a prune that finds its latest too old starts it over. */
  function Heard(before: seq<Sample>, id: nat, ops: seq<CacheOp>): seq<Sample>
    decreases |ops|
  {
    if ops == [] then before
    else match ops[0]
      case Upsert(other, sample) => Heard(if other == id then before + [sample] else before, id, ops[1..])
      case PruneAt(now, maxAge) =>
        Heard(if before != [] && now - before[|before| - 1].receivedMs > maxAge then [] else before, id, ops[1..])
  }

  /** The cache holds the entity exactly if it was heard, with its most recent samples and the time of the latest. */
  ghost predicate Holds(tracks: map<nat, Track>, id: nat, heard: seq<Sample>) {
    && (id in tracks <==> heard != [])
    && (heard != [] ==> tracks[id].samples == Suffix(heard, RING_CAPACITY) && tracks[id].lastUpdatedMs == heard[|heard| - 1].receivedMs)
  }

  lemma UpsertHolds(tracks: map<nat, Track>, id: nat, heard: seq<Sample>, other: nat, sample: Sample)
    requires Holds(tracks, id, heard)
    ensures Holds(Updated(tracks, other, sample), id, if other == id then heard + [sample] else heard)
  {
    if other == id {
      SuffixConcat(heard, [sample], RING_CAPACITY);
      if heard == [] { assert heard + [sample] == [sample] && [] + [sample] == [sample]; }
    }
  }

  /**
    * Over every run of updates and prunes the cache is the full history cut down: an entity is in it exactly while its
    * latest sample was not too old at any prune since, with exactly its most recent samples, oldest first.
    */
  lemma {:induction false} CacheIsHistory(tracks: map<nat, Track>, id: nat, heard: seq<Sample>, ops: seq<CacheOp>)
    requires Holds(tracks, id, heard)
    ensures Holds(RunCacheOps(tracks, ops), id, Heard(heard, id, ops))
    decreases |ops|
  {
    hide Holds;
    if ops != [] {
      match ops[0]
      case Upsert(other, sample) =>
        UpsertHolds(tracks, id, heard, other, sample);
        CacheIsHistory(Updated(tracks, other, sample), id, if other == id then heard + [sample] else heard, ops[1..]);
      case PruneAt(now, maxAge) =>
        var kept := if heard != [] && now - heard[|heard| - 1].receivedMs > maxAge then [] else heard;
        PruneHolds(tracks, id, heard, now, maxAge);
        CacheIsHistory(Pruned(tracks, now, maxAge), id, kept, ops[1..]);
    }
  }

  lemma PruneHolds(tracks: map<nat, Track>, id: nat, heard: seq<Sample>, now: int, maxAge: int)
    requires Holds(tracks, id, heard)
    ensures Holds(Pruned(tracks, now, maxAge), id, if heard != [] && now - heard[|heard| - 1].receivedMs > maxAge then [] else heard)
  {
  }

  class SnapshotCache {
    var players: map<nat, Track>
    var boats: map<nat, Track>
    var lastServerTick: nat

    constructor ()
      ensures players == map[] && boats == map[] && lastServerTick == 0
    {
      players, boats, lastServerTick := map[], map[], 0;
    }

    /** Older ticks are ignored. */
    method ObserveServerTick(tick: nat)
      modifies this`lastServerTick
      ensures lastServerTick >= tick && lastServerTick >= old(lastServerTick)
      ensures lastServerTick in {tick, old(lastServerTick)}
    {
      if tick >= lastServerTick { lastServerTick := tick; }
    }

    method UpsertPlayer(id: nat, sample: Sample)
      modifies this`players
      ensures players == Updated(old(players), id, sample)
    {
      players := Updated(players, id, sample);
    }

    method UpsertBoat(id: nat, sample: Sample)
      modifies this`boats
      ensures boats == Updated(old(boats), id, sample)
    {
      boats := Updated(boats, id, sample);
    }

    /** Drop exactly the stale entities, and count them. */
    method PruneStale(now: int, maxAge: int) returns (removed: nat)
      modifies this
      ensures players == Pruned(old(players), now, maxAge) && boats == Pruned(old(boats), now, maxAge)
      ensures removed == |old(players)| - |players| + |old(boats)| - |boats|
      ensures lastServerTick == old(lastServerTick)
    {
      var p, goneP := Prune(players, now, maxAge);
      var b, goneB := Prune(boats, now, maxAge);
      players, boats := p, b;
      removed := goneP + goneB;
    }

    static method Prune(tracks: map<nat, Track>, now: int, maxAge: int) returns (kept: map<nat, Track>, removed: nat)
      ensures kept == Pruned(tracks, now, maxAge) && removed == |tracks| - |kept|
    {
      var scratch := StaleIds(tracks, now, maxAge);
      kept := RemoveAll(tracks, scratch);
      removed := |scratch|;
      RemovedSize(tracks, scratch);
    }

    static lemma RemovedSize(tracks: map<nat, Track>, scratch: set<nat>)
      requires scratch <= tracks.Keys
      ensures |tracks - scratch| == |tracks| - |scratch|
    {
      assert |tracks.Keys - scratch| == |tracks.Keys| - |scratch|;
      assert (tracks - scratch).Keys == tracks.Keys - scratch;
      assert |tracks - scratch| == |(tracks - scratch).Keys| && |tracks| == |tracks.Keys|;
    }

    static method StaleIds(tracks: map<nat, Track>, now: int, maxAge: int) returns (scratch: set<nat>)
      ensures scratch == set id | id in tracks && Stale(tracks[id], now, maxAge)
    {
      scratch := {};
      var todo := tracks.Keys;
      while todo != {}
        invariant todo <= tracks.Keys
        invariant scratch == set id | id in tracks && id !in todo && Stale(tracks[id], now, maxAge)
        decreases |todo|
      {
        var id := Least(todo);
        todo := todo - {id};
        if Stale(tracks[id], now, maxAge) { scratch := scratch + {id}; }
      }
    }

    static method RemoveAll(tracks: map<nat, Track>, scratch: set<nat>) returns (kept: map<nat, Track>)
      requires scratch <= tracks.Keys
      ensures kept == tracks - scratch
    {
      kept := tracks;
      var todo := scratch;
      while todo != {}
        invariant todo <= scratch && kept == tracks - (scratch - todo)
        decreases |todo|
      {
        var id := Least(todo);
        kept := kept - {id};
        todo := todo - {id};
      }
    }
  }
}
