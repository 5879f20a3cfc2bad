/** Ordered sets of ids (Rust's `BTreeSet`): ascending enumeration, and enumeration after a cursor. */
module OrderedSets {
  import opened Options

  ghost predicate Ascending(s: seq<nat>) {
    forall i, j :: 0 <= i < j < |s| ==> s[i] < s[j]
  }

  ghost predicate Distinct<T>(s: seq<T>) {
    forall i, j :: 0 <= i < j < |s| ==> s[i] != s[j]
  }

  ghost predicate SameElements<T(!new)>(a: seq<T>, s: set<T>) {
    forall x :: x in a <==> x in s
  }

  ghost predicate IsLeast(s: set<nat>, x: nat) {
    x in s && forall y :: y in s ==> x <= y
  }

  lemma {:induction false} LeastExists(s: set<nat>) returns (x: nat)
    requires s != {}
    ensures IsLeast(s, x)
  {
    x :| x in s;
    if s != {x} {
      var m := LeastExists(s - {x});
      forall y | y in s ensures (if x < m then x else m) <= y {
        if y != x { assert y in s - {x}; }
      }
      x := if x < m then x else m;
    }
  }

  function Least(s: set<nat>): (x: nat)
    requires s != {}
    ensures IsLeast(s, x)
  {
    assert exists x :: IsLeast(s, x) by { var x := LeastExists(s); }
    var x :| x in s && forall y :: y in s ==> x <= y;
    x
  }

  function Sorted(s: set<nat>): (r: seq<nat>)
    ensures Ascending(r) && |r| == |s| && SameElements(r, s)
  {
    if s == {} then [] else
      var x := Least(s);
      var rest := Sorted(s - {x});
      assert forall i :: 0 <= i < |rest| ==> rest[i] in rest;
      [x] + rest
  }

  lemma TailElements(a: seq<nat>)
    requires Ascending(a) && |a| > 0
    ensures Ascending(a[1..])
    ensures forall x :: x in a[1..] <==> x in a && x != a[0]
    ensures forall x :: x in a ==> a[0] <= x
  {
    assert a == [a[0]] + a[1..];
    forall x | x in a[1..] ensures x != a[0] {
      var k :| 0 <= k < |a| - 1 && a[1..][k] == x;
      assert a[0] < a[k + 1];
    }
  }

  /** An ascending sequence is determined by its elements. */
  lemma {:induction false} AscendingUnique(a: seq<nat>, b: seq<nat>)
    requires Ascending(a) && Ascending(b)
    requires forall x :: x in a <==> x in b
    ensures a == b
  {
    assert |a| > 0 ==> a[0] in b;
    assert |b| > 0 ==> b[0] in a;
    if |a| > 0 && |b| > 0 {
      TailElements(a);
      TailElements(b);
      AscendingUnique(a[1..], b[1..]);
      assert a == [a[0]] + a[1..] && b == [b[0]] + b[1..];
    }
  }

  function Above(s: set<nat>, c: nat): set<nat> {
    set x | x in s && x > c
  }

  function UpTo(s: set<nat>, c: nat): set<nat> {
    set x | x in s && x <= c
  }

  /** Every id once, starting after the cursor and wrapping round to it. */
  function Rotated(s: set<nat>, cursor: Option<nat>): seq<nat> {
    match cursor
    case None => Sorted(s)
    case Some(c) => Sorted(Above(s, c)) + Sorted(UpTo(s, c))
  }

  lemma ConcatDistinct<T(!new)>(a: seq<T>, b: seq<T>)
    requires Distinct(a) && Distinct(b)
    requires forall x :: x in a ==> x !in b
    ensures Distinct(a + b)
  {
    var s := a + b;
    forall i, j | 0 <= i < j < |s| ensures s[i] != s[j] {
      if i < |a| <= j { assert a[i] in a && b[j - |a|] in b; }
    }
  }

  lemma RotatedIsPermutation(s: set<nat>, cursor: Option<nat>)
    ensures |Rotated(s, cursor)| == |s| && SameElements(Rotated(s, cursor), s) && Distinct(Rotated(s, cursor))
  {
    hide Sorted;
    if cursor.Some? {
      var a, b := Above(s, cursor.value), UpTo(s, cursor.value);
      assert s == a + b && |a + b| == |a| + |b|;
      ConcatDistinct(Sorted(a), Sorted(b));
    }
  }

  /** At most `limit` ids in circular order after the cursor. */
  function After(s: set<nat>, cursor: Option<nat>, limit: nat): (r: seq<nat>)
    ensures |r| == (if limit < |s| then limit else |s|) && Distinct(r)
    ensures forall x :: x in r ==> x in s
    ensures limit >= |s| ==> SameElements(r, s)
  {
    hide Rotated;
    RotatedIsPermutation(s, cursor);
    Rotated(s, cursor)[..if limit < |s| then limit else |s|]
  }

  /** The position `steps` places on from `i` on a circle of `n` places, for at most one lap. */
  function Circular(i: nat, steps: nat, n: nat): (k: nat)
    requires i < n && steps <= n
    ensures k < n
  {
    if i + steps < n then i + steps else i + steps - n
  }

  lemma SliceElements(all: seq<nat>, i: nat)
    requires Ascending(all) && i < |all|
    ensures Ascending(all[i + 1..]) && Ascending(all[..i + 1])
    ensures forall x :: x in all[i + 1..] <==> x in all && x > all[i]
    ensures forall x :: x in all[..i + 1] <==> x in all && x <= all[i]
  {
    forall x | x in all
      ensures x > all[i] ==> x in all[i + 1..]
      ensures x <= all[i] ==> x in all[..i + 1]
    {
      var k :| 0 <= k < |all| && all[k] == x;
      if k > i { assert all[i + 1..][k - i - 1] == x; } else { assert all[..i + 1][k] == x; }
    }
    var hi, lo := all[i + 1..], all[..i + 1];
    forall x | x in hi ensures x > all[i] {
      var k :| 0 <= k < |hi| && hi[k] == x;
      assert all[i] < all[k + i + 1];
    }
    forall x | x in lo ensures x <= all[i] {
      var k :| 0 <= k < |lo| && lo[k] == x;
      assert k == i || all[k] < all[i];
    }
  }

  /** When the cursor stands on a member, the enumeration walks the ascending order round from it. */
  lemma RotatedAt(s: set<nat>, i: nat)
    requires i < |s|
    ensures Rotated(s, Some(Sorted(s)[i])) == Sorted(s)[i + 1..] + Sorted(s)[..i + 1]
  {
    hide Sorted;
    var all := Sorted(s);
    SliceElements(all, i);
    AscendingUnique(Sorted(Above(s, all[i])), all[i + 1..]);
    AscendingUnique(Sorted(UpTo(s, all[i])), all[..i + 1]);
  }

  lemma AfterAt(s: set<nat>, i: nat, limit: nat, j: nat)
    requires i < |s| && j < limit && j < |s|
    ensures After(s, Some(Sorted(s)[i]), limit)[j] == Sorted(s)[Circular(i, j + 1, |s|)]
  {
    hide Sorted, Rotated;
    RotatedAt(s, i);
  }

  lemma AfterStart(s: set<nat>, limit: nat, j: nat)
    requires j < limit && j < |s|
    ensures After(s, None, limit)[j] == Sorted(s)[j]
  {
    hide Sorted;
  }

  lemma SubsetSize<T>(a: set<T>, b: set<T>)
    requires a <= b
    ensures |a| <= |b|
  {
    assert b == a + (b - a);
  }
}
