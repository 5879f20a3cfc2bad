/** The spatial grid of `sw-world`: interest blocks, subscriptions and the two-way entity index. */
module World {
  import opened Options

  datatype Cell = Cell(cx: int, cz: int)

  const MAX_AOI_RADIUS := 16
  const MAX_WORLD_COORD := 10000000.0

  function Abs(x: int): nat {
    if x < 0 then -x else x
  }

  function Chebyshev(a: Cell, b: Cell): nat {
    if Abs(a.cx - b.cx) > Abs(a.cz - b.cz) then Abs(a.cx - b.cx) else Abs(a.cz - b.cz)
  }

  function CellOf(x: real, z: real, size: real): Cell
    requires size > 0.0
  {
    Cell((x / size).Floor, (z / size).Floor)
  }

  function Clamp(v: real): (r: real)
    ensures -MAX_WORLD_COORD <= r <= MAX_WORLD_COORD
  {
    if v < -MAX_WORLD_COORD then -MAX_WORLD_COORD else if v > MAX_WORLD_COORD then MAX_WORLD_COORD else v
  }

  function Gap(v: real, w: real): real {
    if v < w then w - v else v - w
  }

  /** Clamping moves a coordinate no further than the bounds demand, and one within them not at all. */
  lemma ClampIsNearest(v: real, w: real)
    requires -MAX_WORLD_COORD <= w <= MAX_WORLD_COORD
    ensures Gap(v, Clamp(v)) <= Gap(v, w)
    ensures Gap(v, w) == Gap(v, Clamp(v)) ==> w == Clamp(v)
    ensures Clamp(w) == w
  {
  }

  /** The position lies in the cell's square: its west and south edges belong to it, its east and north edges do not. */
  predicate Contains(c: Cell, x: real, z: real, size: real) {
    && c.cx as real * size <= x < (c.cx + 1) as real * size
    && c.cz as real * size <= z < (c.cz + 1) as real * size
  }

  lemma FloorIff(v: real, size: real, k: int)
    requires size > 0.0
    ensures (v / size).Floor == k <==> k as real * size <= v < (k + 1) as real * size
  {
    QuotientFloor(v / size, v, size, k);
  }

  lemma QuotientFloor(q: real, v: real, size: real, k: int)
    requires size > 0.0 && q * size == v
    ensures q.Floor == k <==> k as real * size <= v < (k + 1) as real * size
  {
    var low, high := k as real, (k + 1) as real;
    Scaled(low, q, v, size);
    Scaled(high, q, v, size);
    FloorOf(q, k);
  }

  lemma FloorOf(q: real, k: int)
    ensures q.Floor == k <==> k as real <= q < (k + 1) as real
  {
  }

  lemma Scaled(a: real, q: real, v: real, size: real)
    requires size > 0.0 && q * size == v
    ensures a <= q <==> a * size <= v
  {
    assert (q - a) * size == v - a * size;
    if a <= q { assert (q - a) * size >= 0.0; } else { assert (q - a) * size < 0.0; }
  }

  /** A position has exactly one cell: the one whose square contains it. */
  lemma CellContains(x: real, z: real, size: real, c: Cell)
    requires size > 0.0
    ensures CellOf(x, z, size) == c <==> Contains(c, x, z, size)
  {
    FloorIff(x, size, c.cx);
    FloorIff(z, size, c.cz);
  }

  lemma ScaleUp(q: real, size: real, bound: real)
    requires size >= 1.0 && bound > 0.0
    ensures q > bound ==> q * size > bound
  {
  }

  lemma FloorBound(v: real, size: real)
    requires size >= 1.0 && -MAX_WORLD_COORD <= v <= MAX_WORLD_COORD
    ensures -10000000 <= (v / size).Floor <= 10000000
  {
    var q := v / size;
    assert q * size == v;
    ScaleUp(q, size, MAX_WORLD_COORD);
    ScaleUp(-q, size, MAX_WORLD_COORD);
    assert (-q) * size == -v;
  }

  /** A clamped position keeps its whole interest block, and every distance in it, inside 32-bit integers. */
  lemma BlockFitsInt32(x: real, z: real, size: real, radius: nat, c: Cell)
    requires size >= 1.0 && radius <= MAX_AOI_RADIUS
    requires Chebyshev(c, CellOf(Clamp(x), Clamp(z), size)) <= radius
    ensures -0x8000_0000 <= c.cx < 0x8000_0000 && -0x8000_0000 <= c.cz < 0x8000_0000
  {
    FloorBound(Clamp(x), size);
    FloorBound(Clamp(z), size);
  }

  /** The square of cells within `radius` king moves of `center`. */
  function Block(center: Cell, radius: nat): (cells: set<Cell>)
    ensures forall c :: c in cells <==> Chebyshev(c, center) <= radius
  {
    var cells := set cx, cz | center.cx - radius <= cx <= center.cx + radius && center.cz - radius <= cz <= center.cz + radius
                     :: Cell(cx, cz);
    assert forall c :: Chebyshev(c, center) <= radius ==> c == Cell(c.cx, c.cz);
    cells
  }

  predicate RowMajor(a: Cell, b: Cell) {
    a.cz < b.cz || (a.cz == b.cz && a.cx < b.cx)
  }

  /** All cells of the block, each once, in row-major order. */
  method CellsInRadius(center: Cell, radius: nat) returns (cells: seq<Cell>)
    ensures |cells| == (2 * radius + 1) * (2 * radius + 1)
    ensures forall c :: c in cells <==> Chebyshev(c, center) <= radius
    ensures forall i, j :: 0 <= i < j < |cells| ==> RowMajor(cells[i], cells[j])
  {
    var side := 2 * radius + 1;
    cells := [];
    for row := 0 to side
      invariant |cells| == row * side
      invariant forall c :: c in cells <==> Abs(c.cx - center.cx) <= radius && 0 <= c.cz - center.cz + radius < row
      invariant forall i, j :: 0 <= i < j < |cells| ==> RowMajor(cells[i], cells[j])
    {
      var before := cells;
      for col := 0 to side
        invariant |cells| == row * side + col
        invariant forall c :: c in cells <==>
          c in before || (c.cz == center.cz + row - radius && 0 <= c.cx - center.cx + radius < col)
        invariant forall i, j :: 0 <= i < j < |cells| ==> RowMajor(cells[i], cells[j])
      {
        var next := Cell(center.cx + col - radius, center.cz + row - radius);
        assert forall i :: 0 <= i < |cells| ==> cells[i] in cells && RowMajor(cells[i], next);
        cells := cells + [next];
      }
      assert (row + 1) * side == row * side + side;
    }
  }

  // ----- Subscriptions

  datatype Subscribed = Subscribed(center: Option<Cell>, cells: set<Cell>)

  ghost predicate SubscriptionOk(s: Subscribed, radius: nat) {
    s.cells == if s.center.None? then {} else Block(s.center.value, radius)
  }

  ghost function Recenter(s: Subscribed, radius: nat, center: Cell): Subscribed {
    if s.center == Some(center) then s else Subscribed(Some(center), Block(center, radius))
  }

  /** Recentring always leaves the block of the new centre, and reports no change only when there was none. */
  lemma RecenterBlock(s: Subscribed, radius: nat, center: Cell)
    requires SubscriptionOk(s, radius)
    ensures SubscriptionOk(Recenter(s, radius, center), radius)
    ensures Recenter(s, radius, center).cells == Block(center, radius)
    ensures Recenter(s, radius, center).cells == s.cells <==> s.center == Some(center)
  {
    if s.center.Some? && s.center != Some(center) {
      var c := s.center.value;
      var only :=
        if center.cx > c.cx then Cell(center.cx + radius, center.cz)
        else if center.cx < c.cx then Cell(center.cx - radius, center.cz)
        else if center.cz > c.cz then Cell(center.cx, center.cz + radius)
        else Cell(center.cx, center.cz - radius);
      assert only in Block(center, radius) && only !in Block(c, radius);
    }
    if s.center.None? { assert center in Block(center, radius); }
  }

  class Subscription {
    const radius: nat
    var center: Option<Cell>
    var cells: set<Cell>

    ghost function View(): Subscribed
      reads this
    {
      Subscribed(center, cells)
    }

    constructor (r: nat)
      ensures radius == r && View() == Subscribed(None, {})
    {
      radius := r;
      center, cells := None, {};
    }

    /** Recentre, returning exactly the cells gained and lost. */
    method MoveTo(target: Cell) returns (added: set<Cell>, removed: set<Cell>)
      requires SubscriptionOk(View(), radius)
      modifies this
      ensures View() == Recenter(old(View()), radius, target)
      ensures added == cells - old(cells) && removed == old(cells) - cells
      ensures added == {} && removed == {} <==> old(center) == Some(target)
    {
      RecenterBlock(View(), radius, target);
      if center == Some(target) { return {}, {}; }
      var block := CellsInRadius(target, radius);
      var next := set c | c in block;
      assert next == Block(target, radius);
      added, removed := next - cells, cells - next;
      cells := next;
      center := Some(target);
    }
  }

  // ----- The entity index

  datatype Placement = Placement(cellOf: map<nat, Cell>, index: map<Cell, set<nat>>)

  /** The two maps are inverse to each other and no bucket is empty. */
  ghost predicate PlacementOk(w: Placement) {
    && (forall id :: id in w.cellOf ==> w.cellOf[id] in w.index && id in w.index[w.cellOf[id]])
    && (forall c :: c in w.index ==> w.index[c] != {})
    && (forall c, id :: c in w.index && id in w.index[c] ==> id in w.cellOf && w.cellOf[id] == c)
  }

  function Leave(index: map<Cell, set<nat>>, c: Cell, id: nat): map<Cell, set<nat>> {
    if c !in index then index
    else if index[c] - {id} == {} then index - {c}
    else index[c := index[c] - {id}]
  }

  function Enter(index: map<Cell, set<nat>>, c: Cell, id: nat): map<Cell, set<nat>> {
    index[c := (if c in index then index[c] else {}) + {id}]
  }

  function PlaceInCell(w: Placement, id: nat, c: Cell): Placement {
    if id in w.cellOf && w.cellOf[id] == c then w
    else
      var cleared := if id in w.cellOf then Leave(w.index, w.cellOf[id], id) else w.index;
      Placement(w.cellOf[id := c], Enter(cleared, c, id))
  }

  function RemoveEntity(w: Placement, id: nat): Placement {
    if id !in w.cellOf then w else Placement(w.cellOf - {id}, Leave(w.index, w.cellOf[id], id))
  }

  lemma PlaceOk(w: Placement, id: nat, c: Cell)
    requires PlacementOk(w)
    ensures PlacementOk(PlaceInCell(w, id, c))
    ensures PlaceInCell(w, id, c).cellOf == w.cellOf[id := c]
  {
    if id in w.cellOf && w.cellOf[id] == c {
      assert w.cellOf[id := c] == w.cellOf;
    } else if id in w.cellOf {
      RemoveOk(w, id);
      EnterOk(RemoveEntity(w, id), id, c);
      assert (w.cellOf - {id})[id := c] == w.cellOf[id := c];
    } else {
      EnterOk(w, id, c);
    }
  }

  lemma EnterOk(w: Placement, id: nat, c: Cell)
    requires PlacementOk(w) && id !in w.cellOf
    ensures PlacementOk(Placement(w.cellOf[id := c], Enter(w.index, c, id)))
  {
  }

  lemma RemoveOk(w: Placement, id: nat)
    requires PlacementOk(w)
    ensures PlacementOk(RemoveEntity(w, id))
    ensures RemoveEntity(w, id).cellOf == w.cellOf - {id}
  {
    if id in w.cellOf {
      var c := w.cellOf[id];
      var r := RemoveEntity(w, id);
      forall other | other in r.cellOf
        ensures r.cellOf[other] in r.index && other in r.index[r.cellOf[other]]
      {
        if r.cellOf[other] == c { assert other in w.index[c] - {id}; }
      }
    }
  }

  /** What a radius query finds: exactly the entities whose own cell is within the radius. */
  ghost function EntitiesInRadius(w: Placement, center: Cell, radius: nat): set<nat> {
    set id | id in w.cellOf && Chebyshev(w.cellOf[id], center) <= radius
  }

  class Index {
    var cellOf: map<nat, Cell>
    var index: map<Cell, set<nat>>

    ghost function View(): Placement
      reads this
    {
      Placement(cellOf, index)
    }

    constructor ()
      ensures View() == Placement(map[], map[]) && PlacementOk(View())
    {
      cellOf, index := map[], map[];
    }

    method TakeOut(c: Cell, id: nat)
      modifies this
      ensures View() == Placement(old(cellOf), Leave(old(index), c, id))
    {
      if c in index {
        index := index[c := index[c] - {id}];
        if index[c] == {} {
          index := index - {c};
        }
        assert index == Leave(old(index), c, id);
      }
    }

    method Place(id: nat, c: Cell) returns (moved: bool)
      requires PlacementOk(View())
      modifies this
      ensures View() == PlaceInCell(old(View()), id, c) && PlacementOk(View())
      ensures moved <==> id !in old(cellOf) || old(cellOf[id]) != c
    {
      PlaceOk(View(), id, c);
      if id in cellOf {
        if cellOf[id] == c { return false; }
        TakeOut(cellOf[id], id);
      }
      index := index[c := (if c in index then index[c] else {}) + {id}];
      cellOf := cellOf[id := c];
      moved := true;
    }

    method Remove(id: nat)
      requires PlacementOk(View())
      modifies this
      ensures View() == RemoveEntity(old(View()), id) && PlacementOk(View())
    {
      RemoveOk(View(), id);
      if id in cellOf {
        var c := cellOf[id];
        cellOf := cellOf - {id};
        TakeOut(c, id);
      }
    }

    /** Concatenating the buckets of the block meets every entity in the radius exactly once. */
    method InRadius(center: Cell, radius: nat) returns (out: multiset<nat>)
      requires PlacementOk(View())
      ensures out == multiset(EntitiesInRadius(View(), center, radius))
    {
      var cells := CellsInRadius(center, radius);
      out := multiset{};
      for i := 0 to |cells|
        invariant out == multiset(set id | id in cellOf && cellOf[id] in cells[..i])
      {
        ghost var seen := set id | id in cellOf && cellOf[id] in cells[..i];
        var here := if cells[i] in index then index[cells[i]] else {};
        assert forall j :: 0 <= j < i ==> RowMajor(cells[j], cells[i]);
        assert cells[i] !in cells[..i];
        assert (set id | id in cellOf && cellOf[id] in cells[..i + 1]) == seen + here by {
          assert cells[..i + 1] == cells[..i] + [cells[i]];
        }
        out := out + multiset(here);
      }
      assert cells[..|cells|] == cells;
      assert (set id | id in cellOf && cellOf[id] in cells) == EntitiesInRadius(View(), center, radius);
    }
  }
}
