/** The flood fill that checks the clubhouse map, `scripts/gen_clubhouse_map.py`, and the
    geometry it emits as Rust. */
module FloodFill {
  import opened FiniteSets

  datatype Cell = Cell(x: int, y: int)

  type Walkable = Cell -> bool

  const MAP_W := 184
  const MAP_H := 50
  const BAR_X1 := 56
  const COUNTER_TOP := 9
  const COUNTER_BOTTOM := 10
  const SPAWN := Cell(92, 46)
  const BARTENDER := Cell(28, 6)

  // --------------------------------------------------------------- reachability

  predicate Adjacent(a: Cell, b: Cell) {
    || (a.y == b.y && (b.x == a.x + 1 || b.x == a.x - 1))
    || (a.x == b.x && (b.y == a.y + 1 || b.y == a.y - 1))
  }

  predicate IsPath(path: seq<Cell>, from: Cell, to: Cell, walkable: Walkable) {
    && path != [] && path[0] == from && path[|path| - 1] == to
    && (forall i :: 0 < i < |path| ==> walkable(path[i]))
    && (forall i :: 0 < i < |path| ==> Adjacent(path[i - 1], path[i]))
  }

  ghost predicate Reachable(from: Cell, to: Cell, walkable: Walkable) {
    exists path :: IsPath(path, from, to, walkable)
  }

  lemma StaysReachable(from: Cell, via: Cell, to: Cell, walkable: Walkable)
    requires Reachable(from, via, walkable) && Adjacent(via, to) && walkable(to)
    ensures Reachable(from, to, walkable)
  {
    var path :| IsPath(path, from, via, walkable);
    assert IsPath(path + [to], from, to, walkable);
  }

  /** A set that holds the start and every walkable neighbour of its members holds all that
      can be reached. */
  lemma {:induction false} ClosedHoldsPath(seen: set<Cell>, path: seq<Cell>, from: Cell, to: Cell, walkable: Walkable)
    requires from in seen && IsPath(path, from, to, walkable)
    requires forall a, b :: a in seen && Adjacent(a, b) && walkable(b) ==> b in seen
    ensures to in seen
    decreases |path|
  {
    if |path| > 1 {
      var before := path[..|path| - 1];
      assert IsPath(before, from, before[|before| - 1], walkable);
      ClosedHoldsPath(seen, before, from, before[|before| - 1], walkable);
    }
  }

  function AllCells(width: nat, height: nat): set<Cell> {
    set x, y | 0 <= x < width && 0 <= y < height :: Cell(x, y)
  }

  /** Walking never leaves the grid. */
  ghost predicate Confined(walkable: Walkable, width: nat, height: nat) {
    forall c :: walkable(c) ==> 0 <= c.x < width && 0 <= c.y < height
  }

  function Neighbours(c: Cell): seq<Cell> {
    [Cell(c.x + 1, c.y), Cell(c.x - 1, c.y), Cell(c.x, c.y + 1), Cell(c.x, c.y - 1)]
  }

  /** Every seen cell whose neighbours are not all seen is still queued. */
  predicate Settled(c: Cell, seen: set<Cell>, walkable: Walkable) {
    forall k :: 0 <= k < 4 && walkable(Neighbours(c)[k]) ==> Neighbours(c)[k] in seen
  }

  lemma SettledIsClosed(seen: set<Cell>, walkable: Walkable)
    requires forall c :: c in seen ==> Settled(c, seen, walkable)
    ensures forall a, b :: a in seen && Adjacent(a, b) && walkable(b) ==> b in seen
  {
    forall a, b | a in seen && Adjacent(a, b) && walkable(b) ensures b in seen {
      assert Settled(a, seen, walkable);
      assert b in Neighbours(a);
    }
  }

  /** Adds the unseen walkable neighbours of a cell, in order, to the set and to the queue. */
  method Expand(c: Cell, seen: set<Cell>, queue: seq<Cell>, walkable: Walkable) returns (more: set<Cell>, longer: seq<Cell>)
    ensures more == seen + set n | n in Neighbours(c) && walkable(n)
    ensures queue <= longer
    ensures forall n :: n in longer[|queue|..] <==> n in more && n !in seen
    ensures |more| == |seen| + |longer| - |queue|
  {
    more, longer := seen, queue;
    var all := Neighbours(c);
    for i := 0 to 4
      invariant seen <= more && queue <= longer
      invariant forall n :: n in more <==> n in seen || (n in all[..i] && walkable(n))
      invariant forall n :: n in longer[|queue|..] <==> n in more && n !in seen
      invariant |more| == |seen| + |longer| - |queue|
    {
      var n := all[i];
      assert all[..i + 1] == all[..i] + [n];
      if n !in more && walkable(n) {
        assert (longer + [n])[|queue|..] == longer[|queue|..] + [n];
        more := more + {n};
        longer := longer + [n];
      }
    }
    assert all[..4] == all;
  }

  /** The breadth-first fill ends with exactly the reachable cells, on any grid and from any
      start, walkable or not. */
  method Fill(start: Cell, walkable: Walkable, width: nat, height: nat) returns (seen: set<Cell>)
    requires Confined(walkable, width, height)
    ensures forall c :: c in seen <==> Reachable(start, c, walkable)
  {
    seen := {start};
    var queue := [start];
    ghost var bound := AllCells(width, height) + {start};
    assert IsPath([start], start, start, walkable);
    while queue != []
      invariant start in seen && seen <= bound
      invariant forall c :: c in queue ==> c in seen
      invariant forall c :: c in seen ==> c in queue || Settled(c, seen, walkable)
      invariant forall c :: c in seen ==> Reachable(start, c, walkable)
      decreases |bound| - |seen|, |queue|
    {
      var c := queue[0];
      var rest := queue[1..];
      assert queue == [c] + rest;
      var more, longer := Expand(c, seen, rest, walkable);
      FillStep(start, c, seen, more, rest, longer, walkable);
      SubsetSize(more, bound);
      seen, queue := more, longer;
    }
    SettledIsClosed(seen, walkable);
    forall c | Reachable(start, c, walkable) ensures c in seen {
      var path :| IsPath(path, start, c, walkable);
      ClosedHoldsPath(seen, path, start, c, walkable);
    }
  }

  lemma FillStep(start: Cell, c: Cell, seen: set<Cell>, more: set<Cell>, rest: seq<Cell>, longer: seq<Cell>, walkable: Walkable)
    requires c in seen && more == seen + set n | n in Neighbours(c) && walkable(n)
    requires rest <= longer && forall n :: n in longer[|rest|..] <==> n in more && n !in seen
    requires forall d :: d in rest ==> d in seen
    requires forall d :: d in seen ==> d == c || d in rest || Settled(d, seen, walkable)
    requires forall d :: d in seen ==> Reachable(start, d, walkable)
    ensures forall d :: d in longer ==> d in more
    ensures forall d :: d in more ==> d in longer || Settled(d, more, walkable)
    ensures forall d :: d in more ==> Reachable(start, d, walkable)
  {
    assert longer == rest + longer[|rest|..];
    forall d | d in more ensures d in longer || Settled(d, more, walkable) {
      if d in seen && d != c && d !in rest {
        assert Settled(d, seen, walkable);
      } else if d == c {
        forall k | 0 <= k < 4 && walkable(Neighbours(c)[k]) ensures Neighbours(c)[k] in more {
          assert Neighbours(c)[k] in Neighbours(c);
        }
      }
    }
    forall d | d in more ensures Reachable(start, d, walkable) {
      if d !in seen {
        StaysReachable(start, c, d, walkable);
      }
    }
  }

  // --------------------------------------------------------------- the two notions of walkable

  predicate InsideWalls(c: Cell) { 0 < c.x < MAP_W - 1 && 0 < c.y < MAP_H - 1 }

  /** The generator's check: not even the counter. */
  predicate GeneratorWalkable(c: Cell) { InsideWalls(c) && !(c.x <= BAR_X1 && c.y <= COUNTER_BOTTOM) }

  /** The emitted game: one may stand on the counter. */
  predicate GameWalkable(c: Cell) { InsideWalls(c) && !(c.x <= BAR_X1 && c.y < COUNTER_TOP) }

  /** Whatever is reachable under the stricter notion is reachable under the other. */
  lemma StricterReachesLess(from: Cell, to: Cell, strict: Walkable, loose: Walkable)
    requires forall c :: strict(c) ==> loose(c)
    requires Reachable(from, to, strict)
    ensures Reachable(from, to, loose)
  {
    var path :| IsPath(path, from, to, strict);
    assert IsPath(path, from, to, loose);
  }

  lemma GeneratorIsStricter(c: Cell)
    ensures Reachable(SPAWN, c, GeneratorWalkable) ==> Reachable(SPAWN, c, GameWalkable)
  {
    if Reachable(SPAWN, c, GeneratorWalkable) {
      StricterReachesLess(SPAWN, c, GeneratorWalkable, GameWalkable);
    }
  }

  /** Along a row. */
  lemma {:induction false} WalkRow(to: Cell, walkable: Walkable, steps: nat)
    requires Reachable(SPAWN, SPAWN, walkable)
    requires to.y == SPAWN.y && steps == (if to.x < SPAWN.x then SPAWN.x - to.x else to.x - SPAWN.x)
    requires forall c: Cell :: 0 < c.x < MAP_W - 1 && c.y == SPAWN.y ==> walkable(c)
    requires 0 < to.x < MAP_W - 1
    ensures Reachable(SPAWN, to, walkable)
    decreases steps
  {
    if steps > 0 {
      var before := Cell(if to.x < SPAWN.x then to.x + 1 else to.x - 1, to.y);
      WalkRow(before, walkable, steps - 1);
      StaysReachable(SPAWN, before, to, walkable);
    }
  }

  /** Along a column, from the row of the spawn. */
  lemma {:induction false} WalkColumn(to: Cell, walkable: Walkable, steps: nat)
    requires Reachable(SPAWN, Cell(to.x, SPAWN.y), walkable)
    requires steps == (if to.y < SPAWN.y then SPAWN.y - to.y else to.y - SPAWN.y)
    requires forall c: Cell :: c.x == to.x && (to.y <= c.y <= SPAWN.y || SPAWN.y <= c.y <= to.y) ==> walkable(c)
    ensures Reachable(SPAWN, to, walkable)
    decreases steps
  {
    if steps > 0 {
      var before := Cell(to.x, if to.y < SPAWN.y then to.y + 1 else to.y - 1);
      WalkColumn(before, walkable, steps - 1);
      StaysReachable(SPAWN, before, to, walkable);
    } else {
      assert to == Cell(to.x, SPAWN.y);
    }
  }

  lemma Connected(to: Cell, walkable: Walkable)
    requires forall c: Cell :: 0 < c.x < MAP_W - 1 && c.y == SPAWN.y ==> walkable(c)
    requires 0 < to.x < MAP_W - 1
    requires forall c: Cell :: c.x == to.x && (to.y <= c.y <= SPAWN.y || SPAWN.y <= c.y <= to.y) ==> walkable(c)
    ensures Reachable(SPAWN, to, walkable)
  {
    assert IsPath([SPAWN], SPAWN, SPAWN, walkable);
    var corner := Cell(to.x, SPAWN.y);
    WalkRow(corner, walkable, if to.x < SPAWN.x then SPAWN.x - to.x else to.x - SPAWN.x);
    WalkColumn(to, walkable, if to.y < SPAWN.y then SPAWN.y - to.y else to.y - SPAWN.y);
  }

  datatype Zone = Zone(x0: nat, y0: nat, x1: nat, y1: nat)

  predicate Contains(z: Zone, c: Cell) { z.x0 <= c.x <= z.x1 && z.y0 <= c.y <= z.y1 }

  /** Inside the outer walls; the bartender's alley; the counter before it. */
  const FLOOR := Zone(1, 1, 182, 48)
  const ALLEY := Zone(1, 1, 56, 8)
  const COUNTER := Zone(1, 9, 56, 10)

  /** Under both notions the floor is one room: from the spawn the game's players reach exactly the
      floor without the alley, the counter included, and the generator all that but the counter. */
  lemma FloorIsOneRoom(c: Cell)
    ensures Reachable(SPAWN, c, GameWalkable) <==> Contains(FLOOR, c) && !Contains(ALLEY, c)
    ensures Reachable(SPAWN, c, GeneratorWalkable) <==> Contains(FLOOR, c) && !Contains(ALLEY, c) && !Contains(COUNTER, c)
    ensures !Reachable(SPAWN, BARTENDER, GameWalkable) && !Reachable(SPAWN, BARTENDER, GeneratorWalkable)
  {
    forall d, walkable: Walkable | walkable == GeneratorWalkable || walkable == GameWalkable
      ensures Reachable(SPAWN, d, walkable) <==> walkable(d)
    {
      if walkable(d) {
        Connected(d, walkable);
      }
    }
  }

  // --------------------------------------------------------------- zones

  function Max(a: int, b: int): int { if a < b then b else a }

  function Abs(a: int): nat { if a < 0 then -a else a }

  function SaturatingSub(a: int, b: int): nat { if a < b then 0 else a - b }

  /** The emitted Zone::distance, on unsigned numbers. */
  function GameDistance(z: Zone, c: Cell): int {
    var dx := Max(SaturatingSub(z.x0, c.x), SaturatingSub(c.x, z.x1));
    var dy := Max(SaturatingSub(z.y0, c.y), SaturatingSub(c.y, z.y1));
    Max(dx, dy)
  }

  /** The distance the generator checks its zones with. */
  function GeneratorDistance(z: Zone, c: Cell): int {
    Max(Max(Max(z.x0 - c.x, c.x - z.x1), 0), Max(Max(z.y0 - c.y, c.y - z.y1), 0))
  }

  function Chebyshev(a: Cell, b: Cell): nat { Max(Abs(a.x - b.x), Abs(a.y - b.y)) }

  function Clamp(a: int, lo: int, hi: int): int { if a < lo then lo else if hi < a then hi else a }

  /** Both distances are the least Chebyshev distance to a cell of the zone, and zero exactly
      inside. */
  lemma DistanceIsLeast(z: Zone, c: Cell) returns (nearest: Cell)
    requires z.x0 <= z.x1 && z.y0 <= z.y1
    ensures GameDistance(z, c) == GeneratorDistance(z, c)
    ensures Contains(z, nearest) && Chebyshev(c, nearest) == GameDistance(z, c)
    ensures forall d :: Contains(z, d) ==> GameDistance(z, c) <= Chebyshev(c, d)
    ensures GameDistance(z, c) == 0 <==> Contains(z, c)
  {
    nearest := Cell(Clamp(c.x, z.x0, z.x1), Clamp(c.y, z.y0, z.y1));
  }

  /** zone_near_reachable(): some seen cell is within the given distance. */
  predicate NearSeen(z: Zone, distance: int, seen: set<Cell>) {
    exists c :: c in seen && GeneratorDistance(z, c) <= distance
  }

  /** That is, some cell of the zone is within that distance of a seen one. */
  lemma NearSeenIff(z: Zone, distance: int, seen: set<Cell>)
    requires z.x0 <= z.x1 && z.y0 <= z.y1
    ensures NearSeen(z, distance, seen) <==> exists c, d :: c in seen && Contains(z, d) && Chebyshev(c, d) <= distance
  {
    if NearSeen(z, distance, seen) {
      var c :| c in seen && GeneratorDistance(z, c) <= distance;
      var nearest := DistanceIsLeast(z, c);
    }
    if c, d :| c in seen && Contains(z, d) && Chebyshev(c, d) <= distance {
      var nearest := DistanceIsLeast(z, c);
    }
  }

  /** What the generator has checked with its fill holds for the game's players: a zone near a
      cell it saw is near a cell they can reach. */
  lemma CheckedZonesAreNear(z: Zone, distance: int, seen: set<Cell>)
    requires z.x0 <= z.x1 && z.y0 <= z.y1 && NearSeen(z, distance, seen)
    requires forall c :: c in seen <==> Reachable(SPAWN, c, GeneratorWalkable)
    ensures exists c :: Reachable(SPAWN, c, GameWalkable) && GameDistance(z, c) <= distance
  {
    var c :| c in seen && GeneratorDistance(z, c) <= distance;
    GeneratorIsStricter(c);
    var nearest := DistanceIsLeast(z, c);
  }
}
