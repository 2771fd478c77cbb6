// The tile pathfinder of src/utils/pathfinding.py: a breadth-first search over
// the map's tiles in four directions that avoids tiles overlapping a collision
// rectangle, and the reduction of a path to its turning points. The tile size
// (GameSettings.TILE_SIZE) is a positive parameter of the grid.
module Pathfinding {
  import opened Util
  import opened Definition

  /** A tile coordinate (column, row). */
  type Tile = (int, int)

  /** What find_path searches: the collision rectangles, the map's size in tiles and
      the tile size in pixels. */
  datatype Grid = Grid(collisions: seq<Rect>, width: int, height: int, tileSize: int)

  /** up, down, left, right, in the order the search tries them. */
  const Directions: seq<(int, int)> := [(-1, 0), (1, 0), (0, -1), (0, 1)]

  function Step(t: Tile, d: nat): Tile
    requires d < |Directions|
  {
    (t.0 + Directions[d].0, t.1 + Directions[d].1)
  }

  /** Two tiles one unit step apart. */
  predicate Adjacent(a: Tile, b: Tile)
  {
    || (a.0 == b.0 && (b.1 == a.1 + 1 || b.1 == a.1 - 1))
    || (a.1 == b.1 && (b.0 == a.0 + 1 || b.0 == a.0 - 1))
  }

  /** The four directions are exactly the unit steps. */
  lemma StepsAreAdjacent(a: Tile, b: Tile)
    ensures Adjacent(a, b) <==> exists d :: 0 <= d < |Directions| && Step(a, d) == b
  {
    if Adjacent(a, b) {
      if b == (a.0 - 1, a.1) {
        assert Step(a, 0) == b;
      } else if b == (a.0 + 1, a.1) {
        assert Step(a, 1) == b;
      } else if b == (a.0, a.1 - 1) {
        assert Step(a, 2) == b;
      } else {
        assert Step(a, 3) == b;
      }
    }
  }

  /** `int(p // TILE_SIZE)` for both coordinates. */
  function TileOf(p: Position, tileSize: int): Tile
    requires tileSize > 0
  {
    (FloorDiv(p.x, tileSize), FloorDiv(p.y, tileSize))
  }

  /** The pixel rectangle of a tile. */
  function TileRect(t: Tile, tileSize: int): Rect
  {
    Rect(t.0 * tileSize, t.1 * tileSize, tileSize, tileSize)
  }

  /** The tile overlaps some collision rectangle. */
  predicate Blocked(t: Tile, g: Grid)
  {
    exists r :: r in g.collisions && TileRect(t, g.tileSize).CollideRect(r)
  }

  predicate InBounds(t: Tile, g: Grid)
  {
    0 <= t.0 < g.width && 0 <= t.1 < g.height
  }

  /** A tile the search may step onto. */
  predicate Passable(t: Tile, g: Grid)
  {
    InBounds(t, g) && !Blocked(t, g)
  }

  /** A walk from start under the search's rule: unit steps onto passable tiles (the
      start tile itself is not checked). */
  predicate IsWalk(w: seq<Tile>, start: Tile, g: Grid)
  {
    && |w| > 0 && w[0] == start
    && forall k :: 0 < k < |w| ==> Adjacent(w[k - 1], w[k]) && Passable(w[k], g)
  }

  predicate NoRepeats(w: seq<Tile>)
  {
    forall a, b :: 0 <= a < b < |w| ==> w[a] != w[b]
  }

  /** A walk from start to goal that visits no tile twice. */
  predicate PathTo(w: seq<Tile>, start: Tile, goal: Tile, g: Grid)
  {
    IsWalk(w, start, g) && NoRepeats(w) && w[|w| - 1] == goal
  }

  /** The centre pixel of a tile: tile * TILE_SIZE + TILE_SIZE // 2. */
  function Centre(t: Tile, tileSize: int): Position
  {
    Position((t.0 * tileSize + tileSize / 2) as real, (t.1 * tileSize + tileSize / 2) as real)
  }

  function Centres(w: seq<Tile>, tileSize: int): (r: seq<Position>)
    ensures |r| == |w|
  {
    seq(|w|, k requires 0 <= k < |w| => Centre(w[k], tileSize))
  }

  /** Every in-bounds tile of the grid; the search cannot visit more than these and the start. */
  function AllTiles(g: Grid): set<Tile>
  {
    set x, y | 0 <= x < g.width && 0 <= y < g.height :: (x, y)
  }

  /** The tiles waiting in the queue. */
  function QueueTiles(queue: seq<(Tile, seq<Tile>)>): set<Tile>
  {
    set e | e in queue :: e.0
  }

  /** Every entry of the queue holds a repeat-free walk from start to its tile, using
      only visited tiles. */
  predicate QueueOk(queue: seq<(Tile, seq<Tile>)>, visited: set<Tile>, start: Tile, g: Grid)
  {
    forall e :: e in queue ==>
      PathTo(e.1, start, e.0, g) && forall t :: t in e.1 ==> t in visited
  }

  /** Every passable neighbour of t has been visited. */
  predicate Closed(t: Tile, visited: set<Tile>, g: Grid)
  {
    forall d :: 0 <= d < |Directions| && Passable(Step(t, d), g) ==> Step(t, d) in visited
  }

  /** A set that holds the start and all passable neighbours of its members holds
      every tile of every walk from the start. */
  lemma {:induction false} WalkStaysInClosedSet(w: seq<Tile>, start: Tile, visited: set<Tile>, g: Grid)
    requires IsWalk(w, start, g) && start in visited
    requires forall t :: t in visited ==> Closed(t, visited, g)
    ensures forall k :: 0 <= k < |w| ==> w[k] in visited
  {
    if |w| > 1 {
      var front := w[..|w| - 1];
      assert IsWalk(front, start, g) by {
        forall k | 0 < k < |front|
          ensures Adjacent(front[k - 1], front[k]) && Passable(front[k], g)
        {
          assert front[k - 1] == w[k - 1] && front[k] == w[k];
        }
      }
      WalkStaysInClosedSet(front, start, visited, g);
      var last := |w| - 1;
      assert w[last - 1] == front[last - 1];
      StepsAreAdjacent(w[last - 1], w[last]);
      var d :| 0 <= d < |Directions| && Step(w[last - 1], d) == w[last];
      assert Closed(w[last - 1], visited, g);
      forall k | 0 <= k < |w|
        ensures w[k] in visited
      {
        if k < last {
          assert w[k] == front[k];
        }
      }
    }
  }

  /** Visiting more tiles keeps the explored tiles closed, and current joins them. */
  lemma ClosedSetGrows(done: set<Tile>, current: Tile, visited0: set<Tile>, visited: set<Tile>, g: Grid)
    requires forall t :: t in done ==> Closed(t, visited0, g)
    requires Closed(current, visited, g) && visited0 <= visited
    ensures forall t :: t in done + {current} ==> Closed(t, visited, g)
  {
    forall t | t in done
      ensures Closed(t, visited, g)
    {
      assert Closed(t, visited0, g);
    }
  }

  lemma {:induction false} SubsetCardinality(a: set<Tile>, b: set<Tile>)
    requires a <= b
    ensures |a| <= |b|
  {
    if a != {} {
      var x :| x in a;
      SubsetCardinality(a - {x}, b - {x});
    }
  }

  /** Taking one more tile out of a finite set shrinks what is left of it. */
  lemma RemainderShrinks(all: set<Tile>, before: set<Tile>, after: set<Tile>, n: Tile)
    requires before <= after && n in all && n in after && n !in before
    ensures |all - after| < |all - before|
  {
    var rest := all - before;
    assert all - after <= rest - {n};
    SubsetCardinality(all - after, rest - {n});
  }

  /** The tile centres of a path, one by one, as find_path's final loop builds them. */
  method TileCentres(path: seq<Tile>, tileSize: int) returns (pixels: seq<Position>)
    ensures pixels == Centres(path, tileSize)
  {
    pixels := [];
    for k := 0 to |path|
      invariant |pixels| == k
      invariant forall m :: 0 <= m < k ==> pixels[m] == Centre(path[m], tileSize)
    {
      var tile := path[k];
      var px := tile.0 * tileSize + tileSize / 2;
      var py := tile.1 * tileSize + tileSize / 2;
      pixels := pixels + [Position(px as real, py as real)];
    }
  }

  /** One round of find_path's neighbour loop: every passable neighbour of current not
      yet visited is marked visited and queued with the path extended by it, so that
      afterwards all passable neighbours of current are visited. */
  method ExploreNeighbours(current: Tile, path: seq<Tile>, queue0: seq<(Tile, seq<Tile>)>,
                           visited0: set<Tile>, start: Tile, ghost done: set<Tile>, g: Grid)
    returns (queue: seq<(Tile, seq<Tile>)>, visited: set<Tile>)
    requires PathTo(path, start, current, g) && forall t :: t in path ==> t in visited0
    requires QueueOk(queue0, visited0, start, g)
    requires visited0 <= done + QueueTiles(queue0)
    ensures visited0 <= visited && visited - visited0 <= AllTiles(g)
    ensures visited == visited0 ==> queue == queue0
    ensures QueueOk(queue, visited, start, g)
    ensures visited <= done + QueueTiles(queue)
    ensures Closed(current, visited, g)
  {
    queue := queue0;
    visited := visited0;
    for d := 0 to |Directions|
      invariant visited0 <= visited && visited - visited0 <= AllTiles(g)
      invariant visited == visited0 ==> queue == queue0
      invariant QueueTiles(queue0) <= QueueTiles(queue)
      invariant QueueOk(queue, visited, start, g)
      invariant visited <= done + QueueTiles(queue)
      invariant forall d' :: 0 <= d' < d && Passable(Step(current, d'), g) ==> Step(current, d') in visited
    {
      var n := Step(current, d);
      if !(0 <= n.0 < g.width && 0 <= n.1 < g.height) {
        continue;
      }
      if n in visited {
        continue;
      }
      var hasCollision := exists rect :: rect in g.collisions && TileRect(n, g.tileSize).CollideRect(rect);
      if hasCollision {
        continue;
      }
      ExtendPath(path, start, current, n, visited, g);
      visited := visited + {n};
      queue := queue + [(n, path + [n])];
      assert (n, path + [n]) in queue;
    }
  }

  /** The search's loop invariant: the queue holds walks over visited tiles; every
      visited tile is explored or queued; explored tiles have all their passable
      neighbours visited and are not the goal; only in-bounds tiles join the start. */
  predicate Frontier(queue: seq<(Tile, seq<Tile>)>, visited: set<Tile>, done: set<Tile>,
                     start: Tile, goal: Tile, g: Grid)
  {
    && QueueOk(queue, visited, start, g)
    && start in visited && done <= visited
    && visited <= done + QueueTiles(queue)
    && goal !in done
    && (forall t :: t in done ==> Closed(t, visited, g))
    && visited - {start} <= AllTiles(g)
  }

  /** Taking the first entry off the queue starts a round of exploring it. */
  lemma PopStartsRound(queue: seq<(Tile, seq<Tile>)>, visited: set<Tile>, done: set<Tile>,
                       start: Tile, goal: Tile, g: Grid)
    requires Frontier(queue, visited, done, start, goal, g) && |queue| > 0
    ensures PathTo(queue[0].1, start, queue[0].0, g)
    ensures forall t :: t in queue[0].1 ==> t in visited
    ensures QueueOk(queue[1..], visited, start, g)
    ensures visited <= done + {queue[0].0} + QueueTiles(queue[1..])
  {
    assert queue[0] in queue;
    assert QueueTiles(queue) == {queue[0].0} + QueueTiles(queue[1..]);
  }

  /** A round that explored a tile other than the goal keeps the invariant, and either
      visits a new tile or shortens the queue. */
  lemma RoundKeepsFrontier(queue: seq<(Tile, seq<Tile>)>, visited: set<Tile>, done: set<Tile>,
                           queue': seq<(Tile, seq<Tile>)>, visited': set<Tile>,
                           start: Tile, goal: Tile, g: Grid)
    requires Frontier(queue, visited, done, start, goal, g) && |queue| > 0 && queue[0].0 != goal
    requires visited <= visited' && visited' - visited <= AllTiles(g)
    requires visited' == visited ==> queue' == queue[1..]
    requires QueueOk(queue', visited', start, g)
    requires visited' <= done + {queue[0].0} + QueueTiles(queue')
    requires Closed(queue[0].0, visited', g)
    ensures Frontier(queue', visited', done + {queue[0].0}, start, goal, g)
    ensures |AllTiles(g) - visited'| < |AllTiles(g) - visited| ||
            (visited' == visited && |queue'| < |queue|)
  {
    assert queue[0] in queue;
    ClosedSetGrows(done, queue[0].0, visited, visited', g);
    if visited' != visited {
      var n :| n in visited' && n !in visited;
      RemainderShrinks(AllTiles(g), visited, visited', n);
    }
  }

  /** Once the queue is empty every visited tile is explored, so no walk from the start
      leaves the visited tiles, and none reaches the goal. */
  lemma ExhaustedMeansUnreachable(visited: set<Tile>, done: set<Tile>, start: Tile, goal: Tile, g: Grid)
    requires Frontier([], visited, done, start, goal, g)
    ensures forall w :: IsWalk(w, start, g) ==> w[|w| - 1] != goal
  {
    assert QueueTiles([]) == {};
    forall w | IsWalk(w, start, g)
      ensures w[|w| - 1] != goal
    {
      WalkStaysInClosedSet(w, start, visited, g);
    }
  }

  /** Pathfinder.find_path: a path of tile centres from the start's tile to the goal's
      tile, or None exactly when no walk under the same rule reaches the goal. */
  method FindPath(start: Position, goal: Position, g: Grid) returns (r: Option<seq<Position>>)
    requires g.tileSize > 0
    ensures r.Some? ==> exists w :: PathTo(w, TileOf(start, g.tileSize), TileOf(goal, g.tileSize), g) &&
                                    r.value == Centres(w, g.tileSize)
    ensures r.None? ==> forall w :: IsWalk(w, TileOf(start, g.tileSize), g) ==>
                                      w[|w| - 1] != TileOf(goal, g.tileSize)
  {
    var startTile := TileOf(start, g.tileSize);
    var goalTile := TileOf(goal, g.tileSize);
    var queue: seq<(Tile, seq<Tile>)> := [(startTile, [startTile])];
    var visited: set<Tile> := {startTile};
    ghost var done: set<Tile> := {};
    while |queue| > 0
      invariant Frontier(queue, visited, done, startTile, goalTile, g)
      decreases |AllTiles(g) - visited|, |queue|
    {
      PopStartsRound(queue, visited, done, startTile, goalTile, g);
      var current := queue[0].0;
      var path := queue[0].1;
      if current == goalTile {
        var pixels := TileCentres(path, g.tileSize);
        return Some(pixels);
      }
      var queue', visited' := ExploreNeighbours(current, path, queue[1..], visited, startTile,
                                                done + {current}, g);
      RoundKeepsFrontier(queue, visited, done, queue', visited', startTile, goalTile, g);
      queue, visited, done := queue', visited', done + {current};
    }
    ExhaustedMeansUnreachable(visited, done, startTile, goalTile, g);
    return None;
  }

  /** A repeat-free walk to current extended by an unvisited passable neighbour n is a
      repeat-free walk to n. */
  lemma ExtendPath(path: seq<Tile>, start: Tile, current: Tile, n: Tile, visited: set<Tile>, g: Grid)
    requires PathTo(path, start, current, g) && forall t :: t in path ==> t in visited
    requires Adjacent(current, n) && Passable(n, g) && n !in visited
    ensures PathTo(path + [n], start, n, g)
  {
    var w := path + [n];
    forall k | 0 < k < |w|
      ensures Adjacent(w[k - 1], w[k]) && Passable(w[k], g)
    {
      if k < |path| {
        assert w[k - 1] == path[k - 1] && w[k] == path[k];
      }
    }
    forall a, b | 0 <= a < b < |w|
      ensures w[a] != w[b]
    {
      assert path[a] in path;
      if b < |path| {
        assert w[a] == path[a] && w[b] == path[b];
      }
    }
  }

  function Abs(v: real): real
  {
    if v < 0.0 then -v else v
  }

  /** simplify_path's direction test at point i: the step to i + 1 moves further in x
      than in y. */
  predicate Horizontal(path: seq<Position>, i: nat)
    requires i + 1 < |path|
  {
    Abs(path[i + 1].x - path[i].x) > Abs(path[i + 1].y - path[i].y)
  }

  /** Point k still lies on the line from point i: within half a tile of its row when
      the run is horizontal, of its column otherwise. */
  predicate Aligned(path: seq<Position>, i: nat, k: nat, half: real)
    requires i + 1 < |path| && k < |path|
  {
    if Horizontal(path, i) then Abs(path[k].y - path[i].y) < half
    else Abs(path[k].x - path[i].x) < half
  }

  /** last_valid after the scan from point k on, for the run that starts at point i. */
  function RunEnd(path: seq<Position>, i: nat, k: nat, half: real): (r: nat)
    requires i + 1 < k <= |path|
    ensures k - 1 <= r < |path|
    ensures forall m :: k <= m <= r ==> Aligned(path, i, m, half)
    ensures r + 1 < |path| ==> !Aligned(path, i, r + 1, half)
    decreases |path| - k
  {
    if k == |path| then k - 1
    else if Aligned(path, i, k, half) then RunEnd(path, i, k + 1, half)
    else k - 1
  }

  /** The points simplify_path appends once it stands at point i. */
  function SimplifyFrom(path: seq<Position>, i: nat, half: real): seq<Position>
    requires i < |path|
    decreases |path| - i
  {
    if i + 1 >= |path| then []
    else
      var e := RunEnd(path, i, i + 2, half);
      [path[e]] + SimplifyFrom(path, e, half)
  }

  /** TILE_SIZE * 0.5, the tolerance of a straight run. */
  function Half(tileSize: int): real
  {
    tileSize as real * 0.5
  }

  /** The result of simplify_path for a tile size. */
  function Simplified(path: seq<Position>, tileSize: int): seq<Position>
  {
    if |path| <= 2 then path else [path[0]] + SimplifyFrom(path, 0, Half(tileSize))
  }

  /** The inner scan of simplify_path from point i: the direction is fixed by the step
      to i + 1, and the scan stops at the first later point off that line. */
  method ScanRun(path: seq<Position>, i: nat, half: real) returns (lastValid: nat)
    requires i + 1 < |path|
    ensures lastValid == RunEnd(path, i, i + 2, half)
  {
    var current := path[i];
    var j := i + 1;
    var horizontal := Abs(path[j].x - current.x) > Abs(path[j].y - current.y);
    lastValid := j;
    for k := j + 1 to |path|
      invariant lastValid == k - 1
      invariant RunEnd(path, i, k, half) == RunEnd(path, i, i + 2, half)
    {
      if horizontal {
        if Abs(path[k].y - current.y) < half {
          lastValid := k;
        } else {
          return;
        }
      } else {
        if Abs(path[k].x - current.x) < half {
          lastValid := k;
        } else {
          return;
        }
      }
    }
  }

  /** Pathfinder.simplify_path (the threshold argument is unused in the source). The
      source's branch for a scan that could not extend is unreachable: the scan always
      ends at i + 1 or later. */
  method SimplifyPath(path: seq<Position>, tileSize: int) returns (simplified: seq<Position>)
    ensures simplified == Simplified(path, tileSize)
  {
    if |path| <= 2 {
      return path;
    }
    var half := tileSize as real * 0.5;
    simplified := [path[0]];
    var i := 0;
    while i < |path| - 1
      invariant 0 <= i < |path|
      invariant simplified + SimplifyFrom(path, i, half) == Simplified(path, tileSize)
      decreases |path| - i
    {
      var lastValid := ScanRun(path, i, half);
      simplified := simplified + [path[lastValid]];
      i := lastValid;
    }
  }

  /** The run from kept point a to kept point b: every point after a + 1 up to b lies on
      a's line, and the point after b (if any) leaves it. */
  predicate StraightRun(path: seq<Position>, a: nat, b: nat, half: real)
  {
    && a + 1 <= b < |path|
    && (forall k :: a + 1 < k <= b ==> Aligned(path, a, k, half))
    && (b + 1 < |path| ==> !Aligned(path, a, b + 1, half))
  }

  /** The indices of the points SimplifyFrom keeps. */
  function KeptIndices(path: seq<Position>, i: nat, half: real): seq<nat>
    requires i < |path|
    decreases |path| - i
  {
    if i + 1 >= |path| then []
    else
      var e := RunEnd(path, i, i + 2, half);
      [e] + KeptIndices(path, e, half)
  }

  /** The kept points are the path's points at the kept indices, which run from the
      first straight run's end to the last point, each run straight and maximal. */
  lemma {:induction false} KeptIndicesFacts(path: seq<Position>, i: nat, half: real)
    requires i < |path|
    ensures |KeptIndices(path, i, half)| == |SimplifyFrom(path, i, half)|
    ensures forall m :: 0 <= m < |KeptIndices(path, i, half)| ==>
              KeptIndices(path, i, half)[m] < |path| &&
              SimplifyFrom(path, i, half)[m] == path[KeptIndices(path, i, half)[m]]
    ensures i + 1 < |path| <==> |KeptIndices(path, i, half)| > 0
    ensures |KeptIndices(path, i, half)| > 0 ==>
              KeptIndices(path, i, half)[|KeptIndices(path, i, half)| - 1] == |path| - 1 &&
              StraightRun(path, i, KeptIndices(path, i, half)[0], half)
    ensures forall m :: 0 <= m < |KeptIndices(path, i, half)| - 1 ==>
              StraightRun(path, KeptIndices(path, i, half)[m], KeptIndices(path, i, half)[m + 1], half)
    decreases |path| - i
  {
    if i + 1 < |path| {
      var e := RunEnd(path, i, i + 2, half);
      KeptIndicesFacts(path, e, half);
      var ks := KeptIndices(path, i, half);
      var rest := KeptIndices(path, e, half);
      assert ks == [e] + rest;
      assert SimplifyFrom(path, i, half) == [path[e]] + SimplifyFrom(path, e, half);
      forall m | 0 <= m < |ks| - 1
        ensures StraightRun(path, ks[m], ks[m + 1], half)
      {
        if m > 0 {
          assert ks[m] == rest[m - 1] && ks[m + 1] == rest[m];
        }
      }
    }
  }

  /** The kept points of a path of indices. */
  predicate KeptAt(path: seq<Position>, out: seq<Position>, idx: seq<nat>, half: real)
  {
    && |idx| == |out| > 0 && idx[0] == 0 && idx[|idx| - 1] == |path| - 1
    && (forall m :: 0 <= m < |idx| ==> idx[m] < |path| && out[m] == path[idx[m]])
    && (forall m :: 0 <= m < |idx| - 1 ==> StraightRun(path, idx[m], idx[m + 1], half))
  }

  /** simplify_path returns paths of at most two points unchanged; a longer path keeps
      its first and last points and, in between, the ends of maximal straight runs, at
      positions given by some list of indices into the path. */
  lemma SimplifiedIsSubsequence(path: seq<Position>, tileSize: int)
    ensures |path| <= 2 ==> Simplified(path, tileSize) == path
    ensures |path| > 2 ==> exists idx :: KeptAt(path, Simplified(path, tileSize), idx, Half(tileSize))
  {
    if |path| > 2 {
      KeptIndicesWitness(path, tileSize);
    }
  }

  lemma KeptIndicesWitness(path: seq<Position>, tileSize: int)
    requires |path| > 2
    ensures KeptAt(path, Simplified(path, tileSize), [0] + KeptIndices(path, 0, Half(tileSize)), Half(tileSize))
  {
    var half := Half(tileSize);
    KeptIndicesFacts(path, 0, half);
    var ks := KeptIndices(path, 0, half);
    var idx := [0] + ks;
    var out := Simplified(path, tileSize);
    forall m | 0 <= m < |idx|
      ensures idx[m] < |path| && out[m] == path[idx[m]]
    {
      if m > 0 {
        assert idx[m] == ks[m - 1];
      }
    }
    forall m | 0 <= m < |idx| - 1
      ensures StraightRun(path, idx[m], idx[m + 1], half)
    {
      if m > 0 {
        assert idx[m] == ks[m - 1] && idx[m + 1] == ks[m];
      }
    }
  }

  /** The positions of the kept points strictly increase, so the result is a
      subsequence of the path. */
  lemma KeptPositionsIncrease(path: seq<Position>, out: seq<Position>, idx: seq<nat>, half: real)
    requires KeptAt(path, out, idx, half)
    ensures forall m1, m2 :: 0 <= m1 < m2 < |idx| ==> idx[m1] < idx[m2]
  {
    IncreasingFromSteps(path, idx, half);
  }

  /** Consecutive kept indices increase, so all of them do. */
  lemma {:induction false} IncreasingFromSteps(path: seq<Position>, idx: seq<nat>, half: real)
    requires forall m :: 0 <= m < |idx| - 1 ==> StraightRun(path, idx[m], idx[m + 1], half)
    ensures forall m1, m2 :: 0 <= m1 < m2 < |idx| ==> idx[m1] < idx[m2]
    decreases |idx|
  {
    if |idx| > 1 {
      var front := idx[..|idx| - 1];
      forall m | 0 <= m < |front| - 1
        ensures StraightRun(path, front[m], front[m + 1], half)
      {
        assert front[m] == idx[m] && front[m + 1] == idx[m + 1];
      }
      IncreasingFromSteps(path, front, half);
      forall m1, m2 | 0 <= m1 < m2 < |idx|
        ensures idx[m1] < idx[m2]
      {
        if m2 < |idx| - 1 {
          assert front[m1] == idx[m1] && front[m2] == idx[m2];
        } else if m1 < m2 - 1 {
          assert front[m1] == idx[m1] && front[m2 - 1] == idx[m2 - 1];
          assert StraightRun(path, idx[m2 - 1], idx[m2], half);
        } else {
          assert StraightRun(path, idx[m1], idx[m2], half);
        }
      }
    }
  }
}
