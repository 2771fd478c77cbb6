// Records and small value classes of src/utils/definition.py: positions, the
// camera, rectangles, the Direction enum, teleporters and their save-file
// dictionaries, and the Monster and Item records the bag holds. The tile size
// (GameSettings.TILE_SIZE) is a positive parameter.
module Definition {
  import opened Util

  /** A pixel position (floats in the source). */
  datatype Position = Position(x: real, y: real)
  {
    /** Position.copy */
    function Copy(): (r: Position)
      ensures r == this
    {
      Position(x, y)
    }
  }

  /** A pygame.Rect. */
  datatype Rect = Rect(x: int, y: int, width: int, height: int)
  {
    /** Rect.collidepoint: the right and bottom edges are outside. */
    predicate CollidePoint(px: int, py: int)
    {
      x <= px < x + width && y <= py < y + height
    }

    /** Rect.colliderect: the two rectangles share an area of positive size; a
        rectangle with a zero side meets nothing. */
    predicate CollideRect(o: Rect)
    {
      && width != 0 && height != 0 && o.width != 0 && o.height != 0
      && Min(x, x + width) < Max(o.x, o.x + o.width)
      && Min(o.x, o.x + o.width) < Max(x, x + width)
      && Min(y, y + height) < Max(o.y, o.y + o.height)
      && Min(o.y, o.y + o.height) < Max(y, y + height)
    }
  }

  /** The camera offset in pixels. */
  datatype PositionCamera = PositionCamera(x: int, y: int)
  {
    /** PositionCamera.copy */
    function Copy(): (r: PositionCamera)
      ensures r == this
    {
      PositionCamera(x, y)
    }

    /** transform_position: screen coordinates of a world position. */
    function TransformPosition(p: Position): (r: (int, int))
      ensures r.0 + x == TruncReal(p.x) && r.1 + y == TruncReal(p.y)
    {
      (TruncReal(p.x) - x, TruncReal(p.y) - y)
    }

    /** transform_rect: the same rectangle moved into screen coordinates. */
    function TransformRect(rect: Rect): (r: Rect)
      ensures r.width == rect.width && r.height == rect.height
      ensures r.x + x == rect.x && r.y + y == rect.y
    {
      Rect(rect.x - x, rect.y - y, rect.width, rect.height)
    }
  }

  /** Direction = Enum('Direction', ['UP', 'DOWN', 'LEFT', 'RIGHT', 'NONE']) */
  datatype Direction = Up | Down | Left | Right | NoDirection

  /** Direction.name */
  function DirectionName(d: Direction): string
  {
    match d
    case Up => "UP"
    case Down => "DOWN"
    case Left => "LEFT"
    case Right => "RIGHT"
    case NoDirection => "NONE"
  }

  /** Direction[name]: a KeyError (None here) for any other name. */
  function DirectionByName(name: string): (r: Option<Direction>)
    ensures r.Some? ==> DirectionName(r.value) == name
    ensures r.None? ==> forall d: Direction :: DirectionName(d) != name
  {
    if name == "UP" then Some(Up)
    else if name == "DOWN" then Some(Down)
    else if name == "LEFT" then Some(Left)
    else if name == "RIGHT" then Some(Right)
    else if name == "NONE" then Some(NoDirection)
    else None
  }

  lemma DirectionNameRoundTrip(d: Direction)
    ensures DirectionByName(DirectionName(d)) == Some(d)
  {
  }

  /** The Monster record; keys the source may leave out are optional. */
  datatype Monster = Monster(
    name: string,
    hp: int,
    maxHp: int,
    level: int,
    attack: Option<int>,
    defense: Option<int>,
    spritePath: string,
    monsterType: Option<string>,
    moves: Option<seq<string>>,
    count: Option<int>)

  /** A monster's hp after a hit: `max(0, hp - damage)`. It never goes below 0,
      never rises under a non-negative hit, and is 0 exactly when the hit reaches hp. */
  function HpAfterHit(hp: int, damage: int): (r: int)
    ensures r >= 0
    ensures damage >= 0 && hp >= 0 ==> r <= hp
    ensures r == 0 <==> damage >= hp
    ensures damage < hp ==> r == hp - damage
  {
    Max(0, hp - damage)
  }

  /** The Item record; a saved item may lack its price. */
  datatype Item = Item(name: string, count: int, spritePath: string, price: Option<int>)

  /** item.get("price", 0) */
  function PriceOrZero(item: Item): int
  {
    match item.price
    case Some(p) => p
    case None => 0
  }

  /** A teleporter tile: where it is, where it leads, and whether the boss must be beaten first. */
  datatype Teleport = Teleport(pos: Position, destination: string, requiresBossDefeated: bool)

  /** Teleport(x, y, destination, requires_boss_defeated=False) */
  function TeleportFromCoords(x: real, y: real, destination: string,
                              requiresBossDefeated: bool := false): Teleport
  {
    Teleport(Position(x, y), destination, requiresBossDefeated)
  }

  /** Teleport(pos, destination, requires_boss_defeated=False) */
  function TeleportFromPosition(pos: Position, destination: string,
                                requiresBossDefeated: bool := false): Teleport
  {
    Teleport(pos, destination, requiresBossDefeated)
  }

  /** Both constructor forms build the same teleporter; the flag defaults to False. */
  lemma TeleportConstructorsAgree(x: real, y: real, destination: string, flag: bool)
    ensures TeleportFromCoords(x, y, destination, flag)
         == TeleportFromPosition(Position(x, y), destination, flag)
    ensures !TeleportFromCoords(x, y, destination).requiresBossDefeated
    ensures !TeleportFromPosition(Position(x, y), destination).requiresBossDefeated
  {
  }

  /** The save-file dictionary of a teleporter; the flag key is optional. */
  datatype TeleportDict = TeleportDict(x: int, y: int, destination: string,
                                       requiresBossDefeated: Option<bool>)

  /** Python's v // tile_size for a float v and a positive int tile size. */
  function FloorDiv(v: real, tileSize: int): (r: int)
    requires tileSize > 0
    ensures r as real * tileSize as real <= v < (r + 1) as real * tileSize as real
  {
    var q := v / tileSize as real;
    var f := q.Floor;
    assert f as real <= q < (f + 1) as real;
    assert q * tileSize as real == v;
    MulMonotone(f as real, q, tileSize as real);
    MulStrictMonotone(q, (f + 1) as real, tileSize as real);
    assert v < (f + 1) as real * tileSize as real;
    f
  }

  lemma MulMonotone(a: real, b: real, c: real)
    requires a <= b && c > 0.0
    ensures a * c <= b * c
  {
    assert b * c - a * c == (b - a) * c;
  }

  lemma MulStrictMonotone(a: real, b: real, c: real)
    requires a < b && c > 0.0
    ensures a * c < b * c
  {
    assert b * c - a * c == (b - a) * c;
  }

  /** Teleport.to_dict: tile coordinates; the flag is written only when it is true. */
  function TeleportToDict(t: Teleport, tileSize: int): (d: TeleportDict)
    requires tileSize > 0
    ensures d.destination == t.destination
    ensures d.requiresBossDefeated == (if t.requiresBossDefeated then Some(true) else None)
    ensures d.x as real * tileSize as real <= t.pos.x < (d.x + 1) as real * tileSize as real
    ensures d.y as real * tileSize as real <= t.pos.y < (d.y + 1) as real * tileSize as real
  {
    TeleportDict(FloorDiv(t.pos.x, tileSize), FloorDiv(t.pos.y, tileSize), t.destination,
                 if t.requiresBossDefeated then Some(true) else None)
  }

  /** Teleport.from_dict */
  function TeleportFromDict(d: TeleportDict, tileSize: int): (t: Teleport)
    requires tileSize > 0
    ensures t.pos == Position(d.x as real * tileSize as real, d.y as real * tileSize as real)
    ensures t.destination == d.destination
    ensures t.requiresBossDefeated == (d.requiresBossDefeated == Some(true))
  {
    TeleportFromCoords(d.x as real * tileSize as real, d.y as real * tileSize as real,
                       d.destination,
                       match d.requiresBossDefeated case Some(b) => b case None => false)
  }

  /** A coordinate lies on the tile grid. */
  predicate OnGrid(v: real, tileSize: int)
    requires tileSize > 0
  {
    FloorDiv(v, tileSize) as real * tileSize as real == v
  }

  /** The tile of a whole multiple of the tile size is that multiple. */
  lemma {:induction false} FloorDivOfMultiple(k: int, tileSize: int)
    requires tileSize > 0
    ensures FloorDiv(k as real * tileSize as real, tileSize) == k
  {
    var t := tileSize as real;
    var v := k as real * t;
    assert v / t == k as real;
    assert (v / t).Floor == k;
    assert FloorDiv(v, tileSize) == (v / t).Floor;
    assert FloorDiv(v, tileSize) == k;
    assert v == k as real * tileSize as real;
  }

  /** Reloading a saved teleporter keeps its destination and flag; the position
      comes back exactly when it is on the tile grid, and otherwise snaps down to it. */
  lemma TeleportRoundTrip(t: Teleport, tileSize: int)
    requires tileSize > 0
    ensures TeleportFromDict(TeleportToDict(t, tileSize), tileSize).destination == t.destination
    ensures TeleportFromDict(TeleportToDict(t, tileSize), tileSize).requiresBossDefeated
         == t.requiresBossDefeated
    ensures TeleportFromDict(TeleportToDict(t, tileSize), tileSize).pos
         == Position(FloorDiv(t.pos.x, tileSize) as real * tileSize as real,
                     FloorDiv(t.pos.y, tileSize) as real * tileSize as real)
    ensures TeleportFromDict(TeleportToDict(t, tileSize), tileSize) == t
        <==> OnGrid(t.pos.x, tileSize) && OnGrid(t.pos.y, tileSize)
  {
  }

  /** A loaded teleporter stands on the column its dictionary names. */
  lemma {:induction false} LoadedColumn(d: TeleportDict, tileSize: int)
    requires tileSize > 0
    ensures FloorDiv(TeleportFromDict(d, tileSize).pos.x, tileSize) == d.x
  {
    FloorDivOfMultiple(d.x, tileSize);
    var v := TeleportFromDict(d, tileSize).pos.x;
    assert v == d.x as real * tileSize as real;
    assert FloorDiv(d.x as real * tileSize as real, tileSize) == d.x;
  }

  /** A loaded teleporter stands on the row its dictionary names. */
  lemma {:induction false} LoadedRow(d: TeleportDict, tileSize: int)
    requires tileSize > 0
    ensures FloorDiv(TeleportFromDict(d, tileSize).pos.y, tileSize) == d.y
  {
    FloorDivOfMultiple(d.y, tileSize);
    var v := TeleportFromDict(d, tileSize).pos.y;
    assert v == d.y as real * tileSize as real;
    assert FloorDiv(d.y as real * tileSize as real, tileSize) == d.y;
  }

  /** Loading then saving gives back the dictionary, unless it spelled out a false flag. */
  lemma {:induction false} TeleportDictRoundTrip(d: TeleportDict, tileSize: int)
    requires tileSize > 0
    requires d.requiresBossDefeated != Some(false)
    ensures TeleportToDict(TeleportFromDict(d, tileSize), tileSize) == d
  {
    LoadedColumn(d, tileSize);
    LoadedRow(d, tileSize);
  }
}
