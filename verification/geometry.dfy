/**
 This module fixes the board the level works on: its size, grid coordinates,
 the four orthogonal sides a cell has, and the flat row-major array layout
 the level keeps its cells in.
 */
module Geometry {
  import opened Wrappers

  /** Number of columns of the board. */
  const WIDTH: int := 12

  /** Number of rows of the board. */
  const HEIGHT: int := 8

  /** A grid position; `y` grows downwards, so "up" is `y - 1`. */
  datatype Coord = Coord(x: int, y: int)

  /** The cell lies on the board. */
  predicate InBounds(c: Coord) {
    0 <= c.x < WIDTH && 0 <= c.y < HEIGHT
  }

  /** The four neighbours of a cell, named as the level names them. */
  datatype Side = Up | Right | Down | Left

  /** The order in which the level tries the neighbours: up, right, down, left. */
  function Rank(s: Side): (r: nat)
    ensures r < 4
  {
    match s
    case Up => 0
    case Right => 1
    case Down => 2
    case Left => 3
  }

  /** Distinct sides are tried at distinct moments. */
  lemma RankInjective(s: Side, t: Side)
    ensures Rank(s) == Rank(t) ==> s == t
  {
  }

  /** The neighbour of `c` on side `s`. */
  function Step(c: Coord, s: Side): (r: Coord)
    ensures Adjacent(c, r)
    ensures s == Up ==> r.x == c.x && r.y == c.y - 1
    ensures s == Right ==> r.x == c.x + 1 && r.y == c.y
    ensures s == Down ==> r.x == c.x && r.y == c.y + 1
    ensures s == Left ==> r.x == c.x - 1 && r.y == c.y
  {
    match s
    case Up => Coord(c.x, c.y - 1)
    case Right => Coord(c.x + 1, c.y)
    case Down => Coord(c.x, c.y + 1)
    case Left => Coord(c.x - 1, c.y)
  }

  function Opposite(s: Side): (r: Side)
    ensures r != s
    ensures forall c :: Step(Step(c, s), r) == c
  {
    match s
    case Up => Down
    case Right => Left
    case Down => Up
    case Left => Right
  }

  predicate IsVertical(s: Side) {
    s == Up || s == Down
  }

  /** Orthogonal neighbours: the cells differ by one in exactly one coordinate. */
  predicate Adjacent(a: Coord, b: Coord) {
    || (a.x == b.x && (a.y - b.y == 1 || b.y - a.y == 1))
    || (a.y == b.y && (a.x - b.x == 1 || b.x - a.x == 1))
  }

  /** The side of `from` on which the neighbouring cell `to` lies. */
  function DirTo(from: Coord, to: Coord): (r: Side)
    requires Adjacent(from, to)
    ensures Step(from, r) == to
    ensures forall s :: Step(from, s) == to ==> s == r
  {
    if to.y == from.y - 1 then Up
    else if to.x == from.x + 1 then Right
    else if to.y == from.y + 1 then Down
    else Left
  }

  /** A cell is never its own neighbour, and two distinct sides lead to distinct cells. */
  lemma StepInjective(c: Coord, s: Side, t: Side)
    ensures Step(c, s) != c
    ensures Step(c, s) == Step(c, t) ==> s == t
  {
  }

  // ---------------------------------------------------------------------
  // The flat array behind the board. The level keeps one pointer per cell
  // in an array of WIDTH * HEIGHT slots, cell (x, y) at slot y * WIDTH + x.
  // ---------------------------------------------------------------------

  /** The slot of cell (x, y) in the row-major array. */
  function FlatIndex(x: int, y: int): int {
    y * WIDTH + x
  }

  /** Row-major indexing is a bijection between the board and the array slots. */
  lemma FlatIndexBijective(a: Coord, b: Coord)
    requires InBounds(a) && InBounds(b)
    ensures 0 <= FlatIndex(a.x, a.y) < WIDTH * HEIGHT
    ensures FlatIndex(a.x, a.y) == FlatIndex(b.x, b.y) ==> a == b
  {
  }

  /** The cell stored in slot `i` of the array. */
  function SlotCoord(i: int): (c: Coord)
    requires 0 <= i < WIDTH * HEIGHT
    ensures InBounds(c) && FlatIndex(c.x, c.y) == i
  {
    Coord(i % WIDTH, i / WIDTH)
  }

  /** What reading one slot of the array can give. */
  datatype Read<T> = Slot(content: Option<T>) | PastArray

  /**
   The cell lookup exactly as the level writes it: the bounds check lets
   `x == WIDTH` and `y == HEIGHT` through before indexing the array.
   */
  function LooseGetSlot<T>(cells: seq<Option<T>>, x: int, y: int): (r: Read<T>)
    requires |cells| == WIDTH * HEIGHT
    ensures r.PastArray? ==> !InBounds(Coord(x, y))
  {
    if x < 0 || x > WIDTH || y < 0 || y > HEIGHT then Slot(None)
    else if FlatIndex(x, y) < |cells| then Slot(cells[FlatIndex(x, y)])
    else PastArray
  }

  /**
   The loose check is wrong on two counts: looking right from the last
   column reads the first cell of the next row, and looking down from the
   bottom row (or right from the bottom-right corner) reads past the end
   of the array.
   */
  lemma LooseGetSlotMisreads<T>(cells: seq<Option<T>>, x: int, y: int)
    requires |cells| == WIDTH * HEIGHT
    requires 0 <= x < WIDTH && 0 <= y < HEIGHT - 1
    ensures !InBounds(Coord(WIDTH, y)) && !InBounds(Coord(x, HEIGHT))
    ensures LooseGetSlot(cells, WIDTH, y) == Slot(cells[FlatIndex(0, y + 1)])
    ensures LooseGetSlot(cells, WIDTH, HEIGHT - 1).PastArray?
    ensures LooseGetSlot(cells, x, HEIGHT).PastArray?
  {
  }

  /**
   The corrected lookup: strict bounds, so every admitted cell has its own
   slot inside the array.
   */
  function GetSlot<T>(cells: seq<Option<T>>, x: int, y: int): (r: Option<T>)
    requires |cells| == WIDTH * HEIGHT
    ensures !InBounds(Coord(x, y)) ==> r.None?
    ensures InBounds(Coord(x, y)) ==> 0 <= FlatIndex(x, y) < |cells| && r == cells[FlatIndex(x, y)]
  {
    if x < 0 || x >= WIDTH || y < 0 || y >= HEIGHT then None
    else cells[FlatIndex(x, y)]
  }

  /** On the board itself the loose and the strict lookups agree. */
  lemma LooseAgreesInBounds<T>(cells: seq<Option<T>>, x: int, y: int)
    requires |cells| == WIDTH * HEIGHT
    requires InBounds(Coord(x, y))
    ensures LooseGetSlot(cells, x, y) == Slot(GetSlot(cells, x, y))
  {
  }
}
