/**
 The level's wire grid and the operations that edit it: cell lookup and
 store, drawing a wire square (which either extends a chain by one square
 or retracts its last square), seeding a chain start, and the one-shot
 victory flag with its confetti burst.
 */
module Level {
  import opened Wrappers
  import opened Geometry
  import opened Wires

  /** The wire grid: the wire stored at each occupied cell. */
  type Grid = map<Coord, WireRec>

  /** Every stored wire sits on the board, as it must in the fixed-size array. */
  predicate WellPlaced(g: Grid) {
    forall c :: c in g ==> InBounds(c)
  }

  // ---------------------------------------------------------------------
  // Cell access
  // ---------------------------------------------------------------------

  /** The grid laid out as the level's row-major array of optional wires. */
  function ToFlat(g: Grid): (cells: seq<Option<WireRec>>)
    ensures |cells| == WIDTH * HEIGHT
  {
    seq(WIDTH * HEIGHT, i requires 0 <= i < WIDTH * HEIGHT =>
      var c := SlotCoord(i); if c in g then Some(g[c]) else None)
  }

  /** The wire at (x, y); nothing off the board. */
  function GetWire(g: Grid, x: int, y: int): (r: Option<WireRec>)
    ensures r.Some? <==> InBounds(Coord(x, y)) && Coord(x, y) in g
    ensures r.Some? ==> r.value == g[Coord(x, y)]
  {
    if x < 0 || x >= WIDTH || y < 0 || y >= HEIGHT then None
    else if Coord(x, y) in g then Some(g[Coord(x, y)])
    else None
  }

  /** Looking a cell up in the grid reads the slot y * WIDTH + x of the array. */
  lemma GetWireReadsFlatArray(g: Grid, x: int, y: int)
    requires WellPlaced(g)
    ensures GetWire(g, x, y) == GetSlot(ToFlat(g), x, y)
  {
    var c := Coord(x, y);
    if InBounds(c) {
      var i := FlatIndex(x, y);
      FlatIndexBijective(c, c);
      FlatIndexBijective(c, SlotCoord(i));
      assert SlotCoord(i) == c;
    }
  }

  /** Stores `w` (or clears the cell when `w` is None) at an on-board cell. */
  function SetWire(g: Grid, x: int, y: int, w: Option<WireRec>): (r: Grid)
    requires InBounds(Coord(x, y))
    ensures GetWire(r, x, y) == w
    ensures forall p :: p != Coord(x, y) ==> (p in r <==> p in g) && (p in g ==> r[p] == g[p])
    ensures WellPlaced(g) ==> WellPlaced(r)
  {
    match w
    case None => g - {Coord(x, y)}
    case Some(v) => g[Coord(x, y) := v]
  }

  // ---------------------------------------------------------------------
  // Glyph tables, written with the coordinate differences the level tests
  // ---------------------------------------------------------------------

  /** Where a head reference points, seen from the wire at `c`. */
  function HeadPos(c: Coord, h: HeadRef): (r: Option<Coord>)
    ensures h == SelfHead ==> r == Some(c)
    ensures h.HeadAt? ==> r == Some(h.at)
    ensures h == NoHead <==> r.None?
  {
    match h
    case NoHead => None
    case SelfHead => Some(c)
    case HeadAt(p) => Some(p)
  }

  /**
   The new glyph of neighbour `n` (lying on side `s` of a freshly placed
   wire) whose head is at `h`, in the order the level checks the cases.
   It joins the side facing the new wire to the side facing the
   neighbour's own head; a neighbour headed by itself keeps its glyph.
   */
  function UpgradeGlyph(s: Side, n: Coord, h: Coord, prior: Glyph): (r: Glyph)
    ensures Adjacent(n, h) && h != Step(n, Opposite(s)) ==>
              Opposite(s) != DirTo(n, h) && r == ElbowGlyph(Opposite(s), DirTo(n, h))
    ensures h == n ==> r == prior
  {
    match s
    case Up =>
      if n.y - h.y == 1 then NS
      else if h.x - n.x == 1 then SE
      else if n.x - h.x == 1 then SW
      else prior
    case Right =>
      if n.y - h.y == 1 then NW
      else if h.x - n.x == 1 then EW
      else if h.y - n.y == 1 then SW
      else prior
    case Down =>
      if h.x - n.x == 1 then NE
      else if h.y - n.y == 1 then NS
      else if n.x - h.x == 1 then NW
      else prior
    case Left =>
      if n.y - h.y == 1 then NE
      else if h.y - n.y == 1 then SE
      else if n.x - h.x == 1 then EW
      else prior
  }

  /**
   The glyph of a wire at `c` whose tail was just cut, its head at `h`:
   the stub pointing at its head; a chain start keeps its glyph.
   */
  function RetractGlyph(c: Coord, h: Coord, prior: Glyph): (r: Glyph)
    ensures Adjacent(c, h) ==> r == SingleGlyph(DirTo(c, h))
    ensures h == c ==> r == prior
  {
    if c.y - h.y == 1 then N
    else if h.x - c.x == 1 then E
    else if h.y - c.y == 1 then S
    else if c.x - h.x == 1 then W
    else prior
  }

  // ---------------------------------------------------------------------
  // Drawing a wire square
  // ---------------------------------------------------------------------

  /**
   The neighbour of `c` on side `s` holds a wire of tag `tag` that still has
   a free link; a neighbour that already has a head has a free tail slot.
   */
  function Matches(g: Grid, c: Coord, s: Side, tag: string): (r: bool)
    ensures var n := Step(c, s);
            r <==> InBounds(n) && n in g && g[n].tag == tag && !IsFullyConnected(g[n])
    ensures var n := Step(c, s);
            r && g[n].head != NoHead ==> g[n].tail.None?
  {
    var n := Step(c, s);
    match GetWire(g, n.x, n.y)
    case Some(w) => w.tag == tag && !IsFullyConnected(w)
    case None => false
  }

  /** `s` is the first matching side in the order up, right, down, left. */
  predicate FirstMatch(g: Grid, c: Coord, s: Side, tag: string) {
    && Matches(g, c, s, tag)
    && forall t :: Rank(t) < Rank(s) ==> !Matches(g, c, t, tag)
  }

  /** At most one side is the first match. */
  lemma FirstMatchUnique(g: Grid, c: Coord, s: Side, t: Side, tag: string)
    requires FirstMatch(g, c, s, tag) && FirstMatch(g, c, t, tag)
    ensures s == t
  {
    RankInjective(s, t);
  }

  /** The neighbour a new wire at `c` attaches to, if any. */
  function FindHead(g: Grid, c: Coord, tag: string): (r: Option<Side>)
    ensures r.None? <==> forall s :: !Matches(g, c, s, tag)
    ensures r.Some? ==> FirstMatch(g, c, r.value, tag)
  {
    if Matches(g, c, Up, tag) then Some(Up)
    else if Matches(g, c, Right, tag) then Some(Right)
    else if Matches(g, c, Down, tag) then Some(Down)
    else if Matches(g, c, Left, tag) then Some(Left)
    else None
  }

  /**
   Places a new wire at the empty cell `c`, headed by its neighbour on side
   `s`, and makes it that neighbour's tail.
   */
  function ExtendWire(g: Grid, c: Coord, s: Side, tag: string): (r: Grid)
    requires InBounds(c) && c !in g && Matches(g, c, s, tag)
    ensures Step(c, s) in g
    ensures r.Keys == g.Keys + {c}
    ensures r[c].tag == tag && r[c].signal
    ensures r[c].head == HeadAt(Step(c, s)) && r[c].tail == None
    ensures GlyphSides(r[c].dir) == {s}
    ensures var n := Step(c, s);
            && r[n].tail == Some(c)
            && r[n].tag == g[n].tag && r[n].signal == g[n].signal && r[n].head == g[n].head
            && (g[n].head == SelfHead ==> r[n].dir == g[n].dir)
            && (g[n].head.HeadAt? && Adjacent(n, g[n].head.at) && g[n].head.at != c ==>
                  GlyphSides(r[n].dir) == {Opposite(s), DirTo(n, g[n].head.at)})
    ensures forall p :: p in g && p != Step(c, s) ==> r[p] == g[p]
  {
    var n := Step(c, s);
    var nbr := g[n];
    var added := SetDirection(SetHeadConnection(SetTag(NewWire(), tag), HeadAt(n)), SingleGlyph(s));
    var linked := SetTailConnection(nbr, Some(c));
    var glyph := match HeadPos(n, nbr.head)
      case None => nbr.dir
      case Some(h) => UpgradeGlyph(s, n, h, nbr.dir);
    SetWire(SetWire(g, c.x, c.y, Some(added)), n.x, n.y, Some(SetDirection(linked, glyph)))
  }

  /**
   The wire at `c` has a tail, and that tail is the dangling end of the
   chain: it is not fully connected, and a headed wire at `c` is.
   */
  function Retractable(g: Grid, c: Coord): (r: bool)
    ensures r ==> c in g && g[c].tail.Some? && g[c].tail.value in g
    ensures r ==> !IsFullyConnected(g[g[c].tail.value])
    ensures r && g[c].head != NoHead ==> IsFullyConnected(g[c])
  {
    && c in g
    && g[c].tail.Some?
    && g[c].tail.value in g
    && g[g[c].tail.value].tail.None?
  }

  /** Removes the dangling tail of the wire at `c` and redraws `c` as a stub. */
  function RetractWire(g: Grid, c: Coord): (r: Grid)
    requires WellPlaced(g) && Retractable(g, c)
    ensures var t := g[c].tail.value;
            && t != c
            && r.Keys == g.Keys - {t}
            && r[c].tail == None
            && r[c].tag == g[c].tag && r[c].signal == g[c].signal && r[c].head == g[c].head
    ensures g[c].head == SelfHead ==> r[c].dir == g[c].dir
    ensures g[c].head.HeadAt? && Adjacent(c, g[c].head.at) ==>
              GlyphSides(r[c].dir) == {DirTo(c, g[c].head.at)}
    ensures forall p :: p in r && p != c ==> r[p] == g[p]
  {
    var t := g[c].tail.value;
    var w := SetTailConnection(g[c], None);
    var glyph := match HeadPos(c, w.head)
      case None => w.dir
      case Some(h) => RetractGlyph(c, h, w.dir);
    SetWire(SetWire(g, t.x, t.y, None), c.x, c.y, Some(SetDirection(w, glyph)))
  }

  /**
   The player touches cell (x, y) while drawing wire `tag`. An empty cell
   gets a new wire attached to the first matching neighbour; an occupied
   cell whose tail is the end of its chain loses that tail; anything else
   is left alone.
   */
  function DrawWire(g: Grid, x: int, y: int, tag: string): (r: Grid)
    requires WellPlaced(g)
    ensures WellPlaced(r)
    ensures !InBounds(Coord(x, y)) ==> r == g
    ensures InBounds(Coord(x, y)) && Coord(x, y) !in g ==>
              && (Coord(x, y) in r <==> exists s :: Matches(g, Coord(x, y), s, tag))
              && (forall s :: FirstMatch(g, Coord(x, y), s, tag) ==> r == ExtendWire(g, Coord(x, y), s, tag))
              && ((forall s :: !Matches(g, Coord(x, y), s, tag)) ==> r == g)
    ensures Coord(x, y) in g && !Retractable(g, Coord(x, y)) ==> r == g
    ensures Retractable(g, Coord(x, y)) ==> r == RetractWire(g, Coord(x, y))
  {
    var c := Coord(x, y);
    match GetWire(g, x, y)
    case None =>
      if !InBounds(c) then g
      else (
        match FindHead(g, c, tag)
        case None => g
        case Some(s) =>
          assert forall t :: FirstMatch(g, c, t, tag) ==> t == s by {
            forall t | FirstMatch(g, c, t, tag) { FirstMatchUnique(g, c, s, t, tag); }
          }
          ExtendWire(g, c, s, tag)
      )
    case Some(_) =>
      if Retractable(g, c) then RetractWire(g, c) else g
  }

  /**
   Seeds a chain start at (x, y): a wire of tag `tag` headed by itself,
   overwriting whatever the cell held.
   */
  function SetWireTemp(g: Grid, x: int, y: int, tag: string): (r: Grid)
    requires InBounds(Coord(x, y))
    ensures Coord(x, y) in r
    ensures var w := r[Coord(x, y)];
            && w.tag == tag && w.signal
            && w.head == SelfHead && w.tail == None
            && GlyphSides(w.dir) == {}
            && !IsFullyConnected(w)
    ensures forall p :: p != Coord(x, y) ==> (p in r <==> p in g) && (p in g ==> r[p] == g[p])
    ensures WellPlaced(g) ==> WellPlaced(r)
  {
    var seed := SetTag(SetHeadConnection(NewWire(), SelfHead), tag);
    g[Coord(x, y) := seed]
  }

  // ---------------------------------------------------------------------
  // Victory
  // ---------------------------------------------------------------------

  /**
   The level: its wire grid, the victory flag, and how many confetti
   bursts have been spawned so far.
   */
  datatype LevelState = LevelState(wires: Grid, isVictory: bool, bursts: nat)

  /** A new level: empty grid, not won, no confetti. */
  function NewLevel(): (l: LevelState)
    ensures l.wires == map[] && !l.isVictory && l.bursts == 0
  {
    LevelState(map[], false, 0)
  }

  /** Marks the level won; confetti bursts only on the transition from not won. */
  function Victory(l: LevelState): (r: LevelState)
    ensures r.isVictory && r.wires == l.wires
    ensures r.bursts == l.bursts || r.bursts == l.bursts + 1
    ensures r.bursts == l.bursts + 1 <==> !l.isVictory
  {
    if !l.isVictory then l.(isVictory := true, bursts := l.bursts + 1) else l
  }

  /** Clears the confetti and the victory flag. */
  function RemoveConfetti(l: LevelState): (r: LevelState)
    ensures !r.isVictory && r.wires == l.wires && r.bursts == l.bursts
  {
    l.(isVictory := false)
  }

  /** `k` victory calls in a row. */
  function Victories(l: LevelState, k: nat): (r: LevelState)
    decreases k
  {
    if k == 0 then l else Victory(Victories(l, k - 1))
  }

  /** However many times victory is declared, confetti bursts at most once. */
  lemma {:induction false} VictoryFiresOnce(l: LevelState, k: nat)
    ensures Victories(l, k).bursts == l.bursts + (if k > 0 && !l.isVictory then 1 else 0)
    ensures Victories(l, k).isVictory == (k > 0 || l.isVictory)
    ensures Victories(l, k).wires == l.wires
  {
    if k > 0 {
      VictoryFiresOnce(l, k - 1);
    }
  }

  /** Removing the confetti re-arms the flag: the next victory bursts again. */
  lemma VictoryRearmedByRemoveConfetti(l: LevelState)
    ensures Victory(RemoveConfetti(Victory(l))).bursts == Victory(l).bursts + 1
  {
  }
}
