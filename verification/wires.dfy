/**
 One wire square of the board: the tag it carries, its signal, the glyph it
 is drawn with and its links to the previous (head) and next (tail) square
 of its chain. Links are grid coordinates instead of pointers; the square's
 own position is the key it is stored under in the level's grid.
 */
module Wires {
  import opened Wrappers
  import opened Geometry

  /**
   The glyph a wire square is drawn with. NONE draws nothing; N, E, S, W are
   single stubs; NS and EW are straight segments; NW, NE, SW, SE are turns,
   vertical half first.
   */
  datatype Glyph = NONE | NS | EW | NW | NE | SW | SE | N | S | E | W

  /** The previous square of the chain: none, the square itself (a chain start), or a cell. */
  datatype HeadRef = NoHead | SelfHead | HeadAt(at: Coord)

  datatype WireRec = WireRec(tag: string, signal: bool, dir: Glyph, head: HeadRef, tail: Option<Coord>)

  // ---------------------------------------------------------------------
  // Glyphs and the sides they connect
  // ---------------------------------------------------------------------

  /** The sides of the square a glyph draws a connection to. */
  function GlyphSides(g: Glyph): set<Side> {
    match g
    case NONE => {}
    case NS => {Up, Down}
    case EW => {Right, Left}
    case NW => {Up, Left}
    case NE => {Up, Right}
    case SW => {Down, Left}
    case SE => {Down, Right}
    case N => {Up}
    case S => {Down}
    case E => {Right}
    case W => {Left}
  }

  /** The stub pointing to one side. */
  function SingleGlyph(s: Side): (g: Glyph)
    ensures GlyphSides(g) == {s}
  {
    match s
    case Up => N
    case Right => E
    case Down => S
    case Left => W
  }

  /** The straight or turning segment joining two different sides. */
  function ElbowGlyph(a: Side, b: Side): (g: Glyph)
    requires a != b
    ensures GlyphSides(g) == {a, b}
  {
    match (a, b)
    case (Up, Down) | (Down, Up) => NS
    case (Right, Left) | (Left, Right) => EW
    case (Up, Left) | (Left, Up) => NW
    case (Up, Right) | (Right, Up) => NE
    case (Down, Left) | (Left, Down) => SW
    case (Down, Right) | (Right, Down) => SE
    case _ => assert false; NONE
  }

  /** A glyph is determined by the sides it connects, and connects at most two. */
  lemma GlyphSidesInjective(g: Glyph, h: Glyph)
    ensures |GlyphSides(g)| <= 2
    ensures GlyphSides(g) == GlyphSides(h) ==> g == h
  {
    if GlyphSides(g) == GlyphSides(h) {
      match g
      case NONE => assert |GlyphSides(h)| == 0;
      case N => assert Up in GlyphSides(h);
      case S => assert Down in GlyphSides(h);
      case E => assert Right in GlyphSides(h);
      case W => assert Left in GlyphSides(h);
      case NS => assert Up in GlyphSides(h) && Down in GlyphSides(h);
      case EW => assert Right in GlyphSides(h) && Left in GlyphSides(h);
      case NW => assert Up in GlyphSides(h) && Left in GlyphSides(h);
      case NE => assert Up in GlyphSides(h) && Right in GlyphSides(h);
      case SW => assert Down in GlyphSides(h) && Left in GlyphSides(h);
      case SE => assert Down in GlyphSides(h) && Right in GlyphSides(h);
    }
  }

  /** Every glyph is the empty one, a stub or a two-sided segment: the set has eleven members. */
  lemma GlyphsAreStubsOrSegments(g: Glyph)
    ensures || g == NONE
            || (exists s :: g == SingleGlyph(s))
            || (exists a, b :: a != b && g == ElbowGlyph(a, b))
  {
    match g
    case NONE =>
    case N => assert g == SingleGlyph(Up);
    case S => assert g == SingleGlyph(Down);
    case E => assert g == SingleGlyph(Right);
    case W => assert g == SingleGlyph(Left);
    case NS => assert g == ElbowGlyph(Up, Down);
    case EW => assert g == ElbowGlyph(Right, Left);
    case NW => assert g == ElbowGlyph(Up, Left);
    case NE => assert g == ElbowGlyph(Up, Right);
    case SW => assert g == ElbowGlyph(Down, Left);
    case SE => assert g == ElbowGlyph(Down, Right);
  }

  /** The enumerator's name as written in the game. */
  function Name(g: Glyph): string {
    match g
    case NONE => "NONE"
    case NS => "NS"
    case EW => "EW"
    case NW => "NW"
    case NE => "NE"
    case SW => "SW"
    case SE => "SE"
    case N => "N"
    case S => "S"
    case E => "E"
    case W => "W"
  }

  /** The side a compass letter names. */
  function LetterSide(ch: char): Option<Side> {
    match ch
    case 'N' => Some(Up)
    case 'E' => Some(Right)
    case 'S' => Some(Down)
    case 'W' => Some(Left)
    case _ => None
  }

  /**
   A glyph's name spells the sides it connects; for the four turns the
   vertical letter comes first and the horizontal one second.
   */
  lemma NameSpellsSides(g: Glyph)
    requires g != NONE
    ensures forall i :: 0 <= i < |Name(g)| ==> LetterSide(Name(g)[i]).Some?
    ensures forall s :: s in GlyphSides(g) <==> exists i :: 0 <= i < |Name(g)| && LetterSide(Name(g)[i]) == Some(s)
    ensures g in {NW, NE, SW, SE} ==>
              && IsVertical(LetterSide(Name(g)[0]).value)
              && !IsVertical(LetterSide(Name(g)[1]).value)
  {
    match g
    case N => assert LetterSide(Name(g)[0]) == Some(Up);
    case S => assert LetterSide(Name(g)[0]) == Some(Down);
    case E => assert LetterSide(Name(g)[0]) == Some(Right);
    case W => assert LetterSide(Name(g)[0]) == Some(Left);
    case NS => assert LetterSide(Name(g)[0]) == Some(Up) && LetterSide(Name(g)[1]) == Some(Down);
    case EW => assert LetterSide(Name(g)[0]) == Some(Right) && LetterSide(Name(g)[1]) == Some(Left);
    case NW => assert LetterSide(Name(g)[0]) == Some(Up) && LetterSide(Name(g)[1]) == Some(Left);
    case NE => assert LetterSide(Name(g)[0]) == Some(Up) && LetterSide(Name(g)[1]) == Some(Right);
    case SW => assert LetterSide(Name(g)[0]) == Some(Down) && LetterSide(Name(g)[1]) == Some(Left);
    case SE => assert LetterSide(Name(g)[0]) == Some(Down) && LetterSide(Name(g)[1]) == Some(Right);
  }

  // ---------------------------------------------------------------------
  // The wire object: construction, connection state and setters
  // ---------------------------------------------------------------------

  /** A freshly built wire: unlinked, drawn as NONE, carrying a true signal and an empty tag. */
  function NewWire(): (w: WireRec)
    ensures w.head == NoHead && w.tail == None
    ensures GlyphSides(w.dir) == {} && w.signal && w.tag == ""
    ensures !IsFullyConnected(w)
  {
    WireRec("", true, NONE, NoHead, None)
  }

  /** How many of the wire's two link slots, head and tail, are in use. */
  function Links(w: WireRec): (n: nat)
    ensures n <= 2
  {
    (if w.head != NoHead then 1 else 0) + (if w.tail.Some? then 1 else 0)
  }

  /** Linked on both sides: a head (possibly itself) and a tail. */
  function IsFullyConnected(w: WireRec): (r: bool)
    ensures r <==> Links(w) == 2
    ensures !r <==> w.head == NoHead || w.tail.None?
  {
    w.head != NoHead && w.tail.Some?
  }

  /** A chain start, headed by itself, becomes fully connected exactly when it gains a tail. */
  lemma SelfHeadedNeedsTail(w: WireRec, t: Coord)
    requires w.head == SelfHead
    ensures IsFullyConnected(w) <==> w.tail.Some?
    ensures !IsFullyConnected(SetTailConnection(w, None))
    ensures IsFullyConnected(SetTailConnection(w, Some(t)))
  {
  }

  function SetTag(w: WireRec, newTag: string): (r: WireRec)
    ensures r.tag == newTag
    ensures r.signal == w.signal && r.dir == w.dir && r.head == w.head && r.tail == w.tail
  {
    w.(tag := newTag)
  }

  function SetSignal(w: WireRec, newSignal: bool): (r: WireRec)
    ensures r.signal == newSignal
    ensures r.tag == w.tag && r.dir == w.dir && r.head == w.head && r.tail == w.tail
  {
    w.(signal := newSignal)
  }

  function SetDirection(w: WireRec, newDirection: Glyph): (r: WireRec)
    ensures r.dir == newDirection
    ensures r.tag == w.tag && r.signal == w.signal && r.head == w.head && r.tail == w.tail
  {
    w.(dir := newDirection)
  }

  function SetHeadConnection(w: WireRec, newHead: HeadRef): (r: WireRec)
    ensures r.head == newHead
    ensures r.tag == w.tag && r.signal == w.signal && r.dir == w.dir && r.tail == w.tail
  {
    w.(head := newHead)
  }

  function SetTailConnection(w: WireRec, newTail: Option<Coord>): (r: WireRec)
    ensures r.tail == newTail
    ensures r.tag == w.tag && r.signal == w.signal && r.dir == w.dir && r.head == w.head
  {
    w.(tail := newTail)
  }
}
