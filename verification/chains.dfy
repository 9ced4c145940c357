/**
 The shape the wire grid keeps: every wire square belongs to a chain whose
 links are reciprocal (the tail of a square's head is that square, the head
 of its tail is that square), so chains never branch; tags are constant
 along a chain; and every square is drawn with the glyph its links call for.
 */
module Chains {
  import opened Wrappers
  import opened Geometry
  import opened Wires
  import opened Level
  import Nodes

  /** The wire at `c` has a head: itself, or a neighbouring wire of the same tag whose tail it is. */
  predicate HeadOk(g: Grid, c: Coord)
    requires c in g
  {
    match g[c].head
    case NoHead => false
    case SelfHead => true
    case HeadAt(h) => Adjacent(c, h) && h in g && g[h].tail == Some(c) && g[h].tag == g[c].tag
  }

  /** The tail of the wire at `c`, if any, is a wire headed by `c`. */
  predicate TailOk(g: Grid, c: Coord)
    requires c in g
  {
    match g[c].tail
    case None => true
    case Some(t) => t in g && g[t].head == HeadAt(c)
  }

  /** Every square is on the board and linked reciprocally. */
  predicate ChainInvariant(g: Grid) {
    && WellPlaced(g)
    && (forall c :: c in g ==> HeadOk(g, c))
    && (forall c :: c in g ==> TailOk(g, c))
  }

  /**
   The glyph a square at `c` must show: a chain start shows nothing, a
   square with only a head shows a stub towards it, and a square with both
   links shows the segment joining them.
   */
  predicate GlyphOk(c: Coord, w: WireRec) {
    match w.head
    case NoHead => true
    case SelfHead => w.dir == NONE
    case HeadAt(h) =>
      && Adjacent(c, h)
      && match w.tail
         case None => w.dir == SingleGlyph(DirTo(c, h))
         case Some(t) => Adjacent(c, t) && t != h && w.dir == ElbowGlyph(DirTo(c, t), DirTo(c, h))
  }

  predicate Valid(g: Grid) {
    && ChainInvariant(g)
    && forall c :: c in g ==> GlyphOk(c, g[c])
  }

  /** The empty level is valid. */
  lemma EmptyGridValid()
    ensures Valid(map[])
  {
  }

  /** No branching: two squares never share a head, and the head the level reads when retracting is never missing. */
  lemma NoBranching(g: Grid, p: Coord, q: Coord)
    requires ChainInvariant(g)
    requires p in g && q in g
    ensures g[p].head != NoHead
    ensures g[p].head.HeadAt? && g[p].head == g[q].head ==> p == q
    ensures g[p].tail.Some? && g[p].tail == g[q].tail ==> p == q
  {
    assert HeadOk(g, p) && HeadOk(g, q);
    assert TailOk(g, p) && TailOk(g, q);
  }

  /** A square that can be extended from has no tail yet. */
  lemma MatchedNeighbourIsChainEnd(g: Grid, c: Coord, s: Side, tag: string)
    requires ChainInvariant(g) && Matches(g, c, s, tag)
    ensures Step(c, s) in g && g[Step(c, s)].tail == None && g[Step(c, s)].tag == tag
  {
    var n := Step(c, s);
    assert HeadOk(g, n);
  }

  lemma ExtendPreservesValid(g: Grid, c: Coord, s: Side, tag: string)
    requires Valid(g) && InBounds(c) && c !in g && Matches(g, c, s, tag)
    ensures Valid(ExtendWire(g, c, s, tag))
  {
    var r := ExtendWire(g, c, s, tag);
    var n := Step(c, s);
    MatchedNeighbourIsChainEnd(g, c, s, tag);
    forall p | p in r
      ensures InBounds(p) && HeadOk(r, p) && TailOk(r, p) && GlyphOk(p, r[p])
    {
      if p == c {
        assert DirTo(c, n) == s;
        GlyphSidesInjective(r[c].dir, SingleGlyph(s));
      } else if p == n {
        assert HeadOk(g, n) && GlyphOk(n, g[n]);
        match g[n].head
        case SelfHead =>
        case HeadAt(h) =>
          assert h != c;
          assert DirTo(n, c) == Opposite(s);
          GlyphSidesInjective(r[n].dir, ElbowGlyph(Opposite(s), DirTo(n, h)));
      } else {
        assert p in g && r[p] == g[p];
        assert HeadOk(g, p) && TailOk(g, p) && GlyphOk(p, g[p]);
        match g[p].head
        case SelfHead =>
        case HeadAt(h) =>
          assert h != n && h != c;
      }
    }
  }

  lemma RetractPreservesValid(g: Grid, c: Coord)
    requires Valid(g) && Retractable(g, c)
    ensures Valid(RetractWire(g, c))
  {
    var r := RetractWire(g, c);
    var t := g[c].tail.value;
    assert TailOk(g, c) && HeadOk(g, t) && HeadOk(g, c) && GlyphOk(c, g[c]);
    forall p | p in r
      ensures InBounds(p) && HeadOk(r, p) && TailOk(r, p) && GlyphOk(p, r[p])
    {
      if p == c {
        match g[c].head
        case SelfHead =>
        case HeadAt(h) =>
          GlyphSidesInjective(r[c].dir, SingleGlyph(DirTo(c, h)));
      } else {
        assert p in g && r[p] == g[p];
        assert HeadOk(g, p) && TailOk(g, p);
        match g[p].head
        case SelfHead =>
        case HeadAt(h) =>
          assert h != t;
        match g[p].tail
        case None =>
        case Some(q) =>
          assert q != t;
      }
    }
  }

  /** Drawing a wire square keeps the grid valid. */
  lemma DrawWirePreservesValid(g: Grid, x: int, y: int, tag: string)
    requires Valid(g)
    ensures Valid(DrawWire(g, x, y, tag))
  {
    var c := Coord(x, y);
    if Retractable(g, c) {
      RetractPreservesValid(g, c);
    } else if InBounds(c) && c !in g {
      var h := FindHead(g, c, tag);
      if h.Some? {
        ExtendPreservesValid(g, c, h.value, tag);
      }
    }
  }

  /** Seeding a chain start on an empty cell keeps the grid valid. */
  lemma SeedPreservesValid(g: Grid, x: int, y: int, tag: string)
    requires Valid(g) && InBounds(Coord(x, y)) && Coord(x, y) !in g
    ensures Valid(SetWireTemp(g, x, y, tag))
  {
    var r := SetWireTemp(g, x, y, tag);
    var c := Coord(x, y);
    GlyphSidesInjective(r[c].dir, NONE);
    forall p | p in r
      ensures InBounds(p) && HeadOk(r, p) && TailOk(r, p) && GlyphOk(p, r[p])
    {
      if p != c {
        assert HeadOk(g, p) && TailOk(g, p);
      }
    }
  }

  /**
   Seeding over an occupied cell is not safe: reseeding the start of a
   two-square chain orphans the second square, whose head no longer lists it
   as its tail.
   */
  lemma SeedOverChainBreaksInvariant()
    ensures var g0 := SetWireTemp(map[], 0, 0, "A");
            var g1 := DrawWire(g0, 0, 1, "A");
            && Valid(g0) && Valid(g1) && |g1| == 2
            && !ChainInvariant(SetWireTemp(g1, 0, 0, "A"))
  {
    var g0 := SetWireTemp(map[], 0, 0, "A");
    SeedPreservesValid(map[], 0, 0, "A");
    assert Matches(g0, Coord(0, 1), Up, "A");
    assert FindHead(g0, Coord(0, 1), "A") == Some(Up);
    var g1 := DrawWire(g0, 0, 1, "A");
    DrawWirePreservesValid(g0, 0, 1, "A");
    assert g1.Keys == {Coord(0, 0), Coord(0, 1)};
    var g2 := SetWireTemp(g1, 0, 0, "A");
    assert !HeadOk(g2, Coord(0, 1));
  }

  /**
   Undo: drawing a square and then touching the square it attached to
   restores the grid exactly, links, tags and glyphs included.
   */
  lemma ExtendThenRetractRestores(g: Grid, x: int, y: int, tag: string, s: Side, tag': string)
    requires Valid(g) && InBounds(Coord(x, y)) && Coord(x, y) !in g
    requires FirstMatch(g, Coord(x, y), s, tag)
    ensures var n := Step(Coord(x, y), s);
            DrawWire(DrawWire(g, x, y, tag), n.x, n.y, tag') == g
  {
    var c := Coord(x, y);
    var n := Step(c, s);
    MatchedNeighbourIsChainEnd(g, c, s, tag);
    var g1 := DrawWire(g, x, y, tag);
    assert g1 == ExtendWire(g, c, s, tag);
    assert Retractable(g1, n);
    assert InBounds(n);
    var g2 := DrawWire(g1, n.x, n.y, tag');
    assert g2 == RetractWire(g1, n);
    assert g2.Keys == g.Keys;
    assert GlyphOk(n, g[n]) && HeadOk(g, n);
    match g[n].head
    case SelfHead =>
    case HeadAt(h) =>
      GlyphSidesInjective(g2[n].dir, g[n].dir);
    assert g2[n] == g[n];
    forall p | p in g
      ensures g2[p] == g[p]
    {
    }
  }

  /** Every wire on the grid carries a true signal. */
  predicate AllSignalsTrue(g: Grid) {
    forall c :: c in g ==> g[c].signal
  }

  /**
   Wires are only ever created with the constructor's true signal, and
   drawing never changes a signal, so a grid built by drawing and seeding
   carries true everywhere.
   */
  lemma DrawingKeepsSignalsTrue(g: Grid, x: int, y: int, tag: string)
    requires WellPlaced(g) && AllSignalsTrue(g)
    ensures AllSignalsTrue(DrawWire(g, x, y, tag))
    ensures InBounds(Coord(x, y)) ==> AllSignalsTrue(SetWireTemp(g, x, y, tag))
  {
    var c := Coord(x, y);
    if Retractable(g, c) {
    } else if InBounds(c) && c !in g {
      var h := FindHead(g, c, tag);
      if h.Some? {
        var r := ExtendWire(g, c, h.value, tag);
        assert forall p :: p in r ==> p == c || p == Step(c, h.value) || r[p] == g[p];
      }
    }
  }

  /** An END node accepts every wire of its own tag on such a grid. */
  lemma EndNodeAcceptsDrawnWire(n: Nodes.Node, g: Grid, c: Coord)
    requires AllSignalsTrue(g) && c in g
    requires n.kind == Nodes.END && n.tag == g[c].tag
    ensures Nodes.CheckSignal(n, g[c].tag, g[c].signal)
  {
  }

  /** A cell whose contents differ between two grids. */
  predicate Changed(g: Grid, r: Grid, p: Coord) {
    (p in g) != (p in r) || (p in g && p in r && g[p] != r[p])
  }

  /**
   Frame: a draw changes the touched cell and at most one of its
   neighbours, and nothing at all when it neither extends nor retracts.
   */
  lemma DrawWireFrame(g: Grid, x: int, y: int, tag: string)
    requires ChainInvariant(g)
    ensures var r := DrawWire(g, x, y, tag);
            && (forall p :: Changed(g, r, p) ==> p == Coord(x, y) || Adjacent(Coord(x, y), p))
            && (forall p, q :: Changed(g, r, p) && Changed(g, r, q) && p != Coord(x, y) && q != Coord(x, y) ==> p == q)
  {
    var c := Coord(x, y);
    var r := DrawWire(g, x, y, tag);
    if Retractable(g, c) {
      var t := g[c].tail.value;
      assert HeadOk(g, t);
      assert forall p :: Changed(g, r, p) ==> p == c || p == t;
    } else if InBounds(c) && c !in g {
      var h := FindHead(g, c, tag);
      if h.Some? {
        assert forall p :: Changed(g, r, p) ==> p == c || p == Step(c, h.value);
      }
    }
  }

  /** Extending adds exactly one square; retracting removes exactly one. */
  lemma DrawWireChangesLengthByOne(g: Grid, x: int, y: int, tag: string)
    requires WellPlaced(g)
    ensures var r := DrawWire(g, x, y, tag);
            && (InBounds(Coord(x, y)) && Coord(x, y) !in g && Coord(x, y) in r ==> |r| == |g| + 1)
            && (Retractable(g, Coord(x, y)) ==> |r| + 1 == |g|)
  {
    var c := Coord(x, y);
    var r := DrawWire(g, x, y, tag);
    if InBounds(c) && c !in g && c in r {
      assert r.Keys == g.Keys + {c};
      assert |r.Keys| == |g.Keys| + 1;
    }
    if Retractable(g, c) {
      var t := g[c].tail.value;
      assert r.Keys == g.Keys - {t};
      assert |r.Keys| + 1 == |g.Keys|;
    }
  }

  // A short drawing session: seed "A" at (2, 2), draw right to (3, 2) and
  // (4, 2), then turn down to (4, 3).

  const Session0: Grid := map[Coord(2, 2) := WireRec("A", true, NONE, SelfHead, None)]

  const Session1: Grid := map[
    Coord(2, 2) := WireRec("A", true, NONE, SelfHead, Some(Coord(3, 2))),
    Coord(3, 2) := WireRec("A", true, W, HeadAt(Coord(2, 2)), None)]

  const Session2: Grid := map[
    Coord(2, 2) := WireRec("A", true, NONE, SelfHead, Some(Coord(3, 2))),
    Coord(3, 2) := WireRec("A", true, EW, HeadAt(Coord(2, 2)), Some(Coord(4, 2))),
    Coord(4, 2) := WireRec("A", true, W, HeadAt(Coord(3, 2)), None)]

  const Session3: Grid := map[
    Coord(2, 2) := WireRec("A", true, NONE, SelfHead, Some(Coord(3, 2))),
    Coord(3, 2) := WireRec("A", true, EW, HeadAt(Coord(2, 2)), Some(Coord(4, 2))),
    Coord(4, 2) := WireRec("A", true, SW, HeadAt(Coord(3, 2)), Some(Coord(4, 3))),
    Coord(4, 3) := WireRec("A", true, N, HeadAt(Coord(4, 2)), None)]

  /** The seed is a chain start drawn as nothing. */
  lemma SessionSeed()
    ensures SetWireTemp(map[], 2, 2, "A") == Session0
  {
  }

  /** The first square attaches to the seed on its left and points back at it. */
  lemma SessionStep1()
    ensures DrawWire(Session0, 3, 2, "A") == Session1
  {
    assert FindHead(Session0, Coord(3, 2), "A") == Some(Left);
  }

  /** The second square turns the first into a straight east-west segment. */
  lemma SessionStep2()
    ensures DrawWire(Session1, 4, 2, "A") == Session2
  {
    assert FindHead(Session1, Coord(4, 2), "A") == Some(Left);
  }

  /** Turning down makes (4, 2) a south-west turn and the new end a stub pointing north. */
  lemma SessionStep3()
    ensures DrawWire(Session2, 4, 3, "A") == Session3
  {
    assert FindHead(Session2, Coord(4, 3), "A") == Some(Up);
  }

  /** Touching (4, 2) again takes the last square back, whatever tag is being drawn. */
  lemma SessionUndo(tag: string)
    ensures DrawWire(Session3, 4, 2, tag) == Session2
  {
    assert Retractable(Session3, Coord(4, 2));
  }
}
