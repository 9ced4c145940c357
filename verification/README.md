# Logic-gate puzzle: wire grid, gates and nodes

This project models the circuit core of a logic-gate puzzle game. The
player draws wires on a 12 × 8 board to carry tagged boolean signals from
ROOT nodes, through AND/OR/NOT gates, to END nodes. The model covers four
parts:

- **The level's wire grid** (`Level`, `Chains`). The grid is a map from
  on-board cells to wire records. A record holds a tag, a signal, a glyph,
  a head link and a tail link; the links are cells, not pointers.
  - `DrawWire` is the player's move. On an empty cell it attaches a new
    square to the first neighbour, in the order up, right, down, left, that
    holds an unfinished wire of the same tag. It then redraws that
    neighbour as a straight segment or a turn. On an occupied cell whose
    tail is the end of its chain, it removes that tail.
  - `SetWireTemp` seeds a chain start, a wire headed by itself.
  - `Victory` and `RemoveConfetti` drive the one-shot win flag. Confetti is
    counted as bursts.
  - `Chains` proves the chain invariant that drawing keeps. Links are
    reciprocal and never branch, tags are constant along a chain, and
    glyphs match links. It also proves the exact undo round trip, a frame
    property and a concrete drawing session.
- **Wire squares** (`Wires`): the eleven glyphs and the sides each one
  connects, construction defaults, full connection and the setters.
- **Gates** (`Gates`): construction, both `convertSignal` forms checked
  against a truth-table reference, and `setOtherHalf`. Gates live in an
  arena keyed by identifiers, so the other-half link is an identifier. A
  trace lemma shows that operator, port layout and facing never change and
  that other-half links stay well formed.
- **Nodes** (`Nodes`): construction, `checkSignal`, the setters, and the
  documented meaning of a node's direction.

A square's position is the key it is stored under. Glyph updates are
written with the same coordinate differences and the same if/else order
as `level.cpp`. Lemmas then prove what those updates mean on a valid grid.

Behaviour of the code worth knowing:

- Headers and bodies disagree in places. The model uses the header enums
  for value sets and the `.cpp` bodies for behaviour:
  - `convertSignal` returns the tag (gate.cpp), not `void` (gate.h).
  - The gate constructor takes no coordinates.
  - Nodes have a `connected` flag.
- The two-input `convertSignal` hands on `firstID + secondID` as a plain
  concatenation. It does not sort, so swapping two different tags of equal
  length changes the tag (`Gates.CombinedTagIsOrdered`).
- A new wire's signal is always the constructor's `true`. The code does
  not copy the neighbour's signal.
- `drawWire` does not call `victory()`, and only wires are searched.
  `getGate`, `getNode` and `getObstacle` always return nothing.
- `WIDTH` and `HEIGHT` are defined in a header that is not part of this
  model. This model fixes them at 12 and 8.
- `setWireTemp` never sets the seed's position, so in the code a seed's
  coordinates are indeterminate. The glyph test for a square headed by a
  seed reads those coordinates. Here every position is the map key, so that
  test reads the seed's real cell and gives the intended glyph.

## Model

| member | source | states |
|---|---|---|
| Geometry.Step | level.cpp:36-39 | the neighbour on each side is the orthogonally adjacent cell: up is y-1, right x+1, down y+1, left x-1 |
| Geometry.StepInjective | level.cpp:36-39 | the four neighbours a draw looks up are four different cells, none of them the touched cell itself |
| Geometry.Opposite | level.cpp:36-39 | stepping to a side and then to its opposite returns to the start cell |
| Geometry.FlatIndexBijective | level.cpp:204-215 | row-major slot y*WIDTH+x maps board cells one-to-one into the array's WIDTH*HEIGHT slots |
| Geometry.LooseGetSlot | level.cpp:204-209 | cell lookup with the code's loose bounds test; reading past the array happens only for off-board cells |
| Geometry.LooseGetSlotMisreads | level.cpp:204-209 | the loose test lets (WIDTH, y) read cell (0, y+1), and (WIDTH, HEIGHT-1) and every (x, HEIGHT) read past the array |
| Geometry.GetSlot | level.cpp:204-209 | corrected lookup: nothing off the board, and every on-board cell reads its own slot inside the array |
| Geometry.LooseAgreesInBounds | level.cpp:204-209 | on the board the loose and strict lookups agree |
| Wires.SingleGlyph | wire.h:96-103 | a wire with only a head shows the stub that connects exactly the side of its head |
| Wires.ElbowGlyph | wire.h:16-28 | a two-link wire shows the straight or turn glyph that connects exactly its two sides |
| Wires.GlyphSidesInjective | wire.h:34-36 | each glyph connects at most two sides, and no two glyphs connect the same set of sides |
| Wires.GlyphsAreStubsOrSegments | wire.h:34-36 | every glyph is NONE, one of four stubs, or one of six two-sided segments: eleven glyphs |
| Wires.NameSpellsSides | wire.h:24-28 | a glyph's name spells the sides it connects; turn glyphs name the vertical half first |
| Wires.NewWire | wire.cpp:3-13 | a fresh wire has no head, no tail, glyph NONE, signal true, and is not fully connected |
| Wires.IsFullyConnected | wire.cpp:36-38 | a wire is fully connected exactly when both of its two link slots, head and tail, are in use; it has a free link when either is empty |
| Wires.SelfHeadedNeedsTail | wire.cpp:36-38 | a self-headed chain start is fully connected exactly when it has a tail |
| Wires.SetTag | wire.cpp:28-34 | the tag read back is the one just set; every other field is unchanged |
| Wires.SetSignal | wire.cpp:19-25 | the signal read back is the one just set; every other field is unchanged |
| Wires.SetDirection | wire.cpp:58-64 | the glyph read back is the one just set; every other field is unchanged |
| Wires.SetHeadConnection | wire.cpp:40-47 | replaces only the head link |
| Wires.SetTailConnection | wire.cpp:49-56 | replaces only the tail link |
| Level.GetWire | level.cpp:204-209 | a wire is found exactly at on-board occupied cells, and it is the stored one |
| Level.GetWireReadsFlatArray | level.cpp:204-209 | looking a cell up in the map equals reading slot y*WIDTH+x of the level's array |
| Level.SetWire | level.cpp:211-215 | after storing, the cell reads back what was stored; all other cells are unchanged |
| Level.UpgradeGlyph | level.cpp:63-162 | the neighbour's new glyph joins the side facing the new wire and the side facing its own head; a self-headed neighbour keeps its glyph |
| Level.RetractGlyph | level.cpp:181-197 | after its tail is cut, a wire shows the stub towards its head; a chain start keeps its glyph |
| Level.Matches | level.cpp:50-51 | a side matches exactly when its neighbour is an on-board wire of the drawn tag that is not fully connected; such a neighbour that has a head still has a free tail slot |
| Level.FirstMatchUnique | level.cpp:50-163 | only one side can be the first match in the order up, right, down, left |
| Level.FindHead | level.cpp:36-163 | finds a side exactly when some neighbour holds an unfinished wire of the same tag, and the one found is the first such side |
| Level.ExtendWire | level.cpp:50-163 | the new wire has the drawn tag, signal true, its head at the chosen neighbour, no tail, and a stub towards its head; the neighbour gains it as tail and the turn glyph; nothing else changes |
| Level.RetractWire | level.cpp:173-197 | the dangling tail's cell is emptied, the wire loses its tail and shows a stub towards its head; nothing else changes |
| Level.Retractable | level.cpp:173-174 | a wire can be cut back only when its tail exists and is the dangling end of the chain; a headed wire that can be cut back is fully connected |
| Level.DrawWire | level.cpp:23-202 | off-board: no change; empty cell: a wire appears iff a neighbour matches, attached to the first match, else no change; occupied cell: retracts iff its tail dangles, else no change |
| Level.SetWireTemp | level.cpp:229-234 | seeds a self-headed, tail-less wire of the given tag, drawn as NONE, that is not fully connected; other cells unchanged |
| Level.NewLevel | level.cpp:8-15 | a new level has an empty grid, is not won and has spawned no confetti |
| Level.Victory | level.cpp:236-244 | the level becomes won; confetti bursts exactly when it was not already won |
| Level.RemoveConfetti | level.cpp:256-259 | clears the victory flag and changes nothing else |
| Level.VictoryFiresOnce | level.cpp:236-244 | any number of victory calls bursts confetti at most once |
| Level.VictoryRearmedByRemoveConfetti | level.cpp:236-259 | after removing the confetti, the next victory bursts again |
| Chains.EmptyGridValid | level.cpp:12-14 | the empty grid satisfies the chain invariant |
| Chains.NoBranching | wire.h:68-87 | on a valid grid every wire has a head, and no two wires share a head or a tail: chains never branch |
| Chains.MatchedNeighbourIsChainEnd | level.cpp:50-59 | a neighbour a new wire can attach to is the tail-less end of its chain |
| Chains.ExtendPreservesValid | level.cpp:50-163 | extending keeps links reciprocal, tags constant along chains and glyphs matching links |
| Chains.RetractPreservesValid | level.cpp:173-197 | retracting keeps the chain invariant and the glyphs |
| Chains.DrawWirePreservesValid | level.cpp:23-202 | every drawWire call keeps the grid valid |
| Chains.SeedPreservesValid | level.cpp:229-234 | seeding a chain start on an empty cell keeps the grid valid |
| Chains.SeedOverChainBreaksInvariant | level.cpp:229-234 | reseeding an occupied chain start orphans its tail; `Chains.SeedPreservesValid` therefore assumes an empty cell |
| Chains.ExtendThenRetractRestores | level.cpp:50-197 | drawing a square and then touching the neighbour it attached to restores the grid exactly |
| Chains.DrawWireFrame | level.cpp:23-202 | a draw changes only the touched cell and at most one of its neighbours |
| Chains.DrawWireChangesLengthByOne | level.cpp:50-197 | extending adds exactly one square; retracting removes exactly one |
| Chains.DrawingKeepsSignalsTrue | wire.cpp:3-13 | drawing and seeding only ever create wires with the constructor's true signal, so every wire on the grid carries true |
| Chains.EndNodeAcceptsDrawnWire | node.cpp:59-64 | on a grid where every wire carries true, an END node accepts every wire whose tag is its own |
| Chains.SessionSeed | level.cpp:229-234 | a concrete seed gives the expected one-square grid |
| Chains.SessionStep1 | level.cpp:136-162 | attaching to a seed on the left gives a W stub; the seed's glyph stays NONE |
| Chains.SessionStep2 | level.cpp:136-162 | extending further east turns the middle square into EW |
| Chains.SessionStep3 | level.cpp:50-75 | turning down makes the corner SW and the new end an N stub |
| Chains.SessionUndo | level.cpp:173-197 | touching the corner again removes the last square and restores the earlier grid |
| Gates.NewGate | gate.cpp:4-12 | a new gate keeps its operator, layout and facing, outputs false and has no other half |
| Gates.EvaluatePair | gate.cpp:27-33 | on two inputs the all-true and some-true truth tables are conjunction and disjunction |
| Gates.ConvertSignal2 | gate.cpp:23-41 | AND/OR store the truth-table value of both inputs; NOT is unchanged; the tag is the first ID followed by the second |
| Gates.ConvertSignal1 | gate.cpp:43-58 | NOT stores the negated input; AND/OR are unchanged; the tag passes through |
| Gates.TruthTableSamples | gate.cpp:23-58 | AND(true,false) is false, OR(true,false) is true, NOT(true) is false, NOT(false) is true |
| Gates.CombinedTagIsOrdered | gate.cpp:25 | swapping two different input tags of equal length changes the combined tag |
| Gates.ConvertIdempotent | gate.cpp:23-58 | converting twice with the same inputs equals converting once |
| Gates.SetSignal | gate.cpp:60-66 | the output read back is the one set; the gate's shape and other half are unchanged |
| Gates.SetOtherHalf | gate.cpp:72-79 | links only between gates of the same operator, never from a NOT gate, and changes only the calling gate |
| Gates.NotGatesStayUnlinked | gate.h:213-217 | in a well-formed arena a NOT gate has no other half |
| Gates.Apply | gate.cpp:19-87 | every gate operation keeps each gate's operator, layout and facing, and keeps other-half links well formed |
| Gates.RunKeepsShapeAndHalves | gate.h:39-45 | over any sequence of operations the gates keep their shape, and linked halves share operator and rotation |
| Gates.NewGatesWellFormed | gate.cpp:4-12 | an arena of freshly built gates has well-formed other-half links |
| Nodes.NewNode | node.cpp:3-8 | a new node carries a true signal and is not connected |
| Nodes.CheckSignal | node.cpp:59-64 | only an END node with the same tag accepts, and then exactly when the signal is true |
| Nodes.CheckSignalIgnoresOwnState | node.cpp:59-64 | the node's own signal, connection flag and direction do not affect the check |
| Nodes.CheckSignalRejects | node.cpp:59-64 | a ROOT node never accepts, and a false signal is never accepted |
| Nodes.SetTag | node.cpp:39-45 | the tag read back is the one set; nothing else changes |
| Nodes.SetSignal | node.cpp:47-53 | the signal read back is the one set; nothing else changes |
| Nodes.SetConnected | node.cpp:66-72 | the connection status read back is the one last set; nothing else changes |
| Nodes.SetTagThenCheck | node.cpp:39-64 | an END node whose tag was just set accepts a true signal with that tag |
| Nodes.PermitsOneSideOrAll | node.h:86-91 | the direction NONE admits every side; each other direction admits exactly one |

## Findings

| source | as written | input that shows it | evidently intended | confidence | as-written member | corrected member |
|---|---|---|---|---|---|---|
| level.cpp:31, level.cpp:205 | the bounds test rejects only `x > WIDTH` and `y > HEIGHT` before indexing `wireGrid[y * WIDTH + x]` | `getWire(WIDTH, y)` for y < HEIGHT-1 reads cell (0, y+1), so a draw at the last column can attach to a wire at the start of the next row; `getWire(WIDTH, HEIGHT-1)` reads slot WIDTH*HEIGHT, one past the array, and a draw on the bottom row reads its down neighbour `getWire(x, HEIGHT)` past the array; the same test at level.cpp:31 lets `drawWire(WIDTH, y)` itself act on cell (0, y+1), retracting that wire's tail or storing a new wire in its slot with position (WIDTH, y), where the corrected `Level.DrawWire` leaves the grid unchanged | reject `x >= WIDTH` and `y >= HEIGHT` | high (not executed) | Geometry.LooseGetSlotMisreads | Geometry.GetSlot |

The rest of the model uses the strict test (`Geometry.InBounds`, `Level.GetWire`).

## Left out

- Level.DrawWire: the code dereferences a null pointer if the neighbour a wire attaches to has no head, and, when retracting, if the touched wire has no head (level.cpp:182). In both cases the model keeps that wire's glyph instead. `Chains.NoBranching` shows this cannot happen on a valid grid.
- Level.RetractWire: the model retracts only when the tail cell is on the grid. In the code a tail link always points at a grid wire on valid grids, which `Chains` proves.
- Level.SetWireTemp: requires an on-board cell. The code writes the array without any bounds check.
- Gates.SetOtherHalf: requires both gates to exist, since the code dereferences the argument. The rule that the two halves share a rotation is the caller's duty; it is part of `Gates.OpOk`, which `Gates.Apply` requires.
- Nodes.NewNode: the node constructor leaves the kind and direction uninitialised, so the model takes them as parameters. The tag starts empty.
- Nodes.PermitsOneSideOrAll: states the documented meaning of a node direction. No code consults it, because `getDirection` has no body.
- Memory management is not modelled. This covers the `delete` inside the link setters, the destructors and the node sprite. The map owns every wire.
- Logging (`qDebug`) is not modelled.
- Confetti physics, colours and drawing are not modelled. `spawnConfetti` and the graphics part of `removeConfetti` appear only as the burst counter. `updateLevel` only advances the confetti animation while the level is won, so it is left out.
- The UI is not modelled: mouse-to-grid mapping and the window code.
- `getGate`, `getNode` and `getObstacle` are left out because they always return nothing.
- Members without a body are left out because they have no behaviour to model:
  - `Gate::connectWire`, `Gate::isFullyConnected`, `getInputDirection`, `getOutputDirection`, `getInputNode`, `getOutputNode`.
  - `Wire::connectTail`, `wireDualDirector`.
  - `Node::connectWire`, `Node::getDirection`, `Node::setDirection`, `Node::getWire`.
  - `Gate::getOtherHalf` and `Gate::getTag`. The model reads the other half and the tag as record fields.
  - The position getters and setters of wires and nodes. Positions are map keys here.
- The INOUT port holding the output node is modelled only as the `Ports` value. The output node is never built.
- `otherHalf` links are set one side at a time, as in the code. Nothing in the code makes them mutual, so the model does not promise that.
- Gate, node and obstacle placement, signal propagation and the victory check over END nodes are not modelled. The level code contains none of them.
