/**
 Logic gates. A gate has an operator (AND, OR, NOT), a port layout, a
 facing, an output signal, and possibly a link to the other half of a
 two-square gate. Gates are kept in an arena keyed by identifiers so that
 the other-half link is an identifier instead of a pointer.
 */
module Gates {
  import opened Wrappers

  datatype Operator = AND | OR | NOT

  /** Where wires may attach: IN only takes input, INOUT also holds the output. */
  datatype Ports = IN | INOUT

  /** The side the gate's output faces. */
  datatype Facing = NORTH | EAST | SOUTH | WEST

  type GateId = nat

  datatype Gate = Gate(op: Operator, alignment: Ports, direction: Facing, outputSignal: bool, otherHalf: Option<GateId>)

  /** Operator, port layout and facing: what construction fixes. */
  predicate SameShape(g: Gate, h: Gate) {
    g.op == h.op && g.alignment == h.alignment && g.direction == h.direction
  }

  /** A new gate is dead: its output is false and it has no other half. */
  function NewGate(op: Operator, alignment: Ports, direction: Facing): (g: Gate)
    ensures g.op == op && g.alignment == alignment && g.direction == direction
    ensures !g.outputSignal && g.otherHalf == None
  {
    Gate(op, alignment, direction, false, None)
  }

  // ---------------------------------------------------------------------
  // Signal combination
  // ---------------------------------------------------------------------

  /** How many inputs an operator combines. */
  function Arity(op: Operator): nat {
    if op == NOT then 1 else 2
  }

  /** The truth table of an operator over its inputs: AND needs all true, OR some true, NOT negates. */
  function Evaluate(op: Operator, inputs: seq<bool>): bool
    requires |inputs| == Arity(op)
  {
    match op
    case AND => forall i :: 0 <= i < |inputs| ==> inputs[i]
    case OR => exists i :: 0 <= i < |inputs| && inputs[i]
    case NOT => !inputs[0]
  }

  /** On two inputs the truth table is the familiar conjunction and disjunction. */
  lemma EvaluatePair(op: Operator, a: bool, b: bool)
    requires Arity(op) == 2
    ensures op == AND ==> Evaluate(op, [a, b]) == (a && b)
    ensures op == OR ==> Evaluate(op, [a, b]) == (a || b)
  {
    var ins := [a, b];
    assert ins[0] == a && ins[1] == b;
  }

  /** The gate after a conversion, and the tag it hands on. */
  datatype Converted = Converted(gate: Gate, tag: string)

  /**
   Two-input conversion. A two-input operator stores its truth-table value
   as the output; a NOT gate is left as it is. The tag handed on is the
   first tag followed by the second, whatever the operator.
   */
  function ConvertSignal2(g: Gate, firstSignal: bool, secondSignal: bool, firstID: string, secondID: string): (r: Converted)
    ensures SameShape(r.gate, g) && r.gate.otherHalf == g.otherHalf
    ensures Arity(g.op) == 2 ==> r.gate.outputSignal == Evaluate(g.op, [firstSignal, secondSignal])
    ensures Arity(g.op) != 2 ==> r.gate == g
    ensures |r.tag| == |firstID| + |secondID|
    ensures r.tag[..|firstID|] == firstID && r.tag[|firstID|..] == secondID
  {
    var newID := firstID + secondID;
    EvaluatePair(AND, firstSignal, secondSignal);
    EvaluatePair(OR, firstSignal, secondSignal);
    match g.op
    case AND => Converted(g.(outputSignal := firstSignal && secondSignal), newID)
    case OR => Converted(g.(outputSignal := firstSignal || secondSignal), newID)
    case NOT => Converted(g, newID)
  }

  /**
   One-input conversion. A NOT gate stores the negated input; an AND or OR
   gate is left as it is. The tag passes through unchanged.
   */
  function ConvertSignal1(g: Gate, input: bool, id: string): (r: Converted)
    ensures SameShape(r.gate, g) && r.gate.otherHalf == g.otherHalf
    ensures Arity(g.op) == 1 ==> r.gate.outputSignal == Evaluate(g.op, [input])
    ensures Arity(g.op) != 1 ==> r.gate == g
    ensures r.tag == id
  {
    match g.op
    case NOT => Converted(g.(outputSignal := !input), id)
    case _ => Converted(g, id)
  }

  /** The truth tables on the inputs the game's levels are built around. */
  lemma TruthTableSamples()
    ensures !ConvertSignal2(NewGate(AND, INOUT, EAST), true, false, "A", "B").gate.outputSignal
    ensures ConvertSignal2(NewGate(OR, INOUT, EAST), true, false, "A", "B").gate.outputSignal
    ensures !ConvertSignal1(NewGate(NOT, INOUT, EAST), true, "A").gate.outputSignal
    ensures ConvertSignal1(NewGate(NOT, INOUT, EAST), false, "A").gate.outputSignal
  {
  }

  /**
   The combined tag depends on the order of the inputs: swapping two
   different tags of equal length gives a different tag.
   */
  lemma CombinedTagIsOrdered(g: Gate, s1: bool, s2: bool, a: string, b: string)
    requires |a| == |b| && a != b
    ensures ConvertSignal2(g, s1, s2, a, b).tag != ConvertSignal2(g, s2, s1, b, a).tag
  {
    var ab := ConvertSignal2(g, s1, s2, a, b).tag;
    var ba := ConvertSignal2(g, s2, s1, b, a).tag;
    assert ab[..|a|] == a;
    assert ba[..|b|] == b;
  }

  /** Converting twice with the same inputs leaves the state of converting once. */
  lemma ConvertIdempotent(g: Gate, s1: bool, s2: bool, id1: string, id2: string, input: bool, id: string)
    ensures ConvertSignal2(ConvertSignal2(g, s1, s2, id1, id2).gate, s1, s2, id1, id2)
            == ConvertSignal2(g, s1, s2, id1, id2)
    ensures ConvertSignal1(ConvertSignal1(g, input, id).gate, input, id) == ConvertSignal1(g, input, id)
  {
  }

  function SetSignal(g: Gate, signal: bool): (r: Gate)
    ensures r.outputSignal == signal
    ensures SameShape(r, g) && r.otherHalf == g.otherHalf
  {
    g.(outputSignal := signal)
  }

  // ---------------------------------------------------------------------
  // The other half of a two-square gate
  // ---------------------------------------------------------------------

  type Arena = map<GateId, Gate>

  /** The two halves may be linked: neither is NOT and they share the operator. */
  predicate Linkable(self: Gate, other: Gate) {
    self.op != NOT && self.op == other.op
  }

  /**
   Links gate `self` to `other` as its other half, on `self` only. A NOT
   gate or a gate of another operator is silently refused.
   */
  function SetOtherHalf(a: Arena, self: GateId, other: GateId): (r: Arena)
    requires self in a && other in a
    ensures r.Keys == a.Keys
    ensures forall id :: id in a && id != self ==> r[id] == a[id]
    ensures SameShape(r[self], a[self]) && r[self].outputSignal == a[self].outputSignal
    ensures !Linkable(a[self], a[other]) ==> r == a
    ensures Linkable(a[self], a[other]) ==> r[self].otherHalf == Some(other)
  {
    if a[self].op == NOT || a[self].op != a[other].op then a
    else a[self := a[self].(otherHalf := Some(other))]
  }

  /**
   Every other-half link in the arena joins two gates of the same operator
   (never NOT) that face the same way.
   */
  predicate HalvesWellFormed(a: Arena) {
    forall id :: id in a && a[id].otherHalf.Some? ==>
      var o := a[id].otherHalf.value;
      && o in a
      && a[id].op != NOT
      && a[o].op == a[id].op
      && a[o].direction == a[id].direction
  }

  /** A well-formed arena never links a NOT gate. */
  lemma NotGatesStayUnlinked(a: Arena, id: GateId)
    requires HalvesWellFormed(a) && id in a && a[id].op == NOT
    ensures a[id].otherHalf == None
  {
  }

  /** One change to one gate of the arena. */
  datatype GateOp =
    | Convert2(id: GateId, firstSignal: bool, secondSignal: bool, firstID: string, secondID: string)
    | Convert1(id: GateId, input: bool, tag: string)
    | SetSig(id: GateId, signal: bool)
    | Link(id: GateId, other: GateId)

  /**
   The change addresses gates that exist; a link also has the two halves
   facing the same way, which the game expects of its callers.
   */
  predicate OpOk(a: Arena, op: GateOp) {
    && op.id in a
    && (op.Link? ==> op.other in a && a[op.id].direction == a[op.other].direction)
  }

  function Apply(a: Arena, op: GateOp): (r: Arena)
    requires OpOk(a, op)
    ensures r.Keys == a.Keys
    ensures forall id :: id in a ==> SameShape(r[id], a[id])
    ensures HalvesWellFormed(a) ==> HalvesWellFormed(r)
  {
    match op
    case Convert2(id, s1, s2, t1, t2) => a[id := ConvertSignal2(a[id], s1, s2, t1, t2).gate]
    case Convert1(id, b, t) => a[id := ConvertSignal1(a[id], b, t).gate]
    case SetSig(id, b) => a[id := SetSignal(a[id], b)]
    case Link(id, other) => SetOtherHalf(a, id, other)
  }

  /** Every change of the sequence is allowed in the arena it reaches. */
  predicate TraceOk(a: Arena, ops: seq<GateOp>)
    decreases |ops|
  {
    |ops| == 0 || (OpOk(a, ops[0]) && TraceOk(Apply(a, ops[0]), ops[1..]))
  }

  function Run(a: Arena, ops: seq<GateOp>): Arena
    requires TraceOk(a, ops)
    decreases |ops|
  {
    if |ops| == 0 then a else Run(Apply(a, ops[0]), ops[1..])
  }

  /**
   Whatever happens to the gates, each keeps the operator, port layout and
   facing it was built with, and the other-half links stay well formed.
   */
  lemma {:induction false} RunKeepsShapeAndHalves(a: Arena, ops: seq<GateOp>)
    requires TraceOk(a, ops)
    ensures Run(a, ops).Keys == a.Keys
    ensures forall id :: id in a ==> SameShape(Run(a, ops)[id], a[id])
    ensures HalvesWellFormed(a) ==> HalvesWellFormed(Run(a, ops))
    decreases |ops|
  {
    if |ops| > 0 {
      var a' := Apply(a, ops[0]);
      RunKeepsShapeAndHalves(a', ops[1..]);
    }
  }

  /** An arena of freshly built gates is well formed. */
  lemma NewGatesWellFormed(a: Arena)
    requires forall id :: id in a ==> a[id].otherHalf == None
    ensures HalvesWellFormed(a)
  {
  }
}
