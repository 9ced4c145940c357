/**
 Terminal nodes: ROOT nodes feed a tagged signal into the board, END nodes
 accept one. A node records its tag, its signal, whether it is connected,
 its kind and the side it must be wired from (or NONE for any side).
 */
module Nodes {
  import opened Geometry

  datatype NodeType = ROOT | END

  /** The side a node must be wired from; NONE leaves it free. */
  datatype NodeDirection = NONE | N | E | S | W

  datatype Node = Node(tag: string, signal: bool, connected: bool, kind: NodeType, direction: NodeDirection)

  /**
   A new node carries a true signal, is not connected and has an empty tag.
   The constructor does not set the kind or the direction, so both are
   supplied by the caller here.
   */
  function NewNode(kind: NodeType, direction: NodeDirection): (n: Node)
    ensures n.signal && !n.connected && n.tag == ""
    ensures n.kind == kind && n.direction == direction
  {
    Node("", true, false, kind, direction)
  }

  /**
   Whether the node accepts a wire bringing `tag` and `signal`: only an END
   node does, when the tags agree and the signal is true.
   */
  function CheckSignal(n: Node, tag: string, signal: bool): (r: bool)
    ensures r ==> n.kind == END && tag == n.tag
    ensures n.kind == END && tag == n.tag ==> (r <==> signal)
  {
    if n.kind != END then false
    else tag == n.tag && signal
  }

  /** The node's own signal, connection flag and direction play no part in the check. */
  lemma CheckSignalIgnoresOwnState(n: Node, tag: string, signal: bool, own: bool, conn: bool, d: NodeDirection)
    ensures CheckSignal(n.(signal := own, connected := conn, direction := d), tag, signal) == CheckSignal(n, tag, signal)
  {
  }

  /** A ROOT node accepts nothing, and an END node rejects a false signal even with the right tag. */
  lemma CheckSignalRejects(n: Node, tag: string)
    ensures n.kind == ROOT ==> !CheckSignal(n, tag, true)
    ensures !CheckSignal(n, n.tag, false)
  {
  }

  function SetTag(n: Node, newTag: string): (r: Node)
    ensures r.tag == newTag
    ensures r.signal == n.signal && r.connected == n.connected && r.kind == n.kind && r.direction == n.direction
  {
    n.(tag := newTag)
  }

  function SetSignal(n: Node, signal: bool): (r: Node)
    ensures r.signal == signal
    ensures r.tag == n.tag && r.connected == n.connected && r.kind == n.kind && r.direction == n.direction
  {
    n.(signal := signal)
  }

  function SetConnected(n: Node, connectionStatus: bool): (r: Node)
    ensures r.connected == connectionStatus
    ensures r.tag == n.tag && r.signal == n.signal && r.kind == n.kind && r.direction == n.direction
  {
    n.(connected := connectionStatus)
  }

  /** A node of tag `tag` accepts a wire carrying that tag once its signal is true. */
  lemma SetTagThenCheck(n: Node, tag: string)
    requires n.kind == END
    ensures CheckSignal(SetTag(n, tag), tag, true)
  {
  }

  /** Whether a node with direction `d` may be wired from side `s`. */
  function Permits(d: NodeDirection, s: Side): bool {
    match d
    case NONE => true
    case N => s == Up
    case E => s == Right
    case S => s == Down
    case W => s == Left
  }

  /** NONE restricts nothing; every other direction admits exactly one side. */
  lemma PermitsOneSideOrAll(d: NodeDirection)
    ensures d == NONE ==> forall s :: Permits(d, s)
    ensures d != NONE ==> exists s :: Permits(d, s) && forall t :: Permits(d, t) ==> t == s
  {
    match d
    case NONE =>
    case N => assert Permits(d, Up);
    case E => assert Permits(d, Right);
    case S => assert Permits(d, Down);
    case W => assert Permits(d, Left);
  }
}
