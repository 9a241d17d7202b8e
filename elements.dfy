/** The element and wire records of the editor (elements.py): the element
    types and their fixed port sets and sizes, where a port sits on the
    element, the click test, and the two-endpoint wire record. */
module Elements {
  import opened Python

  /** Gate kinds, in the order of their enum values 0..3. */
  datatype ElementType = Or | And | Not | Input

  /** Visual states, in the order of their values 0..2; only Default and Choosing are ever set. */
  datatype ElementState = Default | Triggered | Choosing

  /** The only port names the editor uses: 'i1', 'i2' and 'o'. The source's
      string tests `'i' in port` and `'2' in port` become `port != O` and `port == I2`. */
  datatype Port = I1 | I2 | O

  datatype Point = Point(x: int, y: int)

  /** The wire id stored in a port that holds no wire. */
  const Unconnected: int := -1

  /** The ports an element of type `t` is created with. */
  function PortSet(t: ElementType): set<Port> {
    match t
    case Input => {O}
    case Not => {I1, O}
    case _ => {I1, I2, O}
  }

  /** The side of an element's square box. */
  function Size(t: ElementType): nat {
    if t == Input then 30 else 80
  }

  /** An element: position, visual state, the port-to-wire dict, size and type.
      Only the circuit writes `x`, `y`, `state` and `connections`. */
  datatype Element = Element(
    x: int, y: int,
    state: ElementState,
    connections: map<Port, int>,
    width: int, height: int,
    elementType: ElementType)

  /** The element `Element(element_type, x, y)` builds. */
  function NewElement(t: ElementType, x: int, y: int): (e: Element)
    ensures e.x == x && e.y == y && e.state == Default && e.elementType == t
    ensures e.connections.Keys == PortSet(t)
    ensures forall p :: p in e.connections ==> e.connections[p] == Unconnected
    ensures e.width == Size(t) && e.height == Size(t)
  {
    var connections :=
      if t == Input then map[O := -1]
      else if t == Not then map[I1 := -1, O := -1]
      else map[I1 := -1, I2 := -1, O := -1];
    var width := if t == Input then 30 else 80;
    var height := if t == Input then 30 else 80;
    Element(x, y, Default, connections, width, height, t)
  }

  /** Width and height are the ones the element's type fixes: true of every
      element, since only the constructor sets them. */
  predicate Shaped(e: Element) {
    e.width == Size(e.elementType) && e.height == Size(e.elementType)
  }

  /** Where a wire attaches to port `port` of `e`. Python's `//` floors and
      Dafny's `/` is Euclidean; for the positive divisors 2 and 4 they agree. */
  function ConnectionPoint(e: Element, port: Port): (p: Point)
    ensures p.x == if port == O then e.x + e.width else e.x
    ensures 0 <= e.height ==> e.y <= p.y <= e.y + e.height
    ensures Shaped(e) && e.elementType == Input ==> p.y == e.y + 15
    ensures Shaped(e) && e.elementType != Input ==> p.y == e.y + (if port == I2 then 60 else 20)
  {
    var x := if port != O then e.x else e.x + e.width;
    var y := if e.elementType == Input then e.y + e.height / 2
             else e.y + e.height / 4 * (if port == I2 then 3 else 1);
    Point(x, y)
  }

  /** The click test: the box with both bounds inclusive. */
  predicate IsClicked(e: Element, x: int, y: int)
    ensures IsClicked(e, x, y) <==>
      Abs(2 * x - (2 * e.x + e.width)) <= e.width && Abs(2 * y - (2 * e.y + e.height)) <= e.height
  {
    e.x <= x <= e.x + e.width && e.y <= y <= e.y + e.height
  }

  /** The Ctrl-mode port test of the press handler: both offsets under 15. */
  predicate Near(p: Point, x: int, y: int)
    ensures Near(p, x, y) <==> p.x - 14 <= x <= p.x + 14 && p.y - 14 <= y <= p.y + 14
  {
    Abs(p.x - x) < 15 && Abs(p.y - y) < 15
  }

  /** A wire: endpoint 0 is (element0, port0), endpoint 1 is (element1, port1). */
  datatype Line = Line(element0: int, element1: int, port0: Port, port1: Port, isActive: bool)

  /** Is (id, port) one of the two endpoints of `l`? */
  predicate IsEnd(l: Line, id: int, port: Port) {
    (l.element0 == id && l.port0 == port) || (l.element1 == id && l.port1 == port)
  }

  /** The wire `Line(element_1, element_2, port_1, port_2)` builds. */
  function NewLine(element1: int, element2: int, port1: Port, port2: Port): (l: Line)
    ensures IsEnd(l, element1, port1) && IsEnd(l, element2, port2)
    ensures l.element0 == element1 && l.port0 == port1
    ensures l.element1 == element2 && l.port1 == port2
    ensures !l.isActive
  {
    Line(element1, element2, port1, port2, false)
  }

  /** Where the ports of a new element sit: an input's only port mid-height
      on the right edge; a gate's inputs a quarter and three quarters down the
      left edge, its output on the right edge level with 'i1'. */
  lemma NewElementPorts(t: ElementType, x: int, y: int)
    ensures var e := NewElement(t, x, y);
      if t == Input then ConnectionPoint(e, O) == Point(x + 30, y + 15)
      else
        && ConnectionPoint(e, I1) == Point(x, y + 20)
        && ConnectionPoint(e, I2) == Point(x, y + 60)
        && ConnectionPoint(e, O) == Point(x + 80, y + 20)
  {
  }

  /** Every port of an element lies on its clickable box. */
  lemma PortOnBox(e: Element, port: Port)
    requires Shaped(e) && port in PortSet(e.elementType)
    ensures var p := ConnectionPoint(e, port); IsClicked(e, p.x, p.y)
  {
  }

  /** Two distinct ports of one element are never both within the ±15 window
      of the same point, so the Ctrl-mode port loop acts on at most one port
      of an element. */
  lemma PortsApart(e: Element, p: Port, q: Port, x: int, y: int)
    requires Shaped(e) && p in PortSet(e.elementType) && q in PortSet(e.elementType) && p != q
    ensures !(Near(ConnectionPoint(e, p), x, y) && Near(ConnectionPoint(e, q), x, y))
  {
  }
}
