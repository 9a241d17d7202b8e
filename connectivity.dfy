/** What both revisions of the circuit share: the two slot lists, the
    dict writes on element ports, add_connection (identical in the two
    revisions), the mutual back-reference invariant, and the selection
    helpers of the press handlers. */
module Connectivity {
  import opened Python
  import opened Slots
  import opened Elements

  /** The circuit's two lists; `None` marks a freed slot. */
  datatype Graph = Graph(elements: seq<Option<Element>>, lines: seq<Option<Line>>)

  /** The graph after a call, and how the call ended. */
  datatype Change = Change(g: Graph, outcome: Outcome)

  /** The keys the event handlers distinguish. */
  datatype Key = Delete | Control | OtherKey

  predicate Live(es: seq<Option<Element>>, id: int) {
    0 <= id < |es| && es[id].Some?
  }

  /** `self.elements[id]` followed by an attribute access: a bad index raises
      IndexError, a freed slot AttributeError. */
  function ElementAt(es: seq<Option<Element>>, id: int): (r: Result<Element>)
    ensures r.Ok? <==> ListIndex(|es|, id).Some? && es[ListIndex(|es|, id).value].Some?
    ensures 0 <= id && r.Ok? ==> Live(es, id) && r.value == es[id].value
  {
    match ListIndex(|es|, id)
    case None => Err(IndexError)
    case Some(k) => if es[k].None? then Err(AttributeError) else Ok(es[k].value)
  }

  /** Live element `k` with `connections[port] = v`. */
  function WithConnection(es: seq<Option<Element>>, k: nat, port: Port, v: int): seq<Option<Element>>
    requires k < |es| && es[k].Some?
  {
    es[k := Some(es[k].value.(connections := es[k].value.connections[port := v]))]
  }

  /** `self.elements[id].connections[port] = v`. A Python dict assignment
      adds the key when it is missing; it never checks the old value. */
  function SetConnection(es: seq<Option<Element>>, id: int, port: Port, v: int): (r: Result<seq<Option<Element>>>)
    ensures r.Ok? <==> ElementAt(es, id).Ok?
    ensures r.Ok? ==> OnlyWires(es, r.value)
  {
    match ListIndex(|es|, id)
    case None => Err(IndexError)
    case Some(k) => if es[k].None? then Err(AttributeError) else Ok(WithConnection(es, k, port, v))
  }

  /** Two slots agree on everything but the wire ids held in the ports
      (a port may be added, never removed). */
  predicate SameBody(a: Option<Element>, b: Option<Element>) {
    a.None? == b.None? &&
    (a.Some? ==>
      && a.value.x == b.value.x && a.value.y == b.value.y
      && a.value.state == b.value.state
      && a.value.width == b.value.width && a.value.height == b.value.height
      && a.value.elementType == b.value.elementType
      && a.value.connections.Keys <= b.value.connections.Keys)
  }

  /** `es2` is `es` with only port values changed or added: what every
      connect and disconnect call leaves behind, whether it raises or not. */
  predicate OnlyWires(es: seq<Option<Element>>, es2: seq<Option<Element>>) {
    |es2| == |es| && forall k :: 0 <= k < |es| ==> SameBody(es[k], es2[k])
  }

  lemma OnlyWiresTrans(a: seq<Option<Element>>, b: seq<Option<Element>>, c: seq<Option<Element>>)
    requires OnlyWires(a, b) && OnlyWires(b, c)
    ensures OnlyWires(a, c)
  {
    forall k | 0 <= k < |a| ensures SameBody(a[k], c[k]) {
      assert SameBody(a[k], b[k]) && SameBody(b[k], c[k]);
    }
  }

  /** add_connection, the same in both revisions: the Line goes into the
      lowest free slot of `lines` (else it is appended), then id1's port1 and
      id2's port2 are set to that slot, with no check of either element or port. */
  function AfterAddConnection(g: Graph, id1: int, port1: Port, id2: int, port2: Port): (ch: Change)
    ensures ch.g.lines == Place(g.lines, NewLine(id1, id2, port1, port2))
    ensures OnlyWires(g.elements, ch.g.elements)
    ensures ch.outcome.Done? <==> ElementAt(g.elements, id1).Ok? && ElementAt(g.elements, id2).Ok?
  {
    var lineId := FirstFree(g.lines);
    var lines := Place(g.lines, NewLine(id1, id2, port1, port2));
    match SetConnection(g.elements, id1, port1, lineId)
    case Err(e) => Change(Graph(g.elements, lines), Raised(e))
    case Ok(es1) =>
      match SetConnection(es1, id2, port2, lineId)
      case Err(e) => Change(Graph(es1, lines), Raised(e))
      case Ok(es2) => Change(Graph(es2, lines), Done)
  }

  // ---------------------------------------------------------------------
  // The mutual back-reference invariant

  /** Port `port` of live element `id` holds wire slot `l`. */
  predicate Holds(es: seq<Option<Element>>, id: int, port: Port, l: int) {
    Live(es, id) && port in es[id].value.connections && es[id].value.connections[port] == l
  }

  /** Every live element has exactly the ports of its type. */
  ghost predicate Typed(g: Graph) {
    forall id :: Live(g.elements, id) ==> g.elements[id].value.connections.Keys == PortSet(g.elements[id].value.elementType)
  }

  /** Every live line's two endpoints are live elements whose named port holds that line's slot. */
  ghost predicate Linked(g: Graph) {
    forall l :: 0 <= l < |g.lines| && g.lines[l].Some? ==>
      && Holds(g.elements, g.lines[l].value.element0, g.lines[l].value.port0, l)
      && Holds(g.elements, g.lines[l].value.element1, g.lines[l].value.port1, l)
  }

  /** Every port holds either -1 or the slot of a live line that ends at that port. */
  ghost predicate Backed(g: Graph) {
    forall id, port :: Live(g.elements, id) && port in g.elements[id].value.connections ==>
      var v := g.elements[id].value.connections[port];
      v == Unconnected || (0 <= v < |g.lines| && g.lines[v].Some? && IsEnd(g.lines[v].value, id, port))
  }

  /** The connectivity invariant: ports as typed, and wires and ports pointing at each other. */
  ghost predicate Consistent(g: Graph) {
    Typed(g) && Linked(g) && Backed(g)
  }

  /** An endpoint a well-behaved connect may use: a live element, a port of its
      type, and that port currently unconnected. */
  predicate FreePort(es: seq<Option<Element>>, id: int, port: Port) {
    Live(es, id) && port in PortSet(es[id].value.elementType) &&
    port in es[id].value.connections && es[id].value.connections[port] == Unconnected
  }

  /** Every live element is shaped as its type says. */
  ghost predicate AllShaped(es: seq<Option<Element>>) {
    forall id :: Live(es, id) ==> Shaped(es[id].value)
  }

  // ---------------------------------------------------------------------
  // Selection helpers shared by both press handlers

  /** `selected_element` is -1 or names a live element. */
  predicate SelectionLive(es: seq<Option<Element>>, selected: int) {
    selected == -1 || Live(es, selected)
  }

  /** Rewiring never frees or allocates an element, so a live selection stays live. */
  lemma SelectionKept(es: seq<Option<Element>>, es2: seq<Option<Element>>, selected: int)
    requires OnlyWires(es, es2) && SelectionLive(es, selected)
    ensures SelectionLive(es2, selected)
  {
    if selected != -1 {
      assert SameBody(es[selected], es2[selected]);
    }
  }

  /** Live element `k` with its visual state set to `st`. */
  function WithState(es: seq<Option<Element>>, k: nat, st: ElementState): seq<Option<Element>>
    requires k < |es| && es[k].Some?
  {
    es[k := Some(es[k].value.(state := st))]
  }

  /** The previous selection, if any, put back to DEFAULT. */
  function Deselected(es: seq<Option<Element>>, selected: int): (r: seq<Option<Element>>)
    requires SelectionLive(es, selected)
    ensures |r| == |es| && forall k :: 0 <= k < |es| ==> (r[k].None? <==> es[k].None?)
  {
    if selected > -1 then WithState(es, selected, Default) else es
  }

  /** Live element `k` moved to (x, y). */
  function MovedTo(es: seq<Option<Element>>, k: nat, x: int, y: int): seq<Option<Element>>
    requires k < |es| && es[k].Some?
  {
    es[k := Some(es[k].value.(x := x, y := y))]
  }

  /** Slot `i` is a live element whose box contains (x, y). */
  predicate HitAt(es: seq<Option<Element>>, i: int, x: int, y: int) {
    Live(es, i) && IsClicked(es[i].value, x, y)
  }

  /** The lowest slot at or after `from` that HitAt, or -1. */
  function FirstHit(es: seq<Option<Element>>, x: int, y: int, from: nat): (r: int)
    requires from <= |es|
    ensures r == -1 || (from <= r && HitAt(es, r, x, y))
    ensures forall j :: from <= j < |es| && (r == -1 || j < r) ==> !HitAt(es, j, x, y)
    decreases |es| - from
  {
    if from == |es| then -1
    else if HitAt(es, from, x, y) then from
    else FirstHit(es, x, y, from + 1)
  }

  /** The keys of `e.connections` in the order the Ctrl-mode port loop visits
      them: i1, i2, o, which is the insertion order of every dict the element
      constructor builds. */
  function PortsIn(e: Element): seq<Port> {
    (if I1 in e.connections then [I1] else [])
    + (if I2 in e.connections then [I2] else [])
    + (if O in e.connections then [O] else [])
  }

  /** The loop visits exactly the element's ports. */
  lemma PortsInKeys(e: Element)
    ensures forall p :: p in PortsIn(e) <==> p in e.connections
  {
    forall p ensures p in PortsIn(e) <==> p in e.connections {
      match p
      case I1 =>
      case I2 =>
      case O =>
    }
  }

  /** The loop visits no port twice. */
  lemma PortsInDistinct(e: Element)
    ensures forall a, b :: 0 <= a < b < |PortsIn(e)| ==> PortsIn(e)[a] != PortsIn(e)[b]
  {
  }

  // ---------------------------------------------------------------------
  // Lemmas about adding elements and connections

  /** add_element keeps the invariant: the new element's ports are all -1 and no live
      line can name the slot it takes, which was free. */
  lemma AddElementKeepsConsistent(g: Graph, t: ElementType, x: int, y: int)
    requires Consistent(g)
    ensures Consistent(Graph(Place(g.elements, NewElement(t, x, y)), g.lines))
  {
    var k := FirstFree(g.elements);
    var es := Place(g.elements, NewElement(t, x, y));
    var g2 := Graph(es, g.lines);
    forall id, port, l | Holds(g.elements, id, port, l) ensures Holds(es, id, port, l) {
      assert id != k;
    }
    forall id, port | Live(es, id) && port in es[id].value.connections
      ensures var v := es[id].value.connections[port];
        v == Unconnected || (0 <= v < |g.lines| && g.lines[v].Some? && IsEnd(g.lines[v].value, id, port))
    {
      if id != k {
        assert Live(g.elements, id);
      }
    }
  }

  /** add_connection with two live elements always completes and leaves both named
      ports holding the new slot, whatever they held before; the stored line has
      (id1, port1) as endpoint 0 and (id2, port2) as endpoint 1, and no other port changes. */
  lemma AddConnectionWires(g: Graph, id1: int, port1: Port, id2: int, port2: Port)
    requires Live(g.elements, id1) && Live(g.elements, id2)
    ensures var ch := AfterAddConnection(g, id1, port1, id2, port2);
      var k := FirstFree(g.lines);
      && ch.outcome == Done
      && ch.g.lines[k] == Some(Line(id1, id2, port1, port2, false))
      && Holds(ch.g.elements, id1, port1, k) && Holds(ch.g.elements, id2, port2, k)
      && forall id, port ::
           (Live(g.elements, id) && port in g.elements[id].value.connections
            && (id, port) != (id1, port1) && (id, port) != (id2, port2)) ==>
           ch.g.elements[id].value.connections[port] == g.elements[id].value.connections[port]
  {
    var k := FirstFree(g.lines);
    var es1 := WithConnection(g.elements, id1, port1, k);
    assert SetConnection(g.elements, id1, port1, k) == Ok(es1);
    assert SetConnection(es1, id2, port2, k) == Ok(WithConnection(es1, id2, port2, k));
  }

  /** add_connection between two free ports of live elements keeps the invariant. */
  lemma AddConnectionKeepsConsistent(g: Graph, id1: int, port1: Port, id2: int, port2: Port)
    requires Consistent(g)
    requires FreePort(g.elements, id1, port1) && FreePort(g.elements, id2, port2)
    ensures var ch := AfterAddConnection(g, id1, port1, id2, port2);
      ch.outcome == Done && Consistent(ch.g)
  {
    var k := FirstFree(g.lines);
    var es := WithConnection(WithConnection(g.elements, id1, port1, k), id2, port2, k);
    var ls := Place(g.lines, NewLine(id1, id2, port1, port2));
    AddConnectionWires(g, id1, port1, id2, port2);
    assert AfterAddConnection(g, id1, port1, id2, port2) == Change(Graph(es, ls), Done);
    ConnectTyped(g, es, id1, port1, id2, port2, k);
    ConnectLinked(g, es, ls, id1, port1, id2, port2, k);
    ConnectBacked(g, es, ls, id1, port1, id2, port2, k);
  }

  lemma ConnectTyped(g: Graph, es: seq<Option<Element>>, id1: int, port1: Port, id2: int, port2: Port, k: int)
    requires Typed(g) && FreePort(g.elements, id1, port1) && FreePort(g.elements, id2, port2)
    requires es == WithConnection(WithConnection(g.elements, id1, port1, k), id2, port2, k)
    ensures Typed(Graph(es, g.lines))
  {
    forall id | Live(es, id) ensures es[id].value.connections.Keys == PortSet(es[id].value.elementType) {
      assert Live(g.elements, id);
    }
  }

  lemma ConnectLinked(g: Graph, es: seq<Option<Element>>, ls: seq<Option<Line>>,
                      id1: int, port1: Port, id2: int, port2: Port, k: int)
    requires Linked(g) && Backed(g) && FreePort(g.elements, id1, port1) && FreePort(g.elements, id2, port2)
    requires k == FirstFree(g.lines) && ls == Place(g.lines, NewLine(id1, id2, port1, port2))
    requires es == WithConnection(WithConnection(g.elements, id1, port1, k), id2, port2, k)
    ensures Linked(Graph(es, ls))
  {
    forall l | 0 <= l < |ls| && ls[l].Some?
      ensures Holds(es, ls[l].value.element0, ls[l].value.port0, l)
      ensures Holds(es, ls[l].value.element1, ls[l].value.port1, l)
    {
      if l == k {
        NewWireHeld(g, es, ls, id1, port1, id2, port2, k);
      } else {
        var ln := g.lines[l].value;
        assert ls[l] == g.lines[l];
        EndKept(g.elements, es, ln.element0, ln.port0, l, id1, port1, id2, port2, k);
        EndKept(g.elements, es, ln.element1, ln.port1, l, id1, port1, id2, port2, k);
      }
    }
  }

  /** Both ends of the wire add_connection stores hold its slot. */
  lemma NewWireHeld(g: Graph, es: seq<Option<Element>>, ls: seq<Option<Line>>,
                    id1: int, port1: Port, id2: int, port2: Port, k: int)
    requires FreePort(g.elements, id1, port1) && FreePort(g.elements, id2, port2)
    requires k == FirstFree(g.lines) && ls == Place(g.lines, NewLine(id1, id2, port1, port2))
    requires es == WithConnection(WithConnection(g.elements, id1, port1, k), id2, port2, k)
    ensures k < |ls| && ls[k] == Some(NewLine(id1, id2, port1, port2))
    ensures Holds(es, id1, port1, k) && Holds(es, id2, port2, k)
  {
  }

  /** A port holding slot `l` still holds it once add_connection has set two
      free ports to another slot. */
  lemma EndKept(es0: seq<Option<Element>>, es: seq<Option<Element>>, e: int, p: Port, l: int,
                id1: int, port1: Port, id2: int, port2: Port, k: int)
    requires Holds(es0, e, p, l) && l != Unconnected
    requires FreePort(es0, id1, port1) && FreePort(es0, id2, port2)
    requires es == WithConnection(WithConnection(es0, id1, port1, k), id2, port2, k)
    ensures Holds(es, e, p, l)
  {
  }

  lemma ConnectBacked(g: Graph, es: seq<Option<Element>>, ls: seq<Option<Line>>,
                      id1: int, port1: Port, id2: int, port2: Port, k: int)
    requires Backed(g) && FreePort(g.elements, id1, port1) && FreePort(g.elements, id2, port2)
    requires k == FirstFree(g.lines) && ls == Place(g.lines, NewLine(id1, id2, port1, port2))
    requires es == WithConnection(WithConnection(g.elements, id1, port1, k), id2, port2, k)
    ensures Backed(Graph(es, ls))
  {
    forall id, port | Live(es, id) && port in es[id].value.connections
      ensures var v := es[id].value.connections[port];
        v == Unconnected || (0 <= v < |ls| && ls[v].Some? && IsEnd(ls[v].value, id, port))
    {
      assert Live(g.elements, id);
      if (id, port) != (id1, port1) && (id, port) != (id2, port2) {
        var v := g.elements[id].value.connections[port];
        assert es[id].value.connections[port] == v;
        if v != Unconnected {
          assert g.lines[v].Some?;
          assert v != k;
        }
      }
    }
  }

  /** add_connection does not check occupancy: writing into a port that already
      holds a live line leaves that line pointing at a port that no longer
      points back, so the invariant breaks. */
  lemma AddConnectionOverwriteBreaksLink(g: Graph, id1: int, port1: Port, id2: int, port2: Port)
    requires Consistent(g)
    requires Live(g.elements, id1) && port1 in g.elements[id1].value.connections
    requires g.elements[id1].value.connections[port1] != Unconnected
    ensures !Linked(AfterAddConnection(g, id1, port1, id2, port2).g)
  {
    var m := g.elements[id1].value.connections[port1];
    var k := FirstFree(g.lines);
    var ch := AfterAddConnection(g, id1, port1, id2, port2);
    assert g.lines[m].Some? && IsEnd(g.lines[m].value, id1, port1);
    assert m != k;
    var es1 := WithConnection(g.elements, id1, port1, k);
    assert SetConnection(g.elements, id1, port1, k) == Ok(es1);
    assert Holds(es1, id1, port1, k);
    assert !Holds(ch.g.elements, id1, port1, m) by {
      if ch.outcome.Done? {
        assert ch.g.elements[id1].value.connections[port1] == k;
      }
    }
    assert ch.g.lines[m] == g.lines[m];
  }

  // ---------------------------------------------------------------------
  // Disconnecting and freeing, in terms of the invariant

  /** A wire id that names no live line. */
  predicate Stale(lines: seq<Option<Line>>, v: int) {
    v < 0 || v >= |lines| || lines[v].None?
  }

  /** Freeing live line `v` and setting exactly its two endpoint ports to -1
      keeps a consistent circuit consistent. */
  lemma DisconnectKeepsConsistent(g: Graph, g2: Graph, v: nat)
    requires Consistent(g) && v < |g.lines| && g.lines[v].Some?
    requires g2.lines == g.lines[v := None] && OnlyWires(g.elements, g2.elements)
    requires forall j, q :: Live(g.elements, j) && q in g.elements[j].value.connections ==>
      q in g2.elements[j].value.connections &&
      g2.elements[j].value.connections[q] ==
        if IsEnd(g.lines[v].value, j, q) then Unconnected else g.elements[j].value.connections[q]
    requires forall j :: Live(g.elements, j) ==> g2.elements[j].value.connections.Keys == g.elements[j].value.connections.Keys
    ensures Consistent(g2)
  {
    forall j | Live(g2.elements, j) ensures g2.elements[j].value.connections.Keys == PortSet(g2.elements[j].value.elementType) {
      assert SameBody(g.elements[j], g2.elements[j]);
    }
    DisconnectKeepsLinked(g, g2, v);
    DisconnectKeepsBacked(g, g2, v);
  }

  /** The Linked half of DisconnectKeepsConsistent. */
  lemma DisconnectKeepsLinked(g: Graph, g2: Graph, v: nat)
    requires Linked(g) && Backed(g) && v < |g.lines| && g.lines[v].Some?
    requires g2.lines == g.lines[v := None] && OnlyWires(g.elements, g2.elements)
    requires forall j, q :: Live(g.elements, j) && q in g.elements[j].value.connections ==>
      q in g2.elements[j].value.connections &&
      g2.elements[j].value.connections[q] ==
        if IsEnd(g.lines[v].value, j, q) then Unconnected else g.elements[j].value.connections[q]
    ensures Linked(g2)
  {
    forall l | 0 <= l < |g2.lines| && g2.lines[l].Some?
      ensures Holds(g2.elements, g2.lines[l].value.element0, g2.lines[l].value.port0, l)
      ensures Holds(g2.elements, g2.lines[l].value.element1, g2.lines[l].value.port1, l)
    {
      var ln := g.lines[l].value;
      assert Holds(g.elements, ln.element0, ln.port0, l) && Holds(g.elements, ln.element1, ln.port1, l);
      var gone := g.lines[v].value;
      assert Holds(g.elements, gone.element0, gone.port0, v) && Holds(g.elements, gone.element1, gone.port1, v);
    }
  }

  /** The Backed half of DisconnectKeepsConsistent. */
  lemma DisconnectKeepsBacked(g: Graph, g2: Graph, v: nat)
    requires Backed(g) && v < |g.lines| && g.lines[v].Some?
    requires g2.lines == g.lines[v := None] && OnlyWires(g.elements, g2.elements)
    requires forall j, q :: Live(g.elements, j) && q in g.elements[j].value.connections ==>
      q in g2.elements[j].value.connections &&
      g2.elements[j].value.connections[q] ==
        if IsEnd(g.lines[v].value, j, q) then Unconnected else g.elements[j].value.connections[q]
    requires forall j :: Live(g.elements, j) ==> g2.elements[j].value.connections.Keys == g.elements[j].value.connections.Keys
    ensures Backed(g2)
  {
    forall j, q | Live(g2.elements, j) && q in g2.elements[j].value.connections
      ensures var w := g2.elements[j].value.connections[q];
        w == Unconnected || (0 <= w < |g2.lines| && g2.lines[w].Some? && IsEnd(g2.lines[w].value, j, q))
    {
      assert SameBody(g.elements[j], g2.elements[j]);
      var w := g.elements[j].value.connections[q];
      if !IsEnd(g.lines[v].value, j, q) && w != Unconnected {
        assert w != v;
      }
    }
  }

  /** Setting port `pa` of `a` and then port `pb` of `b` to -1, where those
      are the two ends of `ln` at distinct elements, clears exactly the
      ports at an end of `ln` and changes nothing else. */
  lemma ClearedEndsPorts(es: seq<Option<Element>>, ln: Line, a: nat, pa: Port, b: nat, pb: Port)
    requires Live(es, a) && Live(es, b) && a != b
    requires pa in es[a].value.connections && pb in es[b].value.connections
    requires (ln.element0 == a && ln.port0 == pa && ln.element1 == b && ln.port1 == pb)
          || (ln.element0 == b && ln.port0 == pb && ln.element1 == a && ln.port1 == pa)
    ensures var es2 := WithConnection(WithConnection(es, a, pa, Unconnected), b, pb, Unconnected);
      && OnlyWires(es, es2)
      && (forall j, q :: Live(es, j) && q in es[j].value.connections ==>
            q in es2[j].value.connections &&
            es2[j].value.connections[q] == if IsEnd(ln, j, q) then Unconnected else es[j].value.connections[q])
      && (forall j :: Live(es, j) ==> es2[j].value.connections.Keys == es[j].value.connections.Keys)
  {
    var es2 := WithConnection(WithConnection(es, a, pa, Unconnected), b, pb, Unconnected);
    forall j, q | Live(es, j) && q in es[j].value.connections
      ensures q in es2[j].value.connections
      ensures es2[j].value.connections[q] == if IsEnd(ln, j, q) then Unconnected else es[j].value.connections[q]
    {
    }
    forall j | Live(es, j) ensures es2[j].value.connections.Keys == es[j].value.connections.Keys {
      if j == a {
        assert es2[a].value.connections == es[a].value.connections[pa := Unconnected];
      } else if j == b {
        assert es2[b].value.connections == es[b].value.connections[pb := Unconnected];
      }
    }
  }

  /** Freeing live wire `v` of a consistent circuit after setting both of
      its end ports to -1, as ClearedEndsPorts does, keeps it consistent. */
  lemma ClearedEnds(g: Graph, v: nat, a: nat, pa: Port, b: nat, pb: Port)
    requires Consistent(g) && v < |g.lines| && g.lines[v].Some?
    requires Live(g.elements, a) && Live(g.elements, b) && a != b
    requires pa in g.elements[a].value.connections && pb in g.elements[b].value.connections
    requires var ln := g.lines[v].value;
      (ln.element0 == a && ln.port0 == pa && ln.element1 == b && ln.port1 == pb)
      || (ln.element0 == b && ln.port0 == pb && ln.element1 == a && ln.port1 == pa)
    ensures var es2 := WithConnection(WithConnection(g.elements, a, pa, Unconnected), b, pb, Unconnected);
      && (forall j, q :: Live(g.elements, j) && q in g.elements[j].value.connections ==>
            q in es2[j].value.connections &&
            es2[j].value.connections[q] == if IsEnd(g.lines[v].value, j, q) then Unconnected else g.elements[j].value.connections[q])
      && Consistent(Graph(es2, g.lines[v := None]))
  {
    ClearedEndsPorts(g.elements, g.lines[v].value, a, pa, b, pb);
    var es2 := WithConnection(WithConnection(g.elements, a, pa, Unconnected), b, pb, Unconnected);
    DisconnectKeepsConsistent(g, Graph(es2, g.lines[v := None]), v);
  }

  /** A port map in which exactly the ends of `line` at `id` were set to -1,
      where `line` is not a self-loop, is the old map with `port` set to -1. */
  lemma ClearedOnePort(m: map<Port, int>, m2: map<Port, int>, line: Line, id: int, port: Port)
    requires port in m && m2.Keys == m.Keys
    requires IsEnd(line, id, port) && !(line.element0 == id && line.element1 == id)
    requires forall q :: q in m ==> m2[q] == if IsEnd(line, id, q) then Unconnected else m[q]
    ensures m2 == m[port := Unconnected]
  {
    forall q | q in m2 ensures m2[q] == m[port := Unconnected][q] {
      assert IsEnd(line, id, q) <==> q == port;
    }
  }

  /** `id` is one of the two endpoints of `ln`. */
  predicate Touches(ln: Line, id: int) {
    ln.element0 == id || ln.element1 == id
  }

  /** `lines2` is `lines` with some of the wires at element `id` freed, and nothing else changed. */
  predicate FreedOnlyAt(lines: seq<Option<Line>>, lines2: seq<Option<Line>>, id: int) {
    |lines2| == |lines| &&
    forall l :: 0 <= l < |lines| ==>
      lines2[l] == lines[l] || (lines2[l].None? && lines[l].Some? && Touches(lines[l].value, id))
  }

  /** Freeing one live wire at `id` frees only wires at `id`. */
  lemma FreeOneAt(lines: seq<Option<Line>>, v: nat, id: int)
    requires v < |lines| && lines[v].Some? && Touches(lines[v].value, id)
    ensures FreedOnlyAt(lines, lines[v := None], id)
  {
  }

  /** Every port of `e` holds -1. */
  predicate Isolated(e: Element) {
    forall p :: p in e.connections ==> e.connections[p] == Unconnected
  }

  /** Freeing an element none of whose ports holds a wire keeps the circuit
      consistent, and no live wire ends at it. */
  lemma FreeIsolated(g: Graph, id: int)
    requires Consistent(g) && Live(g.elements, id) && Isolated(g.elements[id].value)
    ensures forall l :: 0 <= l < |g.lines| && g.lines[l].Some? ==> !Touches(g.lines[l].value, id)
    ensures Consistent(Graph(g.elements[id := None], g.lines))
  {
    forall l | 0 <= l < |g.lines| && g.lines[l].Some? ensures !Touches(g.lines[l].value, id) {
      assert Holds(g.elements, g.lines[l].value.element0, g.lines[l].value.port0, l);
      assert Holds(g.elements, g.lines[l].value.element1, g.lines[l].value.port1, l);
    }
    var g2 := Graph(g.elements[id := None], g.lines);
    forall j, q | Live(g2.elements, j) && q in g2.elements[j].value.connections
      ensures var w := g2.elements[j].value.connections[q];
        w == Unconnected || (0 <= w < |g2.lines| && g2.lines[w].Some? && IsEnd(g2.lines[w].value, j, q))
    {
      assert Live(g.elements, j);
    }
  }

  lemma FreedOnlyAtTrans(a: seq<Option<Line>>, b: seq<Option<Line>>, c: seq<Option<Line>>, id: int)
    requires FreedOnlyAt(a, b, id) && FreedOnlyAt(b, c, id)
    ensures FreedOnlyAt(a, c, id)
  {
    forall l | 0 <= l < |a|
      ensures c[l] == a[l] || (c[l].None? && a[l].Some? && Touches(a[l].value, id))
    {
      if c[l] != b[l] {
        assert b[l].Some? && Touches(b[l].value, id);
      }
    }
  }

  /** `e2` is `e` with exactly the ports `ports` set to -1. */
  predicate Unwired(e: Element, e2: Element, ports: seq<Port>) {
    && e2.connections.Keys == e.connections.Keys
    && forall p :: p in e.connections ==>
         e2.connections[p] == if p in ports then Unconnected else e.connections[p]
  }

  /** Setting `ports[0]` to -1 and then the rest of `ports` sets all of `ports`. */
  lemma UnwiredCons(e: Element, e1: Element, e2: Element, ports: seq<Port>)
    requires ports != [] && ports[0] in e.connections
    requires e1.connections == e.connections[ports[0] := Unconnected]
    requires Unwired(e1, e2, ports[1..])
    ensures Unwired(e, e2, ports)
  {
    forall p | p in e.connections
      ensures e2.connections[p] == if p in ports then Unconnected else e.connections[p]
    {
      assert p in ports <==> p == ports[0] || p in ports[1..] by {
        assert ports == [ports[0]] + ports[1..];
      }
    }
  }

  /** Element `j`, if live, has no port within the click window of (x, y). */
  predicate NoPortNear(es: seq<Option<Element>>, j: int, x: int, y: int) {
    Live(es, j) ==> forall p :: p in es[j].value.connections ==> !Near(ConnectionPoint(es[j].value, p), x, y)
  }

  /** Port `p` of element `a` is the first port, in element order, within
      the click window of (x, y). */
  predicate FirstPortAt(es: seq<Option<Element>>, a: nat, p: Port, x: int, y: int) {
    && Live(es, a) && p in es[a].value.connections
    && Near(ConnectionPoint(es[a].value, p), x, y)
    && forall j :: 0 <= j < a ==> NoPortNear(es, j, x, y)
  }

  // ---------------------------------------------------------------------
  // The example circuit

  /** add_element(t, x, y) on the graph. */
  function WithElement(g: Graph, t: ElementType, x: int, y: int): Graph {
    g.(elements := Place(g.elements, NewElement(t, x, y)))
  }

  /** The example circuit: two inputs feeding an AND gate, built by
      add_element and add_connection from an empty circuit. */
  function Example(): Change {
    var g := WithElement(WithElement(WithElement(Graph([], []), Input, 60, 100), Input, 60, 200), And, 250, 120);
    var c1 := AfterAddConnection(g, 0, O, 2, I1);
    if c1.outcome.Raised? then c1 else AfterAddConnection(c1.g, 1, O, 2, I2)
  }

  /** Example() is the add_element and add_connection calls it is written as. */
  lemma ExampleUnfolded(es1: seq<Option<Element>>, es2: seq<Option<Element>>, g: Graph, c1: Change, c2: Change)
    requires es1 == Place([], NewElement(Input, 60, 100)) && es2 == Place(es1, NewElement(Input, 60, 200))
    requires g == Graph(Place(es2, NewElement(And, 250, 120)), [])
    requires c1 == AfterAddConnection(g, 0, O, 2, I1)
    requires c2 == if c1.outcome.Raised? then c1 else AfterAddConnection(c1.g, 1, O, 2, I2)
    ensures Example() == c2
  {
  }

  /** The example builds without raising: input 0's output feeds the gate's
      'i1' through wire 0, input 1's output feeds its 'i2' through wire 1,
      and the gate's output is unconnected. */
  lemma ExampleBuilt()
    ensures Example().outcome == Done
    ensures Example().g.elements == [
      Some(Element(60, 100, Default, map[O := 0], 30, 30, Input)),
      Some(Element(60, 200, Default, map[O := 1], 30, 30, Input)),
      Some(Element(250, 120, Default, map[I1 := 0, I2 := 1, O := Unconnected], 80, 80, And))]
    ensures Example().g.lines == [Some(Line(0, 2, O, I1, false)), Some(Line(1, 2, O, I2, false))]
  {
    ExamplePlaced();
    var es := [Some(NewElement(Input, 60, 100)), Some(NewElement(Input, 60, 200)), Some(NewElement(And, 250, 120))];
    ExampleFirstWire(es);
    ExampleSecondWire([
      Some(Element(60, 100, Default, map[O := 0], 30, 30, Input)),
      Some(Element(60, 200, Default, map[O := Unconnected], 30, 30, Input)),
      Some(Element(250, 120, Default, map[I1 := 0, I2 := Unconnected, O := Unconnected], 80, 80, And))]);
  }

  /** The three add_element calls of the example fill slots 0, 1 and 2. */
  lemma ExamplePlaced()
    ensures WithElement(WithElement(WithElement(Graph([], []), Input, 60, 100), Input, 60, 200), And, 250, 120)
      == Graph([Some(NewElement(Input, 60, 100)), Some(NewElement(Input, 60, 200)), Some(NewElement(And, 250, 120))], [])
  {
    var e0 := NewElement(Input, 60, 100);
    var e1 := NewElement(Input, 60, 200);
    assert FirstFree<Element>([]) == 0;
    assert FirstFree([Some(e0)]) == 1;
    assert FirstFree([Some(e0), Some(e1)]) == 2;
  }

  /** The example's first add_connection: wire 0 from input 0's output to the gate's 'i1'. */
  lemma ExampleFirstWire(es: seq<Option<Element>>)
    requires es == [Some(NewElement(Input, 60, 100)), Some(NewElement(Input, 60, 200)), Some(NewElement(And, 250, 120))]
    ensures AfterAddConnection(Graph(es, []), 0, O, 2, I1) == Change(Graph([
      Some(Element(60, 100, Default, map[O := 0], 30, 30, Input)),
      Some(Element(60, 200, Default, map[O := Unconnected], 30, 30, Input)),
      Some(Element(250, 120, Default, map[I1 := 0, I2 := Unconnected, O := Unconnected], 80, 80, And))],
      [Some(Line(0, 2, O, I1, false))]), Done)
  {
    assert FirstFree<Line>([]) == 0;
    var es1 := WithConnection(es, 0, O, 0);
    assert SetConnection(es, 0, O, 0) == Ok(es1);
    var es2 := WithConnection(es1, 2, I1, 0);
    assert SetConnection(es1, 2, I1, 0) == Ok(es2);
    assert es[0].value.connections[O := 0] == map[O := 0];
    assert es[2].value.connections[I1 := 0] == map[I1 := 0, I2 := Unconnected, O := Unconnected];
  }

  /** The example's second add_connection: wire 1 from input 1's output to the gate's 'i2'. */
  lemma ExampleSecondWire(es: seq<Option<Element>>)
    requires es == [
      Some(Element(60, 100, Default, map[O := 0], 30, 30, Input)),
      Some(Element(60, 200, Default, map[O := Unconnected], 30, 30, Input)),
      Some(Element(250, 120, Default, map[I1 := 0, I2 := Unconnected, O := Unconnected], 80, 80, And))]
    ensures AfterAddConnection(Graph(es, [Some(Line(0, 2, O, I1, false))]), 1, O, 2, I2) == Change(Graph([
      Some(Element(60, 100, Default, map[O := 0], 30, 30, Input)),
      Some(Element(60, 200, Default, map[O := 1], 30, 30, Input)),
      Some(Element(250, 120, Default, map[I1 := 0, I2 := 1, O := Unconnected], 80, 80, And))],
      [Some(Line(0, 2, O, I1, false)), Some(Line(1, 2, O, I2, false))]), Done)
  {
    assert FirstFree([Some(Line(0, 2, O, I1, false))]) == 1;
    var es1 := WithConnection(es, 1, O, 1);
    assert SetConnection(es, 1, O, 1) == Ok(es1);
    var es2 := WithConnection(es1, 2, I2, 1);
    assert SetConnection(es1, 2, I2, 1) == Ok(es2);
    assert es[1].value.connections[O := 1] == map[O := 1];
    assert es[2].value.connections[I2 := 1] == map[I1 := 0, I2 := 1, O := Unconnected];
  }

  /** The example circuit satisfies the connectivity invariant. */
  lemma ExampleConsistent()
    ensures Consistent(Example().g)
  {
    ExampleBuilt();
    ExampleGraphConsistent(Example().g);
  }

  /** The connectivity invariant of the example's graph, from its contents. */
  lemma ExampleGraphConsistent(g: Graph)
    requires g.elements == [
      Some(Element(60, 100, Default, map[O := 0], 30, 30, Input)),
      Some(Element(60, 200, Default, map[O := 1], 30, 30, Input)),
      Some(Element(250, 120, Default, map[I1 := 0, I2 := 1, O := Unconnected], 80, 80, And))]
    requires g.lines == [Some(Line(0, 2, O, I1, false)), Some(Line(1, 2, O, I2, false))]
    ensures Consistent(g)
  {
    assert Typed(g) by {
      forall id | Live(g.elements, id)
        ensures g.elements[id].value.connections.Keys == PortSet(g.elements[id].value.elementType)
      {
        assert id == 0 || id == 1 || id == 2;
      }
    }
    assert Linked(g) by {
      forall l | 0 <= l < |g.lines| && g.lines[l].Some?
        ensures Holds(g.elements, g.lines[l].value.element0, g.lines[l].value.port0, l)
        ensures Holds(g.elements, g.lines[l].value.element1, g.lines[l].value.port1, l)
      {
        assert l == 0 || l == 1;
      }
    }
    assert Backed(g) by {
      forall id, port | Live(g.elements, id) && port in g.elements[id].value.connections
        ensures var v := g.elements[id].value.connections[port];
          v == Unconnected || (0 <= v < |g.lines| && g.lines[v].Some? && IsEnd(g.lines[v].value, id, port))
      {
        assert id == 0 || id == 1 || id == 2;
      }
    }
  }

  /** In a consistent circuit with no live wire, every port of a live element is at -1. */
  lemma UnwiredWhenNoLines(g: Graph, id: int)
    requires Consistent(g) && Live(g.elements, id)
    requires forall l :: 0 <= l < |g.lines| ==> g.lines[l].None?
    ensures Isolated(g.elements[id].value)
    ensures g.elements[id].value.connections.Keys == PortSet(g.elements[id].value.elementType)
  {
  }

  /** Both slots of a two-slot wire list are free. */
  lemma BothFree(lines: seq<Option<Line>>)
    requires lines == [None, None]
    ensures forall l :: 0 <= l < |lines| ==> lines[l].None?
  {
  }

  /** Once no wire is live, both inputs of the example, still there, have their output at -1. */
  lemma OutputsFreed(es: seq<Option<Element>>, g2: Graph)
    requires |es| == 3 && es[0].Some? && es[1].Some? && O in es[0].value.connections && O in es[1].value.connections
    requires |g2.elements| == 3 && SameBody(es[0], g2.elements[0]) && SameBody(es[1], g2.elements[1])
    requires Consistent(g2) && |g2.lines| == 2 && g2.lines[0].None? && g2.lines[1].None?
    ensures g2.lines == [None, None]
    ensures g2.elements[0].Some? && O in g2.elements[0].value.connections && g2.elements[0].value.connections[O] == Unconnected
    ensures g2.elements[1].Some? && O in g2.elements[1].value.connections && g2.elements[1].value.connections[O] == Unconnected
  {
    assert g2.lines == [None, None];
    BothFree(g2.lines);
    UnwiredWhenNoLines(g2, 0);
    UnwiredWhenNoLines(g2, 1);
  }
}
