/** What the later revision of the circuit widget (circuit_editor/circuit.py)
    guarantees, and where it breaks: disconnecting, the removal cascade, how
    a press is resolved, the two-click wiring gesture and dragging. */
module EditorCircuitProofs {
  import opened Python
  import opened Slots
  import opened Elements
  import opened Connectivity
  import opened EditorCircuit

  // ---------------------------------------------------------------------
  // remove_connection

  /** The guards under which remove_connection returns at once. */
  predicate RemoveIsNoOp(g: Graph, id: int, port: Port) {
    var es := g.elements;
    || id == -1 || id >= |es|
    || (ListIndex(|es|, id).Some? && es[ListIndex(|es|, id).value].None?)
    || (ElementAt(es, id).Ok? && port in ElementAt(es, id).value.connections
        && Stale(g.lines, ElementAt(es, id).value.connections[port]))
  }

  /** remove_connection leaves the circuit untouched and returns normally
      exactly when one of its guards fires; otherwise it raises or frees a
      line. */
  lemma RemoveConnectionNoOp(g: Graph, id: int, port: Port)
    ensures AfterRemoveConnection(g, id, port) == Change(g, Done) <==> RemoveIsNoOp(g, id, port)
  {
    var ch := AfterRemoveConnection(g, id, port);
    if !RemoveIsNoOp(g, id, port) && ch.outcome.Done? {
      var k := ListIndex(|g.elements|, id).value;
      var v := g.elements[k].value.connections[port];
      assert ch.g.lines[v].None? && g.lines[v].Some?;
    }
  }

  /** Disconnecting from the endpoint-1 side of a live wire, on a consistent
      circuit: the call returns normally, frees the wire's slot, sets both of
      its endpoint ports to -1, changes no other port, and keeps the circuit
      consistent. */
  lemma RemoveConnectionFromSecondEnd(g: Graph, id: int, port: Port)
    requires Consistent(g) && Live(g.elements, id) && port in g.elements[id].value.connections
    requires !Stale(g.lines, g.elements[id].value.connections[port])
    requires g.lines[g.elements[id].value.connections[port]].value.element0 != id
    ensures var v := g.elements[id].value.connections[port];
      var ch := AfterRemoveConnection(g, id, port);
      && ch.outcome == Done
      && ch.g.lines == g.lines[v := None]
      && (forall j, q :: Live(g.elements, j) && q in g.elements[j].value.connections ==>
            q in ch.g.elements[j].value.connections &&
            ch.g.elements[j].value.connections[q] ==
              if IsEnd(g.lines[v].value, j, q) then Unconnected else g.elements[j].value.connections[q])
      && Consistent(ch.g)
  {
    var es := g.elements;
    var v := es[id].value.connections[port];
    var line := g.lines[v].value;
    assert IsEnd(line, id, port);
    assert line.element1 == id && line.port1 == port;
    assert Holds(es, line.element0, line.port0, v);
    var es1 := WithConnection(es, id, port, Unconnected);
    var es2 := WithConnection(es1, line.element0, line.port0, Unconnected);
    assert SetConnection(es1, line.element0, line.port0, Unconnected) == Ok(es2);
    var g2 := Graph(es2, g.lines[v := None]);
    assert AfterRemoveConnection(g, id, port) == Change(g2, Done);
    ClearedEnds(g, v, id, port, line.element0, line.port0);
  }

  /** Disconnecting from the endpoint-0 side of a live wire raises
      UnboundLocalError: the given port is already -1, the wire stays in
      `lines`, and its other end still points at it. On a consistent circuit
      this leaves a live wire whose endpoint no longer points back. */
  lemma RemoveConnectionFromFirstEnd(g: Graph, id: int, port: Port)
    requires Live(g.elements, id) && port in g.elements[id].value.connections
    requires !Stale(g.lines, g.elements[id].value.connections[port])
    requires g.lines[g.elements[id].value.connections[port]].value.element0 == id
    ensures var ch := AfterRemoveConnection(g, id, port);
      && ch == Change(Graph(WithConnection(g.elements, id, port, Unconnected), g.lines), Raised(UnboundLocalError))
      && (Consistent(g) ==> !Linked(ch.g))
  {
    var v := g.elements[id].value.connections[port];
    var ch := AfterRemoveConnection(g, id, port);
    if Consistent(g) {
      var line := g.lines[v].value;
      assert IsEnd(line, id, port);
      assert v != Unconnected;
      if line.port0 == port {
        assert !Holds(ch.g.elements, line.element0, line.port0, v);
      } else {
        assert !Holds(ch.g.elements, line.element1, line.port1, v);
      }
    }
  }

  // ---------------------------------------------------------------------
  // remove_element and the Delete key

  /** No live wire was drawn starting from element `id` (its endpoint 0 is elsewhere). */
  predicate NeverFirst(lines: seq<Option<Line>>, id: int) {
    forall l :: 0 <= l < |lines| && lines[l].Some? ==> lines[l].value.element0 != id
  }

  /** One call of the cascade on a consistent circuit whose wires at `id` all
      end there: it returns normally, sets that port to -1 and no other port
      of `id`, frees only wires at `id`, and keeps the circuit consistent. */
  lemma DisconnectStep(g: Graph, id: int, port: Port)
    requires Consistent(g) && Live(g.elements, id) && port in g.elements[id].value.connections
    requires NeverFirst(g.lines, id)
    ensures var ch := AfterRemoveConnection(g, id, port);
      && ch.outcome == Done && Consistent(ch.g) && Live(ch.g.elements, id)
      && ch.g.elements[id].value.connections == g.elements[id].value.connections[port := Unconnected]
      && FreedOnlyAt(g.lines, ch.g.lines, id)
  {
    var es := g.elements;
    var v := es[id].value.connections[port];
    var ch := AfterRemoveConnection(g, id, port);
    if Stale(g.lines, v) {
      assert v == Unconnected;
      assert ch == Change(g, Done);
      assert es[id].value.connections[port := Unconnected] == es[id].value.connections;
    } else {
      RemoveConnectionFromSecondEnd(g, id, port);
      var line := g.lines[v].value;
      assert IsEnd(line, id, port) && line.element1 == id && line.element0 != id;
      var m := ch.g.elements[id].value.connections;
      assert m.Keys == PortSet(es[id].value.elementType) == es[id].value.connections.Keys;
      ClearedOnePort(es[id].value.connections, m, line, id, port);
      FreeOneAt(g.lines, v, id);
    }
  }

  /** remove_element on a live element of a consistent circuit, when none of
      its wires was drawn starting from it: the call returns normally, frees
      the slot and every wire at the element and no other wire, clears the
      selection, changes nothing but port values elsewhere, and keeps the
      circuit consistent. */
  lemma RemoveElementCascade(s: Editor, id: int)
    requires Sane(s) && Consistent(s.g) && Live(s.g.elements, id) && NeverFirst(s.g.lines, id)
    ensures var r := AfterRemoveElement(s, id);
      && r.outcome == Done
      && r.s == s.(g := r.s.g, selected := -1)
      && |r.s.g.elements| == |s.g.elements| && r.s.g.elements[id].None?
      && |r.s.g.lines| == |s.g.lines|
      && (forall j :: 0 <= j < |s.g.elements| && j != id ==> SameBody(s.g.elements[j], r.s.g.elements[j]))
      && (forall l :: 0 <= l < |s.g.lines| ==>
            r.s.g.lines[l] == if s.g.lines[l].Some? && Touches(s.g.lines[l].value, id) then None else s.g.lines[l])
      && Consistent(r.s.g)
  {
    var last := CascadePorts(s, id);
    FreeIsolated(last, id);
    var r := AfterRemoveElement(s, id);
    forall l | 0 <= l < |s.g.lines|
      ensures r.s.g.lines[l] == if s.g.lines[l].Some? && Touches(s.g.lines[l].value, id) then None else s.g.lines[l]
    {
    }
  }

  /** The disconnect calls of the cascade, on a consistent circuit whose
      wires at `id` all end there: all return normally, set exactly the given
      ports of `id` to -1, free only wires at `id`, and keep the circuit
      consistent. */
  lemma {:induction false} DisconnectAll(g: Graph, id: int, ports: seq<Port>)
    requires Consistent(g) && Live(g.elements, id) && NeverFirst(g.lines, id)
    requires forall p :: p in ports ==> p in g.elements[id].value.connections
    ensures var ch := Disconnect(g, id, ports);
      && ch.outcome == Done && Consistent(ch.g) && Live(ch.g.elements, id)
      && FreedOnlyAt(g.lines, ch.g.lines, id)
      && Unwired(g.elements[id].value, ch.g.elements[id].value, ports)
    decreases |ports|
  {
    if ports == [] {
      assert FreedOnlyAt(g.lines, g.lines, id);
    } else {
      var c := AfterRemoveConnection(g, id, ports[0]);
      DisconnectStep(g, id, ports[0]);
      var rest := Disconnect(c.g, id, ports[1..]);
      DisconnectAll(c.g, id, ports[1..]);
      FreedOnlyAtTrans(g.lines, c.g.lines, rest.g.lines, id);
      UnwiredCons(g.elements[id].value, c.g.elements[id].value, rest.g.elements[id].value, ports);
    }
  }

  /** The disconnecting part of the cascade: the graph `last` it reaches
      before the slot is freed has every port of `id` at -1. */
  lemma CascadePorts(s: Editor, id: int) returns (last: Graph)
    requires Sane(s) && Consistent(s.g) && Live(s.g.elements, id) && NeverFirst(s.g.lines, id)
    ensures Consistent(last) && Live(last.elements, id) && Isolated(last.elements[id].value)
    ensures AfterRemoveElement(s, id) == Step(s.(g := last.(elements := last.elements[id := None]), selected := -1), Done)
    ensures FreedOnlyAt(s.g.lines, last.lines, id) && OnlyWires(s.g.elements, last.elements)
  {
    var t := s.g.elements[id].value.elementType;
    var c1 := AfterRemoveConnection(s.g, id, O);
    DisconnectStep(s.g, id, O);
    var c2 := Disconnect(c1.g, id, InputPorts(t));
    DisconnectAll(c1.g, id, InputPorts(t));
    FreedOnlyAtTrans(s.g.lines, c1.g.lines, c2.g.lines, id);
    OnlyWiresTrans(s.g.elements, c1.g.elements, c2.g.elements);
    last := c2.g;
  }

  /** The Delete key with an element selected runs the cascade on it. */
  lemma DeleteKeyRemovesSelection(s: Editor)
    requires Sane(s) && Consistent(s.g) && s.selected > -1 && NeverFirst(s.g.lines, s.selected)
    ensures var r := AfterKeyPress(s, Delete);
      && r.outcome == Done && r.s.selected == -1
      && r.s.g.elements[s.selected].None? && Consistent(r.s.g)
  {
    RemoveElementCascade(s, s.selected);
  }

  /** remove_element raises when the element's 'o' port holds a wire drawn
      starting from it, after setting that port to -1 and leaving the wire in
      `lines`; the slot is not freed and the selection is kept. */
  lemma RemoveElementFirstEndRaises(s: Editor, id: int)
    requires Sane(s) && Live(s.g.elements, id) && O in s.g.elements[id].value.connections
    requires !Stale(s.g.lines, s.g.elements[id].value.connections[O])
    requires s.g.lines[s.g.elements[id].value.connections[O]].value.element0 == id
    ensures var r := AfterRemoveElement(s, id);
      && r.outcome == Raised(UnboundLocalError)
      && r.s == s.(g := Graph(WithConnection(s.g.elements, id, O, Unconnected), s.g.lines))
      && r.s.g.elements[id].Some?
  {
    RemoveConnectionFromFirstEnd(s.g, id, O);
  }

  /** Port `p` of live element `id` holds a live wire drawn starting from `id`. */
  predicate StartsAt(g: Graph, id: int, p: Port) {
    && Live(g.elements, id) && p in g.elements[id].value.connections
    && !Stale(g.lines, g.elements[id].value.connections[p])
    && g.lines[g.elements[id].value.connections[p]].value.element0 == id
  }

  /** On a consistent circuit, a cascade call on a port of `id` that holds
      no wire drawn from `id` returns normally, keeps the circuit consistent,
      and leaves alone the wire another port `w` of `id` starts. */
  lemma PassStep(g: Graph, id: int, port: Port, w: Port)
    requires Consistent(g) && Live(g.elements, id) && port in g.elements[id].value.connections
    requires !StartsAt(g, id, port) && StartsAt(g, id, w)
    ensures var ch := AfterRemoveConnection(g, id, port);
      ch.outcome == Done && Consistent(ch.g) && StartsAt(ch.g, id, w)
  {
    var conn := g.elements[id].value.connections;
    var v := conn[port];
    if !Stale(g.lines, v) {
      RemoveConnectionFromSecondEnd(g, id, port);
      var line := g.lines[v].value;
      var u := conn[w];
      assert g.lines[u].value.element0 == id && u != v;
      assert Holds(g.elements, line.element1, line.port1, v);
      assert !IsEnd(line, id, w);
    }
  }

  /** The cascade calls over `ports`, on a consistent circuit where one of
      them, `w`, holds a wire drawn from `id`: some call raises
      UnboundLocalError (at `w` at the latest), and the element stays. */
  lemma {:induction false} DisconnectHitsStart(g: Graph, id: int, ports: seq<Port>, w: Port)
    requires Consistent(g) && Live(g.elements, id)
    requires forall p :: p in ports ==> p in g.elements[id].value.connections
    requires w in ports && StartsAt(g, id, w)
    ensures var ch := Disconnect(g, id, ports);
      ch.outcome == Raised(UnboundLocalError) && Live(ch.g.elements, id)
    decreases |ports|
  {
    if StartsAt(g, id, ports[0]) {
      RemoveConnectionFromFirstEnd(g, id, ports[0]);
    } else {
      PassStep(g, id, ports[0], w);
      var c := AfterRemoveConnection(g, id, ports[0]);
      assert SameBody(g.elements[id], c.g.elements[id]);
      DisconnectHitsStart(c.g, id, ports[1..], w);
    }
  }

  /** remove_element on a live element of a consistent circuit raises
      UnboundLocalError whenever some live wire was drawn starting from it,
      whichever port that wire starts at: the slot is not freed and the
      selection is kept. */
  lemma RemoveElementStartRaises(s: Editor, id: int)
    requires Sane(s) && Consistent(s.g) && Live(s.g.elements, id) && !NeverFirst(s.g.lines, id)
    ensures var r := AfterRemoveElement(s, id);
      && r.outcome == Raised(UnboundLocalError)
      && r.s.g.elements[id].Some? && r.s.selected == s.selected
  {
    var l :| 0 <= l < |s.g.lines| && s.g.lines[l].Some? && s.g.lines[l].value.element0 == id;
    var w := s.g.lines[l].value.port0;
    assert Holds(s.g.elements, id, w, l);
    var t := s.g.elements[id].value.elementType;
    assert w in PortSet(t);
    if StartsAt(s.g, id, O) {
      RemoveConnectionFromFirstEnd(s.g, id, O);
    } else {
      PassStep(s.g, id, O, w);
      var c1 := AfterRemoveConnection(s.g, id, O);
      assert SameBody(s.g.elements[id], c1.g.elements[id]);
      assert w in InputPorts(t);
      DisconnectHitsStart(c1.g, id, InputPorts(t), w);
    }
  }

  // ---------------------------------------------------------------------
  // A press outside Ctrl mode

  /** The outer loop outside Ctrl mode stops at the first live element whose
      box contains the point and selects it. */
  lemma {:induction false} ScanSelects(s: Editor, i: nat, x: int, y: int)
    requires Sane(s) && !s.isCtrl && i <= |s.g.elements|
    ensures var h := FirstHit(s.g.elements, x, y, i);
      ElementScan(s, i, x, y) == if h == -1 then Scan(s, Done, false) else Scan(Choose(s, h), Done, true)
    decreases |s.g.elements| - i
  {
    if i < |s.g.elements| && !HitAt(s.g.elements, i, x, y) {
      ScanSelects(s, i + 1, x, y);
    }
  }

  /** A press outside Ctrl mode selects the lowest-index live element whose
      box contains the point, putting the previous selection back to DEFAULT
      and the new one to CHOOSING, and records the pointer's offset within
      it; a press that hits nothing clears the selection. No wire changes. */
  lemma PressOutsideCtrl(s: Editor, x: int, y: int)
    requires Sane(s) && !s.isCtrl
    ensures var r := AfterPress(s, x, y);
      var es := s.g.elements;
      var h := FirstHit(es, x, y, 0);
      && r.outcome == Done
      && r.s.g.lines == s.g.lines && r.s.isMousePressed && !r.s.isCtrl && r.s.newLine == s.newLine
      && (h == -1 ==>
            && (forall j :: 0 <= j < |es| ==> !HitAt(es, j, x, y))
            && r.s.selected == -1 && r.s.g.elements == Deselected(es, s.selected) && r.s.dpos == s.dpos)
      && (h != -1 ==>
            && HitAt(es, h, x, y) && (forall j :: 0 <= j < h ==> !HitAt(es, j, x, y))
            && r.s.selected == h
            && r.s.g.elements == WithState(Deselected(es, s.selected), h, Choosing)
            && r.s.dpos == Point(x - es[h].value.x, y - es[h].value.y))
  {
    ScanSelects(s.(isMousePressed := true), 0, x, y);
  }

  // ---------------------------------------------------------------------
  // A press in Ctrl mode

  lemma {:induction false} PortScanMiss(s: Editor, i: nat, ports: seq<Port>, x: int, y: int, found: bool, size: nat)
    requires Sane(s) && Live(s.g.elements, i) && |s.g.elements[i].value.connections| == size
    requires forall p :: p in ports ==> p in s.g.elements[i].value.connections
    requires forall p :: p in ports ==> !Near(ConnectionPoint(s.g.elements[i].value, p), x, y)
    ensures PortScan(s, i, ports, x, y, found, size) == Scan(s, Done, found)
    decreases |ports|
  {
    if ports != [] {
      PortScanMiss(s, i, ports[1..], x, y, found, size);
    }
  }

  /** When exactly one of the (distinct) ports of element `i` is within the
      window, the inner loop acts on that port and on nothing else. */
  lemma {:induction false} PortScanHit(s: Editor, i: nat, ports: seq<Port>, port: Port, x: int, y: int, found: bool, size: nat)
    requires Sane(s) && Live(s.g.elements, i) && |s.g.elements[i].value.connections| == size
    requires forall p :: p in ports ==> p in s.g.elements[i].value.connections
    requires forall a, b :: 0 <= a < b < |ports| ==> ports[a] != ports[b]
    requires port in ports && Near(ConnectionPoint(s.g.elements[i].value, port), x, y)
    requires forall p :: p in ports && p != port ==> !Near(ConnectionPoint(s.g.elements[i].value, p), x, y)
    ensures var c := CtrlClick(s, i, port); PortScan(s, i, ports, x, y, found, size) == Scan(c.s, Checked(c, i, size), true)
    decreases |ports|
  {
    if ports[0] == port {
      var c := CtrlClick(s, i, port);
      if Checked(c, i, size).Done? {
        var e, e2 := s.g.elements[i].value, c.s.g.elements[i].value;
        assert SameBody(s.g.elements[i], c.s.g.elements[i]);
        forall p | p in ports[1..] ensures p in e2.connections && !Near(ConnectionPoint(e2, p), x, y) {
          var k :| 0 <= k < |ports[1..]| && ports[1..][k] == p;
          assert ports[k + 1] == p && ports[0] != ports[k + 1];
          assert ConnectionPoint(e2, p) == ConnectionPoint(e, p);
        }
        PortScanMiss(c.s, i, ports[1..], x, y, true, size);
      }
    } else {
      PortScanHit(s, i, ports[1..], port, x, y, found, size);
    }
  }

  lemma {:induction false} CtrlScanMiss(s: Editor, i: nat, x: int, y: int)
    requires Sane(s) && s.isCtrl && i <= |s.g.elements|
    requires forall j :: i <= j < |s.g.elements| ==> NoPortNear(s.g.elements, j, x, y)
    ensures ElementScan(s, i, x, y) == Scan(s, Done, false)
    decreases |s.g.elements| - i
  {
    if i < |s.g.elements| {
      CtrlScanPast(s, i, x, y);
      CtrlScanMiss(s, i + 1, x, y);
    }
  }

  lemma {:induction false} CtrlScanHit(s: Editor, i: nat, h: nat, port: Port, x: int, y: int)
    requires Sane(s) && s.isCtrl && Typed(s.g) && AllShaped(s.g.elements)
    requires i <= h && Live(s.g.elements, h) && port in s.g.elements[h].value.connections
    requires Near(ConnectionPoint(s.g.elements[h].value, port), x, y)
    requires forall j :: i <= j < h ==> NoPortNear(s.g.elements, j, x, y)
    ensures var c := CtrlClick(s, h, port);
      ElementScan(s, i, x, y) == Scan(c.s, Checked(c, h, |s.g.elements[h].value.connections|), true)
    decreases h - i
  {
    if i < h {
      CtrlScanPast(s, i, x, y);
      CtrlScanHit(s, i + 1, h, port, x, y);
    } else {
      CtrlScanAt(s, h, port, x, y);
    }
  }

  /** The outer Ctrl-mode loop passes over a slot with no port within the window. */
  lemma CtrlScanPast(s: Editor, i: nat, x: int, y: int)
    requires Sane(s) && s.isCtrl && i < |s.g.elements| && NoPortNear(s.g.elements, i, x, y)
    ensures ElementScan(s, i, x, y) == ElementScan(s, i + 1, x, y)
  {
    if s.g.elements[i].Some? {
      PortsInKeys(s.g.elements[i].value);
      PortScanMiss(s, i, PortsIn(s.g.elements[i].value), x, y, false, |s.g.elements[i].value.connections|);
    }
  }

  /** The outer Ctrl-mode loop at an element with exactly one port within the window. */
  lemma CtrlScanAt(s: Editor, h: nat, port: Port, x: int, y: int)
    requires Sane(s) && s.isCtrl && Typed(s.g) && AllShaped(s.g.elements)
    requires Live(s.g.elements, h) && port in s.g.elements[h].value.connections
    requires Near(ConnectionPoint(s.g.elements[h].value, port), x, y)
    ensures var c := CtrlClick(s, h, port);
      ElementScan(s, h, x, y) == Scan(c.s, Checked(c, h, |s.g.elements[h].value.connections|), true)
  {
    var e := s.g.elements[h].value;
    PortsInKeys(e);
    PortsInDistinct(e);
    forall p | p in PortsIn(e) && p != port ensures !Near(ConnectionPoint(e, p), x, y) {
      PortsApart(e, port, p, x, y);
    }
    PortScanHit(s, h, PortsIn(e), port, x, y, false, |e.connections|);
  }

  /** A Ctrl-mode press whose first port within the window, in element
      order, is `port` of element `h` acts on that port alone (see CtrlClick),
      and then takes the grab offset of the selection, if any. Ports of one
      element are too far apart for two to be within the window at once. */
  lemma PressInCtrlOnPort(s: Editor, x: int, y: int, h: nat, port: Port)
    requires Sane(s) && s.isCtrl && Typed(s.g) && AllShaped(s.g.elements)
    requires Live(s.g.elements, h) && port in s.g.elements[h].value.connections
    requires Near(ConnectionPoint(s.g.elements[h].value, port), x, y)
    requires forall j :: 0 <= j < h ==> NoPortNear(s.g.elements, j, x, y)
    ensures var c := CtrlClick(s.(isMousePressed := true), h, port);
      var o := Checked(c, h, |s.g.elements[h].value.connections|);
      var r := AfterPress(s, x, y);
      r.outcome == o && r.s == if o.Raised? then c.s else Grab(c.s, x, y)
  {
    CtrlScanHit(s.(isMousePressed := true), 0, h, port, x, y);
  }

  /** A Ctrl-mode press with no port within the window changes nothing but
      the button flag and the grab offset; the selection is kept. */
  lemma PressInCtrlMiss(s: Editor, x: int, y: int)
    requires Sane(s) && s.isCtrl
    requires forall j :: 0 <= j < |s.g.elements| ==> NoPortNear(s.g.elements, j, x, y)
    ensures AfterPress(s, x, y) == Step(Grab(s.(isMousePressed := true), x, y), Done)
  {
    CtrlScanMiss(s.(isMousePressed := true), 0, x, y);
  }

  // ---------------------------------------------------------------------
  // The two-click wiring gesture

  /** With Ctrl held and no wire pending, a press on free port (a, p) makes
      it the pending first endpoint and changes no wire; a second press on
      free port (b, q) then adds the wire from (a, p) to (b, q) exactly as
      add_connection does, clears the pending wire, and keeps a consistent
      circuit consistent. */
  lemma TwoClickWiring(s: Editor, x1: int, y1: int, a: nat, p: Port, x2: int, y2: int, b: nat, q: Port)
    requires Sane(s) && s.isCtrl && s.newLine == NoPendingLine
    requires Consistent(s.g) && AllShaped(s.g.elements)
    requires FreePort(s.g.elements, a, p) && FirstPortAt(s.g.elements, a, p, x1, y1)
    requires FreePort(s.g.elements, b, q) && FirstPortAt(s.g.elements, b, q, x2, y2)
    ensures var r1 := AfterPress(s, x1, y1);
      && r1.outcome == Done && r1.s.g == s.g
      && r1.s.newLine == PendingLine(Some(a), Some(p), None, None)
      && var r2 := AfterPress(r1.s, x2, y2);
      && r2.outcome == Done && r2.s.newLine == NoPendingLine
      && r2.s.g == AfterAddConnection(s.g, a, p, b, q).g
      && Consistent(r2.s.g)
  {
    PressInCtrlOnPort(s, x1, y1, a, p);
    var s1 := AfterPress(s, x1, y1).s;
    PressInCtrlOnPort(s1, x2, y2, b, q);
    AddConnectionKeepsConsistent(s.g, a, p, b, q);
  }

  /** A Ctrl-mode press on free port `q` of element `b`, while the pending
      wire starts at `b` itself on a port `b` does not have (the slot has been
      reused by an element of another type since the first click), adds the
      wire. add_connection inserts that port into the dict the inner loop is
      walking, so the loop's next step raises RuntimeError. The wire stays
      added and the pending wire is cleared. */
  lemma PendingOnReusedSlotRaises(s: Editor, x: int, y: int, b: nat, q: Port)
    requires Sane(s) && s.isCtrl && Typed(s.g) && AllShaped(s.g.elements)
    requires FreePort(s.g.elements, b, q) && FirstPortAt(s.g.elements, b, q, x, y)
    requires s.newLine.id1 == Some(b) && s.newLine.port1.Some?
    requires s.newLine.port1.value !in s.g.elements[b].value.connections
    ensures var p := s.newLine.port1.value;
      var r := AfterPress(s, x, y);
      && r.outcome == Raised(RuntimeError) && r.s.newLine == NoPendingLine
      && r.s.g == AfterAddConnection(s.g, b, p, b, q).g
      && p in r.s.g.elements[b].value.connections
  {
    var p := s.newLine.port1.value;
    var conn := s.g.elements[b].value.connections;
    var l := FirstFree(s.g.lines);
    var es1 := WithConnection(s.g.elements, b, p, l);
    var es2 := WithConnection(es1, b, q, l);
    assert AfterAddConnection(s.g, b, p, b, q).g.elements == es2;
    assert es2[b].value.connections == conn[p := l][q := l];
    assert |conn[p := l]| == |conn| + 1;
    assert q in conn[p := l];
    PressInCtrlOnPort(s, x, y, b, q);
  }

  /** Releasing Ctrl between the two presses drops the pending endpoint and
      leaves the circuit as it was; pressing Ctrl again (as key repeat does)
      keeps it. */
  lemma AbandonedWire(s: Editor, x: int, y: int, a: nat, p: Port)
    requires Sane(s) && !s.isCtrl && s.newLine == NoPendingLine
    requires Typed(s.g) && AllShaped(s.g.elements)
    requires FreePort(s.g.elements, a, p) && FirstPortAt(s.g.elements, a, p, x, y)
    ensures var s1 := AfterKeyPress(s, Control).s;
      var s2 := AfterPress(s1, x, y).s;
      var s3 := AfterKeyPress(s2, Control).s;
      var s4 := AfterKeyRelease(s3, Control);
      && s3.newLine == PendingLine(Some(a), Some(p), None, None)
      && s4.newLine == NoPendingLine && !s4.isCtrl
      && s4.g == s.g && s4.selected == s.selected
  {
    var s1 := AfterKeyPress(s, Control).s;
    PressInCtrlOnPort(s1, x, y, a, p);
  }

  // ---------------------------------------------------------------------
  // Dragging

  /** After a press outside Ctrl mode lands on an element, a move with the
      button down puts that element where the pointer is less the grab
      offset, so the pointer stays at the same spot on the element. No wire
      and no other element moves. */
  lemma DragKeepsGrabOffset(s: Editor, x: int, y: int, x2: int, y2: int)
    requires Sane(s) && !s.isCtrl && FirstHit(s.g.elements, x, y, 0) != -1
    ensures var h := FirstHit(s.g.elements, x, y, 0);
      var e := s.g.elements[h].value;
      var s1 := AfterPress(s, x, y).s;
      var s2 := AfterMove(s1, x2, y2);
      && s2.selected == h && s2.g.lines == s.g.lines
      && x2 - s2.g.elements[h].value.x == x - e.x && y2 - s2.g.elements[h].value.y == y - e.y
      && |s2.g.elements| == |s.g.elements|
      && forall j :: 0 <= j < |s.g.elements| && j != h && s.g.elements[j].Some? ==>
           s2.g.elements[j].Some? && s2.g.elements[j].value.x == s.g.elements[j].value.x && s2.g.elements[j].value.y == s.g.elements[j].value.y
  {
    PressOutsideCtrl(s, x, y);
  }

  /** Once the button is released, moves change nothing. */
  lemma ReleaseEndsDrag(s: Editor, x: int, y: int)
    requires Sane(s)
    ensures AfterMove(AfterRelease(s), x, y) == AfterRelease(s)
  {
  }

  /** A wire is drawn the same whichever of its ends is endpoint 0: the
      route back is the route forth reversed. */
  lemma ElbowRouteSymmetric(x1: int, y1: int, x2: int, y2: int)
    ensures var ps := ElbowRoute(x1, y1, x2, y2);
      ElbowRoute(x2, y2, x1, y1) == [ps[3], ps[2], ps[1], ps[0]]
  {
  }

  // ---------------------------------------------------------------------
  // The example circuit under this revision

  /** The example circuit with element `sel` selected. */
  function ExampleWith(sel: int): Editor {
    Editor(Example().g, sel, Point(0, 0), false, false, NoPendingLine)
  }

  /** Deleting either input of the example raises UnboundLocalError: each
      input is endpoint 0 of its wire. The input stays, with its 'o' port
      at -1, while its wire stays live and the gate still points at it. */
  lemma ExampleDeleteInputRaises(id: int)
    requires id == 0 || id == 1
    ensures Sane(ExampleWith(id)) && |Example().g.elements| == 3
    ensures var r := AfterKeyPress(ExampleWith(id), Delete);
      && r.outcome == Raised(UnboundLocalError)
      && |r.s.g.elements| == 3 && r.s.g.elements[id].Some? && O in r.s.g.elements[id].value.connections && r.s.g.elements[id].value.connections[O] == Unconnected
      && r.s.g.lines == Example().g.lines
      && r.s.g.elements[2] == Example().g.elements[2]
      && !Linked(r.s.g)
  {
    ExampleBuilt();
    ExampleConsistent();
    RemoveElementFirstEndRaises(ExampleWith(id), id);
    RemoveConnectionFromFirstEnd(Example().g, id, O);
  }

  /** Deleting the gate of the example returns normally: both wires are
      freed, both inputs' outputs are back at -1, and the circuit stays
      consistent. */
  lemma ExampleDeleteGate()
    ensures Sane(ExampleWith(2))
    ensures var r := AfterKeyPress(ExampleWith(2), Delete);
      && r.outcome == Done && r.s.selected == -1
      && r.s.g.lines == [None, None] && |r.s.g.elements| == 3 && r.s.g.elements[2].None?
      && r.s.g.elements[0].Some? && O in r.s.g.elements[0].value.connections && r.s.g.elements[0].value.connections[O] == Unconnected
      && r.s.g.elements[1].Some? && O in r.s.g.elements[1].value.connections && r.s.g.elements[1].value.connections[O] == Unconnected
      && Consistent(r.s.g)
  {
    ExampleBuilt();
    ExampleConsistent();
    DeleteExampleGate(ExampleWith(2));
  }

  /** ExampleDeleteGate on any editor state holding the example circuit. */
  lemma DeleteExampleGate(s: Editor)
    requires Sane(s) && Consistent(s.g) && s.selected == 2
    requires s.g.elements == [
      Some(Element(60, 100, Default, map[O := 0], 30, 30, Input)),
      Some(Element(60, 200, Default, map[O := 1], 30, 30, Input)),
      Some(Element(250, 120, Default, map[I1 := 0, I2 := 1, O := Unconnected], 80, 80, And))]
    requires s.g.lines == [Some(Line(0, 2, O, I1, false)), Some(Line(1, 2, O, I2, false))]
    ensures var r := AfterKeyPress(s, Delete);
      && r.outcome == Done && r.s.selected == -1
      && r.s.g.lines == [None, None] && |r.s.g.elements| == 3 && r.s.g.elements[2].None?
      && r.s.g.elements[0].Some? && O in r.s.g.elements[0].value.connections && r.s.g.elements[0].value.connections[O] == Unconnected
      && r.s.g.elements[1].Some? && O in r.s.g.elements[1].value.connections && r.s.g.elements[1].value.connections[O] == Unconnected
      && Consistent(r.s.g)
  {
    assert NeverFirst(s.g.lines, 2) by {
      forall l | 0 <= l < |s.g.lines| && s.g.lines[l].Some? ensures s.g.lines[l].value.element0 != 2 {
        assert l == 0 || l == 1;
      }
    }
    forall l | 0 <= l < |s.g.lines| && s.g.lines[l].Some? ensures Touches(s.g.lines[l].value, 2) {
      assert l == 0 || l == 1;
    }
    DeleteHub(s, 2);
    var g2 := AfterKeyPress(s, Delete).s.g;
    assert SameBody(s.g.elements[0], g2.elements[0]) && SameBody(s.g.elements[1], g2.elements[1]);
    assert g2.lines[0].None? && g2.lines[1].None?;
    OutputsFreed(s.g.elements, g2);
  }

  /** Deleting the selected element when every live wire ends at it, and
      none starts at it, leaves no live wire and every element unconnected. */
  lemma DeleteHub(s: Editor, hub: int)
    requires Sane(s) && Consistent(s.g) && s.selected == hub && Live(s.g.elements, hub)
    requires NeverFirst(s.g.lines, hub)
    requires forall l :: 0 <= l < |s.g.lines| && s.g.lines[l].Some? ==> Touches(s.g.lines[l].value, hub)
    ensures var r := AfterKeyPress(s, Delete);
      && r.outcome == Done && r.s.selected == -1 && r.s.g.elements[hub].None?
      && |r.s.g.elements| == |s.g.elements| && |r.s.g.lines| == |s.g.lines|
      && (forall l :: 0 <= l < |r.s.g.lines| ==> r.s.g.lines[l].None?)
      && (forall id :: 0 <= id < |s.g.elements| && id != hub ==> SameBody(s.g.elements[id], r.s.g.elements[id]))
      && Consistent(r.s.g)
  {
    RemoveElementCascade(s, hub);
  }
}
