/** What the earlier revision of the circuit widget (circuit.py) guarantees,
    and where it breaks: disconnecting works from either end of a wire, but
    an unconnected port makes remove_connection act on the last wire slot,
    and remove_element raises KeyError for every element type but the two
    two-input gates. */
module EarlyCircuitProofs {
  import opened Python
  import opened Slots
  import opened Elements
  import opened Connectivity
  import opened EarlyCircuit

  // ---------------------------------------------------------------------
  // remove_connection

  /** No live wire has both of its ends on element `id`. */
  predicate NoSelfLoop(lines: seq<Option<Line>>, id: int) {
    forall l :: 0 <= l < |lines| && lines[l].Some? ==> !(lines[l].value.element0 == id && lines[l].value.element1 == id)
  }

  /** Disconnecting a port that holds a live wire between two different
      elements, on a consistent circuit, from either end: the call returns
      normally, frees the wire's slot, sets both of its endpoint ports to -1,
      changes no other port, and keeps the circuit consistent. */
  lemma RemoveConnectionEitherEnd(g: Graph, id: int, port: Port)
    requires Consistent(g) && Live(g.elements, id) && port in g.elements[id].value.connections
    requires !Stale(g.lines, g.elements[id].value.connections[port])
    requires g.lines[g.elements[id].value.connections[port]].value.element0
          != g.lines[g.elements[id].value.connections[port]].value.element1
    ensures var v := g.elements[id].value.connections[port];
      var ch := AfterRemoveConnection(g, id, port);
      && ch.outcome == Done
      && ch.g.lines == g.lines[v := None]
      && (forall j, q :: Live(g.elements, j) && q in g.elements[j].value.connections ==>
            q in ch.g.elements[j].value.connections &&
            ch.g.elements[j].value.connections[q] ==
              if IsEnd(g.lines[v].value, j, q) then Unconnected else g.elements[j].value.connections[q])
      && Consistent(ch.g)
  {
    var es := g.elements;
    var v := es[id].value.connections[port];
    var line := g.lines[v].value;
    assert IsEnd(line, id, port);
    assert Holds(es, line.element0, line.port0, v) && Holds(es, line.element1, line.port1, v);
    if line.element0 != id {
      DisconnectBothEnds(g, id, port, line.element0, line.port0);
    } else {
      DisconnectBothEnds(g, id, port, line.element1, line.port1);
    }
  }

  /** remove_connection on live wire `v` whose other end it resolves to
      (other, otherPort), an end different from the caller's element. */
  lemma DisconnectBothEnds(g: Graph, id: int, port: Port, other: int, otherPort: Port)
    requires Consistent(g) && Live(g.elements, id) && port in g.elements[id].value.connections
    requires !Stale(g.lines, g.elements[id].value.connections[port])
    requires var line := g.lines[g.elements[id].value.connections[port]].value;
      && IsEnd(line, id, port) && IsEnd(line, other, otherPort) && other != id
      && other == (if line.element0 != id then line.element0 else line.element1)
      && otherPort == (if line.element0 != id then line.port0 else line.port1)
    requires Holds(g.elements, other, otherPort, g.elements[id].value.connections[port])
    ensures var v := g.elements[id].value.connections[port];
      var ch := AfterRemoveConnection(g, id, port);
      && ch.outcome == Done
      && ch.g.lines == g.lines[v := None]
      && (forall j, q :: Live(g.elements, j) && q in g.elements[j].value.connections ==>
            q in ch.g.elements[j].value.connections &&
            ch.g.elements[j].value.connections[q] ==
              if IsEnd(g.lines[v].value, j, q) then Unconnected else g.elements[j].value.connections[q])
      && Consistent(ch.g)
  {
    var es := g.elements;
    var v := es[id].value.connections[port];
    var es1 := WithConnection(es, id, port, Unconnected);
    var es2 := WithConnection(es1, other, otherPort, Unconnected);
    var g2 := Graph(es2, g.lines[v := None]);
    assert AfterRemoveConnection(g, id, port) == Change(g2, Done) by {
      assert SetConnection(es1, other, otherPort, Unconnected) == Ok(es2);
    }
    ClearedEnds(g, v, id, port, other, otherPort);
  }

  /** A port whose value is -1 is used as a list index: remove_connection
      on it frees the LAST wire slot when that wire is live. When that wire
      is not at the element, its endpoint-0 port is set to -1 while its
      endpoint-1 port still holds the freed slot: no circuit comes out of it
      consistent. */
  lemma UnconnectedPortFreesLastLine(g: Graph, id: int, port: Port)
    requires Linked(g) && Live(g.elements, id) && port in g.elements[id].value.connections
    requires g.elements[id].value.connections[port] == Unconnected
    requires |g.lines| > 0 && g.lines[|g.lines| - 1].Some?
    requires !Touches(g.lines[|g.lines| - 1].value, id)
    requires g.lines[|g.lines| - 1].value.element0 != g.lines[|g.lines| - 1].value.element1
    ensures var last := |g.lines| - 1;
      var ln := g.lines[last].value;
      var ch := AfterRemoveConnection(g, id, port);
      && ch.outcome == Done
      && ch.g.lines == g.lines[last := None]
      && Holds(ch.g.elements, ln.element0, ln.port0, Unconnected)
      && Holds(ch.g.elements, ln.element1, ln.port1, last)
      && !Backed(ch.g)
  {
    var ln := g.lines[|g.lines| - 1].value;
    assert Holds(g.elements, ln.element0, ln.port0, |g.lines| - 1);
    assert Holds(g.elements, ln.element1, ln.port1, |g.lines| - 1);
    LastLineFreed(g, id, port);
  }

  /** UnconnectedPortFreesLastLine, given only that the last wire's two ports hold it. */
  lemma LastLineFreed(g: Graph, id: int, port: Port)
    requires Live(g.elements, id) && port in g.elements[id].value.connections
    requires g.elements[id].value.connections[port] == Unconnected
    requires |g.lines| > 0 && g.lines[|g.lines| - 1].Some?
    requires !Touches(g.lines[|g.lines| - 1].value, id)
    requires g.lines[|g.lines| - 1].value.element0 != g.lines[|g.lines| - 1].value.element1
    requires var ln := g.lines[|g.lines| - 1].value;
      Holds(g.elements, ln.element0, ln.port0, |g.lines| - 1) && Holds(g.elements, ln.element1, ln.port1, |g.lines| - 1)
    ensures var last := |g.lines| - 1;
      var ln := g.lines[last].value;
      var ch := AfterRemoveConnection(g, id, port);
      && ch.outcome == Done
      && ch.g.lines == g.lines[last := None]
      && Holds(ch.g.elements, ln.element0, ln.port0, Unconnected)
      && Holds(ch.g.elements, ln.element1, ln.port1, last)
      && !Backed(ch.g)
  {
    var last := |g.lines| - 1;
    var ln := g.lines[last].value;
    var es1 := WithConnection(g.elements, id, port, Unconnected);
    var es2 := WithConnection(es1, ln.element0, ln.port0, Unconnected);
    assert SetConnection(es1, ln.element0, ln.port0, Unconnected) == Ok(es2);
    var ch := AfterRemoveConnection(g, id, port);
    assert ch == Change(Graph(es2, g.lines[last := None]), Done);
    assert Holds(es2, ln.element1, ln.port1, last);
    assert ch.g.lines[last].None?;
  }

  /** With no wire at all, remove_connection raises IndexError on any port of a live element. */
  lemma EmptyLinesRaises(g: Graph, id: int, port: Port)
    requires Live(g.elements, id) && port in g.elements[id].value.connections && g.lines == []
    ensures AfterRemoveConnection(g, id, port) == Change(g, Raised(IndexError))
  {
  }

  /** A wire from a port of element `id` back to another of its ports,
      disconnected from its endpoint-1 port: the other end is wrongly taken
      to be endpoint 1 again, so the wire is freed while its endpoint-0 port
      still holds it. */
  lemma SelfLoopFromSecondEnd(g: Graph, id: int, port: Port)
    requires Consistent(g) && Live(g.elements, id) && port in g.elements[id].value.connections
    requires !Stale(g.lines, g.elements[id].value.connections[port])
    requires var ln := g.lines[g.elements[id].value.connections[port]].value;
      ln.element0 == id && ln.element1 == id && ln.port1 == port && ln.port0 != port
    ensures var v := g.elements[id].value.connections[port];
      var ln := g.lines[v].value;
      var ch := AfterRemoveConnection(g, id, port);
      && ch.outcome == Done && ch.g.lines[v].None?
      && Holds(ch.g.elements, id, port, Unconnected)
      && Holds(ch.g.elements, id, ln.port0, v)
      && !Backed(ch.g)
  {
    var es := g.elements;
    var v := es[id].value.connections[port];
    var ln := g.lines[v].value;
    assert Holds(es, id, ln.port0, v);
    var es1 := WithConnection(es, id, port, Unconnected);
    var es2 := WithConnection(es1, id, port, Unconnected);
    assert SetConnection(es1, id, port, Unconnected) == Ok(es2);
    var ch := AfterRemoveConnection(g, id, port);
    assert ch == Change(Graph(es2, g.lines[v := None]), Done);
    assert Holds(es2, id, ln.port0, v);
  }

  /** On a linked circuit, remove_connection adds no port to any element. */
  lemma RemoveConnectionKeepsKeys(g: Graph, id: int, port: Port)
    requires Linked(g)
    ensures var ch := AfterRemoveConnection(g, id, port);
      forall j :: Live(g.elements, j) ==> ch.g.elements[j].value.connections.Keys == g.elements[j].value.connections.Keys
  {
    var es := g.elements;
    var ch := AfterRemoveConnection(g, id, port);
    if id != -1 && ListIndex(|es|, id).Some? {
      var k := ListIndex(|es|, id).value;
      if es[k].Some? && port in es[k].value.connections {
        var li := ListIndex(|g.lines|, es[k].value.connections[port]);
        if li.Some? && g.lines[li.value].Some? {
          var ln := g.lines[li.value].value;
          assert Holds(es, ln.element0, ln.port0, li.value) && Holds(es, ln.element1, ln.port1, li.value);
          var es1 := WithConnection(es, k, port, Unconnected);
          assert forall j :: Live(es, j) ==> es1[j].value.connections.Keys == es[j].value.connections.Keys;
        }
      }
    }
  }

  // ---------------------------------------------------------------------
  // remove_element

  /** Deleting an INPUT raises KeyError at once: it has no 'i1' port. Nothing changes. */
  lemma RemoveElementInputKeyError(s: Editor, id: int)
    requires Sane(s) && Typed(s.g) && Live(s.g.elements, id) && s.g.elements[id].value.elementType == Input
    ensures AfterRemoveElement(s, id) == Step(s, Raised(KeyError))
  {
    assert I1 !in PortSet(Input);
  }

  /** Deleting a NOT gate disconnects its 'i1' port and then raises KeyError
      on 'i2' (or raises in the 'i1' call already): the slot is never freed. */
  lemma RemoveElementNotKeyError(s: Editor, id: int)
    requires Sane(s) && Consistent(s.g) && Live(s.g.elements, id) && s.g.elements[id].value.elementType == Not
    ensures var c := AfterRemoveConnection(s.g, id, I1);
      var r := AfterRemoveElement(s, id);
      && r.s == s.(g := c.g)
      && r.outcome == (if c.outcome.Raised? then c.outcome else Raised(KeyError))
      && Live(r.s.g.elements, id)
  {
    var c := AfterRemoveConnection(s.g, id, I1);
    RemoveConnectionKeepsKeys(s.g, id, I1);
    assert SameBody(s.g.elements[id], c.g.elements[id]);
    assert I2 !in c.g.elements[id].value.connections;
  }

  /** A port remove_element can disconnect without harm: it holds a live
      wire, or it is -1 while the last wire slot is already free. */
  predicate Harmless(g: Graph, id: nat, p: Port)
    requires Live(g.elements, id) && p in g.elements[id].value.connections
  {
    var v := g.elements[id].value.connections[p];
    !Stale(g.lines, v) || (v == Unconnected && |g.lines| > 0 && g.lines[|g.lines| - 1].None?)
  }

  /** One disconnect call of the cascade on a harmless port of a consistent
      circuit with no wire from `id` to itself: it returns normally, sets
      that port to -1 and no other port of `id`, frees only wires at `id`,
      and keeps the circuit consistent and the other ports harmless. */
  lemma DisconnectStep(g: Graph, id: nat, port: Port)
    requires Consistent(g) && Live(g.elements, id) && port in g.elements[id].value.connections
    requires NoSelfLoop(g.lines, id) && Harmless(g, id, port)
    ensures var ch := AfterRemoveConnection(g, id, port);
      && ch.outcome == Done && Consistent(ch.g) && Live(ch.g.elements, id)
      && ch.g.elements[id].value.connections == g.elements[id].value.connections[port := Unconnected]
      && FreedOnlyAt(g.lines, ch.g.lines, id) && NoSelfLoop(ch.g.lines, id)
      && forall q :: q in g.elements[id].value.connections && q != port && Harmless(g, id, q) ==> Harmless(ch.g, id, q)
  {
    if Stale(g.lines, g.elements[id].value.connections[port]) {
      StepOnFreePort(g, id, port);
    } else {
      StepOnWire(g, id, port);
      HarmlessKept(g, AfterRemoveConnection(g, id, port).g, id, port);
    }
  }

  /** DisconnectStep on a port at -1 while the last wire slot is free: nothing happens. */
  lemma StepOnFreePort(g: Graph, id: nat, port: Port)
    requires Live(g.elements, id) && port in g.elements[id].value.connections
    requires g.elements[id].value.connections[port] == Unconnected && |g.lines| > 0 && g.lines[|g.lines| - 1].None?
    ensures AfterRemoveConnection(g, id, port) == Change(g, Done)
    ensures g.elements[id].value.connections[port := Unconnected] == g.elements[id].value.connections
    ensures FreedOnlyAt(g.lines, g.lines, id)
  {
  }

  /** DisconnectStep on a port holding a live wire. */
  lemma StepOnWire(g: Graph, id: nat, port: Port)
    requires Consistent(g) && Live(g.elements, id) && port in g.elements[id].value.connections
    requires NoSelfLoop(g.lines, id) && !Stale(g.lines, g.elements[id].value.connections[port])
    ensures var ch := AfterRemoveConnection(g, id, port);
      && ch.outcome == Done && Consistent(ch.g) && Live(ch.g.elements, id)
      && ch.g.elements[id].value.connections == g.elements[id].value.connections[port := Unconnected]
      && FreedOnlyAt(g.lines, ch.g.lines, id) && NoSelfLoop(ch.g.lines, id)
      && ch.g.lines == g.lines[g.elements[id].value.connections[port] := None]
  {
    var m := g.elements[id].value.connections;
    var v := m[port];
    var ch := AfterRemoveConnection(g, id, port);
    var line := g.lines[v].value;
    assert IsEnd(line, id, port) && Touches(line, id) by {
      assert Backed(g);
    }
    assert !(line.element0 == id && line.element1 == id);
    var m2 := ch.g.elements[id].value.connections;
    assert Consistent(ch.g) && Live(ch.g.elements, id) && ch.g.lines == g.lines[v := None]
      && m2 == m[port := Unconnected] by {
      RemoveConnectionEitherEnd(g, id, port);
      assert m2.Keys == PortSet(g.elements[id].value.elementType) == m.Keys;
      ClearedOnePort(m, m2, line, id, port);
    }
    FreeOneAt(g.lines, v, id);
    NoSelfLoopFreed(g.lines, ch.g.lines, id);
  }

  /** Freeing live wire `conns[port]` of element `id` keeps its other harmless ports harmless. */
  lemma HarmlessKept(g: Graph, g2: Graph, id: nat, port: Port)
    requires Backed(g) && Live(g.elements, id) && port in g.elements[id].value.connections
    requires !Stale(g.lines, g.elements[id].value.connections[port]) && NoSelfLoop(g.lines, id)
    requires g2.lines == g.lines[g.elements[id].value.connections[port] := None] && Live(g2.elements, id)
    requires g2.elements[id].value.connections == g.elements[id].value.connections[port := Unconnected]
    ensures forall q :: q in g.elements[id].value.connections && q != port && Harmless(g, id, q) ==> Harmless(g2, id, q)
  {
    var m := g.elements[id].value.connections;
    var v := m[port];
    assert IsEnd(g.lines[v].value, id, port);
    forall q | q in m && q != port && Harmless(g, id, q) ensures Harmless(g2, id, q) {
      if !Stale(g.lines, m[q]) {
        assert IsEnd(g.lines[m[q]].value, id, q);
        assert m[q] != v;
      }
    }
  }

  lemma NoSelfLoopFreed(lines: seq<Option<Line>>, lines2: seq<Option<Line>>, id: int)
    requires FreedOnlyAt(lines, lines2, id) && NoSelfLoop(lines, id)
    ensures NoSelfLoop(lines2, id)
  {
    forall l | 0 <= l < |lines2| && lines2[l].Some?
      ensures !(lines2[l].value.element0 == id && lines2[l].value.element1 == id)
    {
      assert lines2[l] == lines[l];
    }
  }

  /** The ports of `ports` are pairwise distinct. */
  predicate Distinct(ports: seq<Port>) {
    forall a, b :: 0 <= a < b < |ports| ==> ports[a] != ports[b]
  }

  /** The disconnect calls of the cascade over distinct harmless ports: all
      return normally, set exactly those ports of `id` to -1, free only wires
      at `id`, and keep the circuit consistent. */
  lemma {:induction false} DisconnectAll(g: Graph, id: nat, ports: seq<Port>)
    requires Consistent(g) && Live(g.elements, id) && NoSelfLoop(g.lines, id) && Distinct(ports)
    requires forall p :: p in ports ==> p in g.elements[id].value.connections && Harmless(g, id, p)
    ensures var ch := Disconnect(g, id, ports);
      && ch.outcome == Done && Consistent(ch.g) && Live(ch.g.elements, id)
      && FreedOnlyAt(g.lines, ch.g.lines, id)
      && Unwired(g.elements[id].value, ch.g.elements[id].value, ports)
    decreases |ports|
  {
    if ports == [] {
      assert FreedOnlyAt(g.lines, g.lines, id);
    } else {
      var c := AfterRemoveConnection(g, id, ports[0]);
      DisconnectStep(g, id, ports[0]);
      forall p | p in ports[1..] ensures p in c.g.elements[id].value.connections && Harmless(c.g, id, p) {
        var b :| 0 <= b < |ports[1..]| && ports[1..][b] == p;
        assert ports[b + 1] == p && p != ports[0];
      }
      var rest := Disconnect(c.g, id, ports[1..]);
      DisconnectAll(c.g, id, ports[1..]);
      FreedOnlyAtTrans(g.lines, c.g.lines, rest.g.lines, id);
      UnwiredCons(g.elements[id].value, c.g.elements[id].value, rest.g.elements[id].value, ports);
    }
  }

  /** remove_element on an AND or OR gate of a consistent circuit, with no
      wire from the gate to itself and every port harmless: the call returns
      normally, frees the slot and every wire at the gate and no other wire,
      clears the selection, changes nothing but port values elsewhere, and
      keeps the circuit consistent. */
  lemma GateCascade(s: Editor, id: nat)
    requires Sane(s) && Consistent(s.g) && Live(s.g.elements, id) && NoSelfLoop(s.g.lines, id)
    requires s.g.elements[id].value.elementType in {And, Or}
    requires forall p :: p in s.g.elements[id].value.connections ==> Harmless(s.g, id, p)
    ensures var r := AfterRemoveElement(s, id);
      && r.outcome == Done
      && r.s == s.(g := r.s.g, selected := -1)
      && |r.s.g.elements| == |s.g.elements| && r.s.g.elements[id].None?
      && |r.s.g.lines| == |s.g.lines|
      && (forall j :: 0 <= j < |s.g.elements| && j != id ==> SameBody(s.g.elements[j], r.s.g.elements[j]))
      && (forall l :: 0 <= l < |s.g.lines| ==>
            r.s.g.lines[l] == if s.g.lines[l].Some? && Touches(s.g.lines[l].value, id) then None else s.g.lines[l])
      && Consistent(r.s.g)
  {
    var last := CascadePorts(s, id);
    CascadeEnd(s, id, last);
  }

  /** remove_element that disconnected `id` down to the isolated element
      of `last`, freeing only wires at `id`, then freed its slot. */
  lemma CascadeEnd(s: Editor, id: nat, last: Graph)
    requires Sane(s) && Consistent(last) && Live(last.elements, id) && Isolated(last.elements[id].value)
    requires AfterRemoveElement(s, id) == Step(s.(g := last.(elements := last.elements[id := None]), selected := -1), Done)
    requires FreedOnlyAt(s.g.lines, last.lines, id) && OnlyWires(s.g.elements, last.elements)
    ensures var r := AfterRemoveElement(s, id);
      && r.outcome == Done
      && r.s == s.(g := r.s.g, selected := -1)
      && |r.s.g.elements| == |s.g.elements| && r.s.g.elements[id].None?
      && |r.s.g.lines| == |s.g.lines|
      && (forall j :: 0 <= j < |s.g.elements| && j != id ==> SameBody(s.g.elements[j], r.s.g.elements[j]))
      && (forall l :: 0 <= l < |s.g.lines| ==>
            r.s.g.lines[l] == if s.g.lines[l].Some? && Touches(s.g.lines[l].value, id) then None else s.g.lines[l])
      && Consistent(r.s.g)
  {
    FreeIsolated(last, id);
    var r := AfterRemoveElement(s, id);
    forall l | 0 <= l < |s.g.lines|
      ensures r.s.g.lines[l] == if s.g.lines[l].Some? && Touches(s.g.lines[l].value, id) then None else s.g.lines[l]
    {
    }
  }

  /** The disconnecting part of the gate cascade, up to the graph `last`
      reached before the slot is freed. */
  lemma CascadePorts(s: Editor, id: nat) returns (last: Graph)
    requires Sane(s) && Consistent(s.g) && Live(s.g.elements, id) && NoSelfLoop(s.g.lines, id)
    requires s.g.elements[id].value.elementType in {And, Or}
    requires forall p :: p in s.g.elements[id].value.connections ==> Harmless(s.g, id, p)
    ensures Consistent(last) && Live(last.elements, id) && Isolated(last.elements[id].value)
    ensures AfterRemoveElement(s, id) == Step(s.(g := last.(elements := last.elements[id := None]), selected := -1), Done)
    ensures FreedOnlyAt(s.g.lines, last.lines, id) && OnlyWires(s.g.elements, last.elements)
  {
    var e := s.g.elements[id].value;
    assert e.connections.Keys == {I1, I2, O};
    assert Distinct(AllPorts);
    DisconnectAll(s.g, id, AllPorts);
    last := Disconnect(s.g, id, AllPorts).g;
  }

  /** An AND or OR gate both of whose inputs hold live wires while its
      output is -1, and whose last wire slot is free or one of those two. */
  predicate FedGate(g: Graph, id: nat) {
    && Live(g.elements, id) && g.elements[id].value.elementType in {And, Or}
    && var m := g.elements[id].value.connections;
    && I1 in m && I2 in m && O in m
    && !Stale(g.lines, m[I1]) && !Stale(g.lines, m[I2]) && m[O] == Unconnected
    && (m[I1] == |g.lines| - 1 || m[I2] == |g.lines| - 1 || g.lines[|g.lines| - 1].None?)
  }

  /** remove_element on a fed gate whose output is unconnected: the 'o'
      call reads the last wire slot, which the 'i1' and 'i2' calls have
      already freed, so the call returns normally, frees the slot and the
      two input wires and no other wire, and keeps the circuit consistent. */
  lemma FedGateCascade(s: Editor, id: nat)
    requires Sane(s) && Consistent(s.g) && NoSelfLoop(s.g.lines, id) && FedGate(s.g, id)
    ensures var r := AfterRemoveElement(s, id);
      && r.outcome == Done
      && r.s == s.(g := r.s.g, selected := -1)
      && |r.s.g.elements| == |s.g.elements| && r.s.g.elements[id].None?
      && |r.s.g.lines| == |s.g.lines|
      && (forall j :: 0 <= j < |s.g.elements| && j != id ==> SameBody(s.g.elements[j], r.s.g.elements[j]))
      && (forall l :: 0 <= l < |s.g.lines| ==>
            r.s.g.lines[l] == if s.g.lines[l].Some? && Touches(s.g.lines[l].value, id) then None else s.g.lines[l])
      && Consistent(r.s.g)
  {
    var last := FedGatePorts(s, id);
    CascadeEnd(s, id, last);
  }

  /** The disconnecting part of FedGateCascade, up to the graph `last`
      reached before the slot is freed. */
  lemma FedGatePorts(s: Editor, id: nat) returns (last: Graph)
    requires Sane(s) && Consistent(s.g) && NoSelfLoop(s.g.lines, id) && FedGate(s.g, id)
    ensures Consistent(last) && Live(last.elements, id) && Isolated(last.elements[id].value)
    ensures AfterRemoveElement(s, id) == Step(s.(g := last.(elements := last.elements[id := None]), selected := -1), Done)
    ensures FreedOnlyAt(s.g.lines, last.lines, id) && OnlyWires(s.g.elements, last.elements)
  {
    last := FedGateInputs(s.g, id);
    OutputStep(s.g, last, id);
    RemoveElementWhenDisconnected(s, id, last);
  }

  /** The 'o' call after the 'i1' and 'i2' calls of a fed gate returns normally and changes nothing. */
  lemma OutputStep(g: Graph, c2: Graph, id: nat)
    requires Disconnect(g, id, [I1, I2]) == Change(c2, Done)
    requires Live(c2.elements, id) && Holds(c2.elements, id, O, Unconnected)
    requires |c2.lines| > 0 && c2.lines[|c2.lines| - 1].None?
    ensures Disconnect(g, id, AllPorts) == Change(c2, Done)
  {
    StepOnFreePort(c2, id, O);
    InputsThenOutput(g, id);
    assert Disconnect(c2, id, [O]) == Change(c2, Done) by {
      assert [O][1..] == [];
    }
  }

  /** remove_element when its three calls return normally, reaching `c`. */
  lemma RemoveElementWhenDisconnected(s: Editor, id: nat, c: Graph)
    requires Sane(s) && Disconnect(s.g, id, AllPorts) == Change(c, Done) && Live(c.elements, id)
    ensures AfterRemoveElement(s, id) == Step(s.(g := c.(elements := c.elements[id := None]), selected := -1), Done)
  {
  }

  /** remove_element's calls are the 'i1' and 'i2' calls, then, unless one raised, the 'o' call. */
  lemma InputsThenOutput(g: Graph, id: int)
    ensures var c := Disconnect(g, id, [I1, I2]);
      Disconnect(g, id, AllPorts) == if c.outcome.Raised? then c else Disconnect(c.g, id, [O])
  {
    DisconnectAppend(g, id, [I1, I2], [O]);
    assert [I1, I2] + [O] == AllPorts;
  }

  /** The 'i1' and 'i2' calls on a fed gate: both return normally, and
      they leave the gate's ports at -1 and its last wire slot free. */
  lemma FedGateInputs(g: Graph, id: nat) returns (c2: Graph)
    requires Consistent(g) && NoSelfLoop(g.lines, id) && FedGate(g, id)
    ensures Disconnect(g, id, [I1, I2]) == Change(c2, Done)
    ensures Consistent(c2) && Live(c2.elements, id) && Isolated(c2.elements[id].value)
    ensures O in c2.elements[id].value.connections && |c2.lines| > 0 && c2.lines[|c2.lines| - 1].None?
    ensures FreedOnlyAt(g.lines, c2.lines, id) && OnlyWires(g.elements, c2.elements)
  {
    c2 := FedGateUnwired(g, id);
    FedGateLastSlot(g, c2, id);
  }

  /** The 'i1' and 'i2' calls on a fed gate return normally and set both ports to -1. */
  lemma FedGateUnwired(g: Graph, id: nat) returns (c2: Graph)
    requires Consistent(g) && NoSelfLoop(g.lines, id) && FedGate(g, id)
    ensures Disconnect(g, id, [I1, I2]) == Change(c2, Done)
    ensures Consistent(c2) && Live(c2.elements, id) && Isolated(c2.elements[id].value)
    ensures Holds(c2.elements, id, I1, Unconnected) && Holds(c2.elements, id, I2, Unconnected)
    ensures O in c2.elements[id].value.connections
    ensures FreedOnlyAt(g.lines, c2.lines, id) && OnlyWires(g.elements, c2.elements)
  {
    var e := g.elements[id].value;
    assert Distinct([I1, I2]);
    DisconnectAll(g, id, [I1, I2]);
    c2 := Disconnect(g, id, [I1, I2]).g;
    assert e.connections.Keys == PortSet(e.elementType);
    InputsCleared(e, c2.elements[id].value);
  }

  /** After the 'i1' and 'i2' calls on a fed gate, the last wire slot is free. */
  lemma FedGateLastSlot(g: Graph, c2: Graph, id: nat)
    requires Backed(g) && Linked(c2) && FedGate(g, id) && FreedOnlyAt(g.lines, c2.lines, id)
    requires Holds(c2.elements, id, I1, Unconnected) && Holds(c2.elements, id, I2, Unconnected)
    ensures |c2.lines| > 0 && c2.lines[|c2.lines| - 1].None?
  {
    var m := g.elements[id].value.connections;
    var n := |g.lines| - 1;
    assert |c2.lines| == |g.lines| > 0;
    if m[I1] == n {
      FreedWhenUnheld(g, c2, id, I1);
    } else if m[I2] == n {
      FreedWhenUnheld(g, c2, id, I2);
    }
  }

  /** A port of `id` that held live wire `v` and holds -1 afterwards, with
      only wires at `id` freed in between, leaves `v` free in a linked result. */
  lemma FreedWhenUnheld(g: Graph, g2: Graph, id: nat, p: Port)
    requires Backed(g) && Linked(g2) && Live(g.elements, id) && p in g.elements[id].value.connections
    requires !Stale(g.lines, g.elements[id].value.connections[p])
    requires FreedOnlyAt(g.lines, g2.lines, id) && Holds(g2.elements, id, p, Unconnected)
    ensures g2.lines[g.elements[id].value.connections[p]].None?
  {
    var v := g.elements[id].value.connections[p];
    var ln := g.lines[v].value;
    assert IsEnd(ln, id, p) && !Holds(g2.elements, id, p, v);
    assert g2.lines[v] == g.lines[v] || g2.lines[v].None?;
  }

  /** The disconnect calls over `ps + qs` are those over `ps`, then, unless one raised, those over `qs`. */
  lemma {:induction false} DisconnectAppend(g: Graph, id: int, ps: seq<Port>, qs: seq<Port>)
    ensures var c := Disconnect(g, id, ps);
      Disconnect(g, id, ps + qs) == if c.outcome.Raised? then c else Disconnect(c.g, id, qs)
    decreases |ps|
  {
    if ps == [] {
      assert ps + qs == qs;
    } else {
      assert (ps + qs)[0] == ps[0] && (ps + qs)[1..] == ps[1..] + qs;
      var c := AfterRemoveConnection(g, id, ps[0]);
      if c.outcome.Done? {
        DisconnectAppend(c.g, id, ps[1..], qs);
      }
    }
  }

  /** A gate whose output is -1 is isolated once both inputs are set to -1. */
  lemma InputsCleared(gate: Element, e: Element)
    requires gate.elementType in {And, Or} && gate.connections.Keys == PortSet(gate.elementType)
    requires O in gate.connections && gate.connections[O] == Unconnected
    requires Unwired(gate, e, [I1, I2])
    ensures I1 in e.connections && e.connections[I1] == Unconnected
    ensures I2 in e.connections && e.connections[I2] == Unconnected
    ensures Isolated(e)
  {
    assert gate.connections.Keys == {I1, I2, O};
  }

  /** The Delete key with a gate selected runs the cascade on it. */
  lemma DeleteKeyRemovesGate(s: Editor)
    requires Sane(s) && Consistent(s.g) && s.selected > -1 && NoSelfLoop(s.g.lines, s.selected)
    requires s.g.elements[s.selected].value.elementType in {And, Or}
    requires forall p :: p in s.g.elements[s.selected].value.connections ==> Harmless(s.g, s.selected, p)
    ensures var r := AfterKeyPress(s, Delete);
      && r.outcome == Done && r.s.selected == -1
      && r.s.g.elements[s.selected].None? && Consistent(r.s.g)
  {
    GateCascade(s, s.selected);
  }

  // ---------------------------------------------------------------------
  // A press outside Ctrl mode

  lemma {:induction false} ScanSelects(s: Editor, i: nat, x: int, y: int)
    requires Sane(s) && !s.isCtrl && i <= |s.g.elements|
    ensures var h := FirstHit(s.g.elements, x, y, i);
      ElementScan(s, i, x, y) == if h == -1 then Scan(s, Done, false) else Scan(Choose(s, h), Done, true)
    decreases |s.g.elements| - i
  {
    if i < |s.g.elements| && !HitAt(s.g.elements, i, x, y) {
      ScanSelects(s, i + 1, x, y);
    }
  }

  /** A press outside Ctrl mode selects the lowest-index live element whose
      box contains the point (DEFAULT for the previous selection, CHOOSING
      for the new one) and records the pointer's offset within it; a press
      that hits nothing clears the selection. No wire changes. */
  lemma PressOutsideCtrl(s: Editor, x: int, y: int)
    requires Sane(s) && !s.isCtrl
    ensures var r := AfterPress(s, x, y);
      var es := s.g.elements;
      var h := FirstHit(es, x, y, 0);
      && r.outcome == Done
      && r.s.g.lines == s.g.lines && r.s.isMousePressed && !r.s.isCtrl
      && (h == -1 ==>
            && (forall j :: 0 <= j < |es| ==> !HitAt(es, j, x, y))
            && r.s.selected == -1 && r.s.g.elements == Deselected(es, s.selected) && r.s.dpos == s.dpos)
      && (h != -1 ==>
            && HitAt(es, h, x, y) && (forall j :: 0 <= j < h ==> !HitAt(es, j, x, y))
            && r.s.selected == h
            && r.s.g.elements == WithState(Deselected(es, s.selected), h, Choosing)
            && r.s.dpos == Point(x - es[h].value.x, y - es[h].value.y))
  {
    ScanSelects(s.(isMousePressed := true), 0, x, y);
  }

  /** After a press outside Ctrl mode lands on an element, a move with the
      button down keeps the pointer at the same spot on that element; no
      wire and no other element moves. */
  lemma DragKeepsGrabOffset(s: Editor, x: int, y: int, x2: int, y2: int)
    requires Sane(s) && !s.isCtrl && FirstHit(s.g.elements, x, y, 0) != -1
    ensures var h := FirstHit(s.g.elements, x, y, 0);
      var e := s.g.elements[h].value;
      var s1 := AfterPress(s, x, y).s;
      var s2 := AfterMove(s1, x2, y2);
      && s2.selected == h && s2.g.lines == s.g.lines
      && x2 - s2.g.elements[h].value.x == x - e.x && y2 - s2.g.elements[h].value.y == y - e.y
      && |s2.g.elements| == |s.g.elements|
      && forall j :: 0 <= j < |s.g.elements| && j != h && s.g.elements[j].Some? ==>
           s2.g.elements[j].Some? && s2.g.elements[j].value.x == s.g.elements[j].value.x && s2.g.elements[j].value.y == s.g.elements[j].value.y
  {
    PressOutsideCtrl(s, x, y);
  }

  // ---------------------------------------------------------------------
  // A press in Ctrl mode

  lemma {:induction false} PortScanMiss(s: Editor, i: nat, ports: seq<Port>, x: int, y: int, found: bool, size: nat)
    requires Sane(s) && Live(s.g.elements, i) && |s.g.elements[i].value.connections| == size
    requires forall p :: p in ports ==> p in s.g.elements[i].value.connections
    requires forall p :: p in ports ==> !Near(ConnectionPoint(s.g.elements[i].value, p), x, y)
    ensures PortScan(s, i, ports, x, y, found, size) == Scan(s, Done, found)
    decreases |ports|
  {
    if ports != [] {
      PortScanMiss(s, i, ports[1..], x, y, found, size);
    }
  }

  /** When exactly one of the distinct ports of element `i` is within the
      window, the inner loop acts on that port and on nothing else. */
  lemma {:induction false} PortScanHit(s: Editor, i: nat, ports: seq<Port>, port: Port, x: int, y: int, found: bool, size: nat)
    requires Sane(s) && Live(s.g.elements, i) && |s.g.elements[i].value.connections| == size
    requires forall p :: p in ports ==> p in s.g.elements[i].value.connections
    requires Distinct(ports)
    requires port in ports && Near(ConnectionPoint(s.g.elements[i].value, port), x, y)
    requires forall p :: p in ports && p != port ==> !Near(ConnectionPoint(s.g.elements[i].value, p), x, y)
    ensures var c := CtrlClick(s, i, port); PortScan(s, i, ports, x, y, found, size) == Scan(c.s, Checked(c, i, size), true)
    decreases |ports|
  {
    if ports[0] == port {
      var c := CtrlClick(s, i, port);
      if Checked(c, i, size).Done? {
        var e, e2 := s.g.elements[i].value, c.s.g.elements[i].value;
        assert SameBody(s.g.elements[i], c.s.g.elements[i]);
        forall p | p in ports[1..] ensures p in e2.connections && !Near(ConnectionPoint(e2, p), x, y) {
          var k :| 0 <= k < |ports[1..]| && ports[1..][k] == p;
          assert ports[k + 1] == p && ports[0] != ports[k + 1];
          assert ConnectionPoint(e2, p) == ConnectionPoint(e, p);
        }
        PortScanMiss(c.s, i, ports[1..], x, y, true, size);
      }
    } else {
      PortScanHit(s, i, ports[1..], port, x, y, found, size);
    }
  }

  lemma {:induction false} CtrlScanHit(s: Editor, i: nat, h: nat, port: Port, x: int, y: int)
    requires Sane(s) && s.isCtrl && Typed(s.g) && AllShaped(s.g.elements)
    requires i <= h && Live(s.g.elements, h) && port in s.g.elements[h].value.connections
    requires Near(ConnectionPoint(s.g.elements[h].value, port), x, y)
    requires forall j :: i <= j < h ==> NoPortNear(s.g.elements, j, x, y)
    ensures var c := CtrlClick(s, h, port);
      ElementScan(s, i, x, y) == Scan(c.s, Checked(c, h, |s.g.elements[h].value.connections|), true)
    decreases h - i
  {
    if i < h {
      CtrlScanPast(s, i, x, y);
      CtrlScanHit(s, i + 1, h, port, x, y);
    } else {
      CtrlScanAt(s, h, port, x, y);
    }
  }

  /** The outer Ctrl-mode loop passes over a slot with no port within the window. */
  lemma CtrlScanPast(s: Editor, i: nat, x: int, y: int)
    requires Sane(s) && s.isCtrl && i < |s.g.elements| && NoPortNear(s.g.elements, i, x, y)
    ensures ElementScan(s, i, x, y) == ElementScan(s, i + 1, x, y)
  {
    if s.g.elements[i].Some? {
      PortsInKeys(s.g.elements[i].value);
      PortScanMiss(s, i, PortsIn(s.g.elements[i].value), x, y, false, |s.g.elements[i].value.connections|);
    }
  }

  /** The outer Ctrl-mode loop at an element with exactly one port within the window. */
  lemma CtrlScanAt(s: Editor, h: nat, port: Port, x: int, y: int)
    requires Sane(s) && s.isCtrl && Typed(s.g) && AllShaped(s.g.elements)
    requires Live(s.g.elements, h) && port in s.g.elements[h].value.connections
    requires Near(ConnectionPoint(s.g.elements[h].value, port), x, y)
    ensures var c := CtrlClick(s, h, port);
      ElementScan(s, h, x, y) == Scan(c.s, Checked(c, h, |s.g.elements[h].value.connections|), true)
  {
    var e := s.g.elements[h].value;
    PortsInKeys(e);
    PortsInDistinct(e);
    forall p | p in PortsIn(e) && p != port ensures !Near(ConnectionPoint(e, p), x, y) {
      PortsApart(e, port, p, x, y);
    }
    PortScanHit(s, h, PortsIn(e), port, x, y, false, |e.connections|);
  }

  /** A Ctrl-mode press whose first port within the window, in element
      order, is `port` of element `a` acts on that port alone (see
      CtrlClick), then takes the grab offset of the selection, if any. */
  lemma PressInCtrlOnPort(s: Editor, x: int, y: int, a: nat, port: Port)
    requires Sane(s) && s.isCtrl && Typed(s.g) && AllShaped(s.g.elements)
    requires FirstPortAt(s.g.elements, a, port, x, y)
    ensures var c := CtrlClick(s.(isMousePressed := true), a, port);
      var o := Checked(c, a, |s.g.elements[a].value.connections|);
      var r := AfterPress(s, x, y);
      r.outcome == o && r.s == if o.Raised? then c.s else Grab(c.s, x, y)
  {
    CtrlScanHit(s.(isMousePressed := true), 0, a, port, x, y);
  }

  /** A Ctrl-mode press on a free port changes no wire: this revision has
      no way to draw a wire with the mouse. */
  lemma PressInCtrlOnFreePort(s: Editor, x: int, y: int, a: nat, port: Port)
    requires Sane(s) && s.isCtrl && Typed(s.g) && AllShaped(s.g.elements)
    requires FreePort(s.g.elements, a, port) && FirstPortAt(s.g.elements, a, port, x, y)
    ensures AfterPress(s, x, y) == Step(Grab(s.(isMousePressed := true), x, y), Done)
  {
    PressInCtrlOnPort(s, x, y, a, port);
  }

  /** A Ctrl-mode press on a port holding a wire between two different
      elements of a consistent circuit frees that wire and keeps the
      circuit consistent. */
  lemma PressInCtrlOnWire(s: Editor, x: int, y: int, a: nat, port: Port)
    requires Sane(s) && s.isCtrl && Consistent(s.g) && AllShaped(s.g.elements)
    requires FirstPortAt(s.g.elements, a, port, x, y)
    requires !Stale(s.g.lines, s.g.elements[a].value.connections[port])
    requires s.g.lines[s.g.elements[a].value.connections[port]].value.element0
          != s.g.lines[s.g.elements[a].value.connections[port]].value.element1
    ensures var v := s.g.elements[a].value.connections[port];
      var r := AfterPress(s, x, y);
      && r.outcome == Done && r.s.g.lines == s.g.lines[v := None]
      && r.s.selected == s.selected && Consistent(r.s.g)
  {
    PressInCtrlOnPort(s, x, y, a, port);
    RemoveConnectionEitherEnd(s.g, a, port);
  }

  // ---------------------------------------------------------------------
  // The example circuit the constructor builds

  /** Deleting either input of the example raises KeyError and changes nothing. */
  lemma ExampleDeleteInputRaises(id: int)
    requires id == 0 || id == 1
    ensures var s := Initial().(selected := id);
      AfterKeyPress(s, Delete) == Step(s, Raised(KeyError))
  {
    ExampleBuilt();
    ExampleConsistent();
    RemoveElementInputKeyError(Initial().(selected := id), id);
  }

  /** Deleting the gate of the example returns normally: 'i1' and 'i2' free
      both wires, and 'o', at -1, then reads the last wire slot, which is
      already free. Both inputs' outputs are back at -1 and the circuit
      stays consistent. */
  lemma ExampleDeleteGate()
    ensures Sane(Initial().(selected := 2))
    ensures var r := AfterKeyPress(Initial().(selected := 2), Delete);
      && r.outcome == Done && r.s.selected == -1
      && r.s.g.lines == [None, None] && |r.s.g.elements| == 3 && r.s.g.elements[2].None?
      && r.s.g.elements[0].Some? && O in r.s.g.elements[0].value.connections && r.s.g.elements[0].value.connections[O] == Unconnected
      && r.s.g.elements[1].Some? && O in r.s.g.elements[1].value.connections && r.s.g.elements[1].value.connections[O] == Unconnected
      && Consistent(r.s.g)
  {
    ExampleBuilt();
    ExampleConsistent();
    DeleteExampleGate(Initial().(selected := 2));
  }

  /** ExampleDeleteGate on any editor state holding the example circuit. */
  lemma DeleteExampleGate(s: Editor)
    requires Consistent(s.g) && s.selected == 2
    requires s.g.elements == [
      Some(Element(60, 100, Default, map[O := 0], 30, 30, Input)),
      Some(Element(60, 200, Default, map[O := 1], 30, 30, Input)),
      Some(Element(250, 120, Default, map[I1 := 0, I2 := 1, O := Unconnected], 80, 80, And))]
    requires s.g.lines == [Some(Line(0, 2, O, I1, false)), Some(Line(1, 2, O, I2, false))]
    ensures var r := AfterKeyPress(s, Delete);
      && r.outcome == Done && r.s.selected == -1
      && r.s.g.lines == [None, None] && |r.s.g.elements| == 3 && r.s.g.elements[2].None?
      && r.s.g.elements[0].Some? && O in r.s.g.elements[0].value.connections && r.s.g.elements[0].value.connections[O] == Unconnected
      && r.s.g.elements[1].Some? && O in r.s.g.elements[1].value.connections && r.s.g.elements[1].value.connections[O] == Unconnected
      && Consistent(r.s.g)
  {
    var g := s.g;
    assert NoSelfLoop(g.lines, 2) by {
      forall l | 0 <= l < |g.lines| && g.lines[l].Some? ensures !(g.lines[l].value.element0 == 2 && g.lines[l].value.element1 == 2) {
        assert l == 0 || l == 1;
      }
    }
    assert FedGate(g, 2);
    FedGateCascade(s, 2);
    var g2 := AfterRemoveElement(s, 2).s.g;
    assert g2.lines[0].None? && g2.lines[1].None?;
    assert SameBody(g.elements[0], g2.elements[0]) && SameBody(g.elements[1], g2.elements[1]);
    OutputsFreed(g.elements, g2);
  }
}
