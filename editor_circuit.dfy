/** The later revision of the circuit widget (circuit_editor/circuit.py):
    the two slot lists, connect and disconnect, cascading element removal,
    and the mouse and keyboard handlers, with the two-click wiring gesture.

    Each operation is a pure function `After…` of the editor state, which
    follows the source statement by statement, including the exceptions it
    raises; the class `Circuit` holds the same state in fields and its
    methods, which carry the source's loops, are proved to produce exactly
    that new state. */
module EditorCircuit {
  import opened Python
  import opened Slots
  import opened Elements
  import opened Connectivity

  /** The `new_line` dict: (id1, port1) is the first endpoint of a wire being
      drawn; (id2, port2) is filled in just before add_connection is called. */
  datatype PendingLine = PendingLine(id1: Option<int>, port1: Option<Port>, id2: Option<int>, port2: Option<Port>)

  const NoPendingLine := PendingLine(None, None, None, None)

  /** Every field of the widget the core reads or writes. */
  datatype Editor = Editor(
    g: Graph,
    selected: int,          // selected_element, -1 for none
    dpos: Point,            // selected_element_dpos
    isCtrl: bool,
    isMousePressed: bool,
    newLine: PendingLine)

  /** The state after a call, and how the call ended. */
  datatype Step = Step(s: Editor, outcome: Outcome)

  /** The state reached by a press scan, how it ended, and whether it found a target (`is_find`). */
  datatype Scan = Scan(s: Editor, outcome: Outcome, found: bool)

  /** The state the widget starts in. */
  const Initial := Editor(Graph([], []), -1, Point(0, 0), false, false, NoPendingLine)

  /** What every state reached from `Initial` satisfies: the selection is -1
      or a live element, and id1 and port1 of `new_line` are set together. */
  predicate Sane(s: Editor) {
    SelectionLive(s.g.elements, s.selected) && (s.newLine.id1.Some? <==> s.newLine.port1.Some?)
  }

  /** `t` differs from `s` at most in port values and in `new_line`. */
  predicate Frame(s: Editor, t: Editor) {
    && t.selected == s.selected && t.dpos == s.dpos
    && t.isCtrl == s.isCtrl && t.isMousePressed == s.isMousePressed
    && OnlyWires(s.g.elements, t.g.elements)
  }

  // ---------------------------------------------------------------------
  // The graph operations

  /** remove_connection(element_id, port). Returns without a change when the
      element id is -1, too large or a freed slot, or when the port's wire id
      is negative, too large or a freed line; a missing port raises KeyError.
      Otherwise it clears the given port, then clears endpoint 0 of the wire
      and frees the wire's slot. When endpoint 0 is the element itself, the
      source's line 72 evaluates `elements[1]` and drops it, so the later read
      of `second_element_id` raises, after the given port was cleared. */
  function AfterRemoveConnection(g: Graph, elementId: int, port: Port): (ch: Change)
    ensures OnlyWires(g.elements, ch.g.elements) && |ch.g.lines| == |g.lines|
  {
    var es := g.elements;
    if elementId == -1 || elementId >= |es| then Change(g, Done)
    else match ListIndex(|es|, elementId)
      case None => Change(g, Raised(IndexError))
      case Some(k) =>
        if es[k].None? then Change(g, Done)
        else if port !in es[k].value.connections then Change(g, Raised(KeyError))
        else
          var lineId := es[k].value.connections[port];
          if lineId < 0 || lineId >= |g.lines| || g.lines[lineId].None? then Change(g, Done)
          else
            var line := g.lines[lineId].value;
            var es1 := WithConnection(es, k, port, Unconnected);
            if line.element0 == elementId then
              Change(Graph(es1, g.lines), Raised(UnboundLocalError))
            else
              match SetConnection(es1, line.element0, line.port0, Unconnected)
              case Err(e) => Change(Graph(es1, g.lines), Raised(e))
              case Ok(es2) => Change(Graph(es2, g.lines[lineId := None]), Done)
  }

  /** `self.elements[id] = None; self.selected_element = -1`. */
  function FreeSlot(s: Editor, g: Graph, id: int): (r: Step)
    requires Sane(s.(g := g))
    ensures Sane(r.s)
  {
    match ListIndex(|g.elements|, id)
    case None => Step(s.(g := g), Raised(IndexError))
    case Some(k) => Step(s.(g := g.(elements := g.elements[k := None]), selected := -1), Done)
  }

  /** The ports remove_element disconnects after 'o': 'i1' unless the element
      is an INPUT, then 'i2' unless it is an INPUT or a NOT. */
  function InputPorts(t: ElementType): (ps: seq<Port>)
    ensures forall p :: p in ps <==> p in PortSet(t) && p != O
  {
    match t
    case Input => []
    case Not => [I1]
    case _ => [I1, I2]
  }

  /** remove_connection(id, p) for each p of `ports` in turn, stopping at the first raise. */
  function Disconnect(g: Graph, id: int, ports: seq<Port>): (ch: Change)
    ensures OnlyWires(g.elements, ch.g.elements)
    decreases |ports|
  {
    if ports == [] then Change(g, Done)
    else
      var c := AfterRemoveConnection(g, id, ports[0]);
      if c.outcome.Raised? then c
      else
        var rest := Disconnect(c.g, id, ports[1..]);
        OnlyWiresTrans(g.elements, c.g.elements, rest.g.elements);
        rest
  }

  /** remove_element(id): disconnects 'o', then the element's input ports;
      frees the slot and clears the selection. Any raise stops it where it
      is. The source reads the element's type again before 'i2' (line 93);
      remove_connection never changes a type, so reading it once after 'o'
      is the same. */
  function AfterRemoveElement(s: Editor, id: int): (r: Step)
    requires Sane(s)
    ensures Sane(r.s)
  {
    var c1 := AfterRemoveConnection(s.g, id, O);
    SelectionKept(s.g.elements, c1.g.elements, s.selected);
    if c1.outcome.Raised? then Step(s.(g := c1.g), c1.outcome)
    else match ElementAt(c1.g.elements, id)
      case Err(e) => Step(s.(g := c1.g), Raised(e))
      case Ok(el) =>
        var c2 := Disconnect(c1.g, id, InputPorts(el.elementType));
        SelectionKept(c1.g.elements, c2.g.elements, s.selected);
        if c2.outcome.Raised? then Step(s.(g := c2.g), c2.outcome)
        else FreeSlot(s, c2.g, id)
  }

  /** The corner points of the wire draw_line strokes from (x1, y1) to
      (x2, y2): across to the middle column, along it, and across to the end.
      Python's `//` floors, as Dafny's `/` does for the divisor 2. */
  function ElbowRoute(x1: int, y1: int, x2: int, y2: int): (ps: seq<Point>)
    ensures |ps| == 4 && ps[0] == Point(x1, y1) && ps[3] == Point(x2, y2)
    ensures ps[0].y == ps[1].y && ps[1].x == ps[2].x && ps[2].y == ps[3].y
    ensures (x1 <= ps[1].x <= x2) || (x2 <= ps[1].x <= x1)
    ensures 0 <= (x1 + x2) - 2 * ps[1].x <= 1
  {
    var mid := (x1 + x2) / 2;
    [Point(x1, y1), Point(mid, y1), Point(mid, y2), Point(x2, y2)]
  }

  // ---------------------------------------------------------------------
  // The press handler

  /** What a Ctrl-mode press does to port `port` of element `i` once the port
      is within the click window: a connected port is disconnected; an
      unconnected one becomes the first endpoint of `new_line`, or, when one
      is pending, the second endpoint, and the wire is added and `new_line`
      cleared. */
  function CtrlClick(s: Editor, i: nat, port: Port): (r: Step)
    requires Sane(s) && Live(s.g.elements, i) && port in s.g.elements[i].value.connections
    ensures Sane(r.s) && Frame(s, r.s)
  {
    if s.g.elements[i].value.connections[port] != Unconnected then
      var ch := AfterRemoveConnection(s.g, i, port);
      Step(s.(g := ch.g), ch.outcome)
    else if s.newLine.id1.Some? then
      var pending := s.newLine.(id2 := Some(i), port2 := Some(port));
      var ch := AfterAddConnection(s.g, pending.id1.value, pending.port1.value, i, port);
      if ch.outcome.Raised? then Step(s.(g := ch.g, newLine := pending), ch.outcome)
      else Step(s.(g := ch.g, newLine := NoPendingLine), Done)
    else
      Step(s.(newLine := s.newLine.(id1 := Some(i), port1 := Some(port))), Done)
  }

  /** How the port loop goes on once its body has acted on a port of element
      `i`: a raise in the body ends it; otherwise the dict iterator's next
      step raises RuntimeError when `i`'s dict no longer has the `size` keys
      it had when the loop began. */
  function Checked(c: Step, i: nat, size: nat): (o: Outcome)
    ensures o.Raised? <==> c.outcome.Raised? || (Live(c.s.g.elements, i) && |c.s.g.elements[i].value.connections| != size)
    ensures o == c.outcome || (c.outcome == Done && o == Raised(RuntimeError))
  {
    if c.outcome.Done? && Live(c.s.g.elements, i) && |c.s.g.elements[i].value.connections| != size then Raised(RuntimeError)
    else c.outcome
  }

  /** The inner Ctrl-mode loop over the ports of element `i`, from `ports`
      on; `found` is `is_find` so far. It has no break: every port within the
      window is acted on, and a raise ends the whole handler.
      `size` is the number of keys the dict had when the loop began. */
  function PortScan(s: Editor, i: nat, ports: seq<Port>, x: int, y: int, found: bool, size: nat): (r: Scan)
    requires Sane(s) && Live(s.g.elements, i) && |s.g.elements[i].value.connections| == size
    requires forall p :: p in ports ==> p in s.g.elements[i].value.connections
    ensures Sane(r.s) && Frame(s, r.s)
    ensures r.outcome.Raised? ==> r.found
    ensures r.outcome.Done? ==> Live(r.s.g.elements, i) && |r.s.g.elements[i].value.connections| == size
    decreases |ports|
  {
    if ports == [] then Scan(s, Done, found)
    else if Near(ConnectionPoint(s.g.elements[i].value, ports[0]), x, y) then
      var st := CtrlClick(s, i, ports[0]);
      assert SameBody(s.g.elements[i], st.s.g.elements[i]);
      var o := Checked(st, i, size);
      if o.Raised? then Scan(st.s, o, true)
      else PortScan(st.s, i, ports[1..], x, y, true, size)
    else PortScan(s, i, ports[1..], x, y, found, size)
  }

  /** Live element `i` becomes the selection: the previous selection goes back
      to DEFAULT and `i` becomes CHOOSING. */
  function Choose(s: Editor, i: nat): (r: Editor)
    requires Sane(s) && Live(s.g.elements, i)
    ensures Sane(r)
  {
    s.(g := s.g.(elements := WithState(Deselected(s.g.elements, s.selected), i, Choosing)), selected := i)
  }

  /** The grab offset taken at the end of a press: the pointer relative to
      the selected element, when there is one. */
  function Grab(s: Editor, x: int, y: int): (r: Editor)
    requires Sane(s)
    ensures Sane(r) && r.(dpos := s.dpos) == s
  {
    if s.selected > -1 then
      s.(dpos := Point(x - s.g.elements[s.selected].value.x, y - s.g.elements[s.selected].value.y))
    else s
  }

  /** The outer loop of the press handler from slot `i` on: it skips freed
      slots and stops at the first element where something was found. */
  function ElementScan(s: Editor, i: nat, x: int, y: int): (r: Scan)
    requires Sane(s) && i <= |s.g.elements|
    ensures Sane(r.s) && |r.s.g.elements| == |s.g.elements|
    ensures r.s.isCtrl == s.isCtrl && r.s.isMousePressed == s.isMousePressed
    decreases |s.g.elements| - i
  {
    if i == |s.g.elements| then Scan(s, Done, false)
    else if s.g.elements[i].None? then ElementScan(s, i + 1, x, y)
    else if s.isCtrl then
      PortsInKeys(s.g.elements[i].value);
      var r := PortScan(s, i, PortsIn(s.g.elements[i].value), x, y, false, |s.g.elements[i].value.connections|);
      if r.found then r else ElementScan(r.s, i + 1, x, y)
    else if IsClicked(s.g.elements[i].value, x, y) then Scan(Choose(s, i), Done, true)
    else ElementScan(s, i + 1, x, y)
  }

  /** mousePressEvent at (x, y). */
  function AfterPress(s: Editor, x: int, y: int): (r: Step)
    requires Sane(s)
    ensures Sane(r.s)
  {
    var sc := ElementScan(s.(isMousePressed := true), 0, x, y);
    if sc.outcome.Raised? then Step(sc.s, sc.outcome)
    else
      var s1 := sc.s;
      // a press on empty space outside Ctrl mode clears the selection
      var s2 :=
        if !s.isCtrl && !sc.found then
          s1.(g := s1.g.(elements := Deselected(s1.g.elements, s1.selected)), selected := -1)
        else s1;
      Step(Grab(s2, x, y), Done)
  }

  // ---------------------------------------------------------------------
  // The other handlers

  /** mouseMoveEvent: drags the selection when the button is down and Ctrl is up. */
  function AfterMove(s: Editor, x: int, y: int): (r: Editor)
    requires Sane(s)
    ensures Sane(r)
  {
    if s.isMousePressed && !s.isCtrl && s.selected > -1 then
      s.(g := s.g.(elements := MovedTo(s.g.elements, s.selected, x - s.dpos.x, y - s.dpos.y)))
    else s
  }

  /** mouseReleaseEvent. */
  function AfterRelease(s: Editor): (r: Editor)
    ensures !r.isMousePressed && r.(isMousePressed := s.isMousePressed) == s
    ensures Sane(r) == Sane(s)
  {
    s.(isMousePressed := false)
  }

  /** keyPressEvent: Delete removes the selection, Control enters Ctrl mode. */
  function AfterKeyPress(s: Editor, key: Key): (r: Step)
    requires Sane(s)
    ensures Sane(r.s)
  {
    match key
    case Delete => if s.selected > -1 then AfterRemoveElement(s, s.selected) else Step(s, Done)
    case Control => Step(s.(isCtrl := true), Done)
    case OtherKey => Step(s, Done)
  }

  /** keyReleaseEvent: releasing Control leaves Ctrl mode and drops the pending wire. */
  function AfterKeyRelease(s: Editor, key: Key): (r: Editor)
    ensures key == Control ==> !r.isCtrl && r.newLine == NoPendingLine
    ensures r.(isCtrl := s.isCtrl, newLine := s.newLine) == s
    ensures key != Control ==> r == s
    ensures Sane(s) ==> Sane(r)
  {
    if key == Control then s.(newLine := NoPendingLine, isCtrl := false) else s
  }

  // ---------------------------------------------------------------------
  // The widget

  class Circuit {
    var elements: seq<Option<Element>>
    var lines: seq<Option<Line>>
    var selectedElement: int
    var selectedElementDpos: Point
    var isCtrl: bool
    var isMousePressed: bool
    var newLine: PendingLine

    function State(): Editor
      reads this
    {
      Editor(Graph(elements, lines), selectedElement, selectedElementDpos, isCtrl, isMousePressed, newLine)
    }

    ghost predicate Valid()
      reads this
    {
      Sane(State())
    }

    constructor ()
      ensures Valid() && State() == Initial
    {
      elements := [];
      lines := [];
      selectedElement := -1;
      selectedElementDpos := Point(0, 0);
      isCtrl := false;
      isMousePressed := false;
      newLine := NoPendingLine;
    }

    method AddConnection(id1: int, port1: Port, id2: int, port2: Port) returns (outcome: Outcome)
      modifies this`elements, this`lines
      ensures var ch := AfterAddConnection(old(Graph(elements, lines)), id1, port1, id2, port2);
        elements == ch.g.elements && lines == ch.g.lines && outcome == ch.outcome
    {
      var line := NewLine(id1, id2, port1, port2);
      var lineId := 0;
      var i, broke := 0, false;
      while i < |lines|
        invariant 0 <= i <= |lines| && lines == old(lines)
        invariant forall j :: 0 <= j < i ==> lines[j].Some?
      {
        if lines[i].None? {
          lines := lines[i := Some(line)];
          lineId := i;
          broke := true;
          break;
        }
        i := i + 1;
      }
      if !broke {
        // the for loop's else clause
        lineId := |lines|;
        lines := lines + [Some(line)];
      }
      FirstFreeUnique(old(lines), lineId);
      var r := SetConnection(elements, id1, port1, lineId);
      if r.Err? {
        return Raised(r.error);
      }
      elements := r.value;
      r := SetConnection(elements, id2, port2, lineId);
      if r.Err? {
        return Raised(r.error);
      }
      elements := r.value;
      return Done;
    }

    method RemoveConnection(elementId: int, port: Port) returns (outcome: Outcome)
      modifies this`elements, this`lines
      ensures var ch := AfterRemoveConnection(old(Graph(elements, lines)), elementId, port);
        elements == ch.g.elements && lines == ch.g.lines && outcome == ch.outcome
    {
      if elementId == -1 || elementId >= |elements| {
        return Done;
      }
      var k := ListIndex(|elements|, elementId);
      if k.None? {
        return Raised(IndexError);
      }
      if elements[k.value].None? {
        return Done;
      }
      if port !in elements[k.value].value.connections {
        return Raised(KeyError);
      }
      var lineId := elements[k.value].value.connections[port];
      if lineId < 0 || lineId >= |lines| || lines[lineId].None? {
        return Done;
      }
      var id := lines[lineId].value.element0;
      var secondElementPort := lines[lineId].value.port0;
      elements := WithConnection(elements, k.value, port, Unconnected);
      if id == elementId {
        // second_element_id was never bound
        return Raised(UnboundLocalError);
      }
      var r := SetConnection(elements, id, secondElementPort, Unconnected);
      if r.Err? {
        return Raised(r.error);
      }
      elements := r.value;
      lines := lines[lineId := None];
      return Done;
    }

    method AddElement(elementType: ElementType, x: int := 20, y: int := 20)
      requires Valid()
      modifies this`elements
      ensures Valid()
      ensures elements == Place(old(elements), NewElement(elementType, x, y))
    {
      var i, broke := 0, false;
      while i < |elements|
        invariant 0 <= i <= |elements| && elements == old(elements)
        invariant forall j :: 0 <= j < i ==> elements[j].Some?
      {
        if elements[i].None? {
          elements := elements[i := Some(NewElement(elementType, x, y))];
          broke := true;
          break;
        }
        i := i + 1;
      }
      if !broke {
        elements := elements + [Some(NewElement(elementType, x, y))];
      }
      FirstFreeUnique(old(elements), i);
    }

    method RemoveElement(id: int) returns (outcome: Outcome)
      requires Valid()
      modifies this`elements, this`lines, this`selectedElement
      ensures Valid()
      ensures var r := AfterRemoveElement(old(State()), id); State() == r.s && outcome == r.outcome
    {
      outcome := RemoveConnection(id, O);
      if outcome.Raised? {
        return;
      }
      var e := ElementAt(elements, id);
      if e.Err? {
        return Raised(e.error);
      }
      ghost var g1 := Graph(elements, lines);
      if e.value.elementType != Input {
        outcome := RemoveConnection(id, I1);
        if outcome.Raised? {
          return;
        }
        ghost var g2 := Graph(elements, lines);
        if e.value.elementType != Not {
          outcome := RemoveConnection(id, I2);
          assert [I1, I2][1..] == [I2];
          assert Disconnect(g1, id, [I1, I2]) == Disconnect(g2, id, [I2]);
          if outcome.Raised? {
            return;
          }
          assert [I2][1..] == [];
        } else {
          assert [I1][1..] == [];
        }
      }
      var k := ListIndex(|elements|, id);
      if k.None? {
        return Raised(IndexError);
      }
      elements := elements[k.value := None];
      selectedElement := -1;
      return Done;
    }

    method MouseReleaseEvent()
      requires Valid()
      modifies this`isMousePressed
      ensures Valid()
      ensures State() == AfterRelease(old(State()))
    {
      isMousePressed := false;
    }

    /** The body of the Ctrl-mode port loop for a port within the click window. */
    method ClickPort(i: nat, port: Port) returns (outcome: Outcome)
      requires Valid() && Live(elements, i) && port in elements[i].value.connections
      modifies this`elements, this`lines, this`newLine
      ensures var r := CtrlClick(old(State()), i, port); State() == r.s && outcome == r.outcome
    {
      if elements[i].value.connections[port] != Unconnected {
        outcome := RemoveConnection(i, port);
      } else if newLine.id1.Some? {
        newLine := newLine.(id2 := Some(i), port2 := Some(port));
        outcome := AddConnection(newLine.id1.value, newLine.port1.value, newLine.id2.value, newLine.port2.value);
        if outcome.Raised? {
          return;
        }
        newLine := NoPendingLine;
      } else {
        newLine := newLine.(id1 := Some(i), port1 := Some(port));
        outcome := Done;
      }
    }

    /** The Ctrl-mode loop over the ports of live element `i`. */
    method ScanPorts(i: nat, x: int, y: int) returns (outcome: Outcome, isFind: bool)
      requires Valid() && Live(elements, i)
      modifies this`elements, this`lines, this`newLine
      ensures var r := PortScan(old(State()), i, PortsIn(old(elements[i].value)), x, y, false, |old(elements[i].value.connections)|);
        State() == r.s && outcome == r.outcome && isFind == r.found
    {
      var ports := PortsIn(elements[i].value);
      var size := |elements[i].value.connections|;
      PortsInKeys(elements[i].value);
      ghost var goal := PortScan(State(), i, ports, x, y, false, size);
      isFind := false;
      var j := 0;
      while j < |ports|
        invariant 0 <= j <= |ports|
        invariant Valid() && Live(elements, i) && |elements[i].value.connections| == size
        invariant forall p :: p in ports ==> p in elements[i].value.connections
        invariant PortScan(State(), i, ports[j..], x, y, isFind, size) == goal
      {
        var port := ports[j];
        assert ports[j..][0] == port && ports[j..][1..] == ports[j + 1..];
        if Near(ConnectionPoint(elements[i].value, port), x, y) {
          outcome := ClickPort(i, port);
          isFind := true;
          if outcome.Raised? {
            return;
          }
          if |elements[i].value.connections| != size {
            // the dict iterator notices the change at its next step
            outcome := Raised(RuntimeError);
            return;
          }
        }
        j := j + 1;
      }
      outcome := Done;
    }

    /** Element `i` becomes the selection, CHOOSING; the previous one goes back to DEFAULT. */
    method ChooseElement(i: nat)
      requires Valid() && Live(elements, i)
      modifies this`elements, this`selectedElement
      ensures Valid() && State() == Choose(old(State()), i)
    {
      if selectedElement > -1 {
        elements := WithState(elements, selectedElement, Default);
      }
      selectedElement := i;
      elements := WithState(elements, i, Choosing);
    }

    method MousePressEvent(x: int, y: int) returns (outcome: Outcome)
      requires Valid()
      modifies this
      ensures Valid()
      ensures var r := AfterPress(old(State()), x, y); State() == r.s && outcome == r.outcome
    {
      isMousePressed := true;
      var isFind := false;
      ghost var goal := ElementScan(State(), 0, x, y);
      var n := |elements|;
      var i := 0;
      while i < n
        invariant 0 <= i <= n == |elements|
        invariant Valid() && isCtrl == old(isCtrl) && isMousePressed && !isFind
        invariant ElementScan(State(), i, x, y) == goal
      {
        if elements[i].Some? {
          if isCtrl {
            outcome, isFind := ScanPorts(i, x, y);
            if outcome.Raised? {
              return;
            }
          } else if IsClicked(elements[i].value, x, y) {
            ChooseElement(i);
            isFind := true;
          }
          if isFind {
            break;
          }
        }
        i := i + 1;
      }
      FinishPress(x, y, isFind);
      outcome := Done;
    }

    /** The end of a press that raised nothing: outside Ctrl mode a press
        that found nothing clears the selection; then the grab offset is taken. */
    method FinishPress(x: int, y: int, isFind: bool)
      requires Valid()
      modifies this`elements, this`selectedElement, this`selectedElementDpos
      ensures Valid()
      ensures var s1 := old(State());
        var s2 := if !s1.isCtrl && !isFind then s1.(g := s1.g.(elements := Deselected(s1.g.elements, s1.selected)), selected := -1) else s1;
        State() == Grab(s2, x, y)
    {
      // a press on empty space outside Ctrl mode clears the selection
      if !isCtrl && !isFind && selectedElement > -1 {
        elements := WithState(elements, selectedElement, Default);
        selectedElement := -1;
      }
      if selectedElement > -1 {
        selectedElementDpos := Point(x - elements[selectedElement].value.x, y - elements[selectedElement].value.y);
      }
    }

    method MouseMoveEvent(x: int, y: int)
      requires Valid()
      modifies this`elements
      ensures Valid() && State() == AfterMove(old(State()), x, y)
    {
      if isMousePressed && !isCtrl && selectedElement > -1 {
        var i := selectedElement;
        elements := MovedTo(elements, i, x - selectedElementDpos.x, y - selectedElementDpos.y);
      }
    }

    method KeyPressEvent(key: Key) returns (outcome: Outcome)
      requires Valid()
      modifies this`elements, this`lines, this`selectedElement, this`isCtrl
      ensures Valid()
      ensures var r := AfterKeyPress(old(State()), key); State() == r.s && outcome == r.outcome
    {
      outcome := Done;
      if key == Delete {
        if selectedElement > -1 {
          outcome := RemoveElement(selectedElement);
        }
      } else if key == Control {
        isCtrl := true;
      }
    }

    method KeyReleaseEvent(key: Key)
      requires Valid()
      modifies this`newLine, this`isCtrl
      ensures Valid() && State() == AfterKeyRelease(old(State()), key)
    {
      if key == Control {
        newLine := NoPendingLine;
        isCtrl := false;
      }
    }
  }
}
