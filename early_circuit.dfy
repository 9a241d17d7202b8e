/** The earlier revision of the circuit widget (circuit.py): the same two
    slot lists and add_connection, a different remove_connection and
    remove_element, a constructor that builds the example circuit, and
    handlers in which a Ctrl-press on a free port only reports it.

    As for the later revision, each operation is a pure function `After…`
    of the editor state that follows the source statement by statement,
    and the methods of the class `Circuit` are proved to produce it. */
module EarlyCircuit {
  import opened Python
  import opened Slots
  import opened Elements
  import opened Connectivity

  /** Every field of the widget the core reads or writes (there is no pending wire here). */
  datatype Editor = Editor(
    g: Graph,
    selected: int,          // selected_element, -1 for none
    dpos: Point,            // selected_element_dpos
    isCtrl: bool,
    isMousePressed: bool)

  datatype Step = Step(s: Editor, outcome: Outcome)

  datatype Scan = Scan(s: Editor, outcome: Outcome, found: bool)

  /** The state the constructor leaves: the example circuit, nothing selected. */
  function Initial(): (r: Editor)
    ensures Sane(r) && Consistent(r.g) && r.selected == -1
    ensures !r.isCtrl && !r.isMousePressed
    ensures |r.g.elements| == 3 && |r.g.lines| == 2
    ensures forall id :: 0 <= id < 3 ==> Live(r.g.elements, id) && r.g.elements[id].value.state == Default
  {
    ExampleBuilt();
    ExampleConsistent();
    Editor(Example().g, -1, Point(0, 0), false, false)
  }

  /** The selection is -1 or a live element. */
  predicate Sane(s: Editor) {
    SelectionLive(s.g.elements, s.selected)
  }

  /** `t` differs from `s` at most in port values. */
  predicate Frame(s: Editor, t: Editor) {
    && t.selected == s.selected && t.dpos == s.dpos
    && t.isCtrl == s.isCtrl && t.isMousePressed == s.isMousePressed
    && OnlyWires(s.g.elements, t.g.elements)
  }

  // ---------------------------------------------------------------------
  // The graph operations

  /** remove_connection(element_id, port). Only -1 and freed slots are
      skipped: an element id out of range raises IndexError, and the port's
      wire id indexes `lines` as Python does, so -1 (an unconnected port)
      reads the last wire, and raises IndexError when `lines` is empty. The
      other end is endpoint 0 unless endpoint 0 is the element itself, in
      which case it is endpoint 1. */
  function AfterRemoveConnection(g: Graph, elementId: int, port: Port): (ch: Change)
    ensures OnlyWires(g.elements, ch.g.elements) && |ch.g.lines| == |g.lines|
  {
    var es := g.elements;
    if elementId == -1 then Change(g, Done)
    else match ListIndex(|es|, elementId)
      case None => Change(g, Raised(IndexError))
      case Some(k) =>
        if es[k].None? then Change(g, Done)
        else if port !in es[k].value.connections then Change(g, Raised(KeyError))
        else match ListIndex(|g.lines|, es[k].value.connections[port])
          case None => Change(g, Raised(IndexError))
          case Some(li) =>
            if g.lines[li].None? then Change(g, Done)
            else
              var line := g.lines[li].value;
              var other := if line.element0 != elementId then line.element0 else line.element1;
              var otherPort := if line.element0 != elementId then line.port0 else line.port1;
              var es1 := WithConnection(es, k, port, Unconnected);
              match SetConnection(es1, other, otherPort, Unconnected)
              case Err(e) => Change(Graph(es1, g.lines), Raised(e))
              case Ok(es2) => Change(Graph(es2, g.lines[li := None]), Done)
  }

  /** remove_connection(id, p) for each p of `ports` in turn, stopping at the first raise. */
  function Disconnect(g: Graph, id: int, ports: seq<Port>): (ch: Change)
    ensures OnlyWires(g.elements, ch.g.elements)
    decreases |ports|
  {
    if ports == [] then Change(g, Done)
    else
      var c := AfterRemoveConnection(g, id, ports[0]);
      if c.outcome.Raised? then c
      else
        var rest := Disconnect(c.g, id, ports[1..]);
        OnlyWiresTrans(g.elements, c.g.elements, rest.g.elements);
        rest
  }

  /** The ports remove_element disconnects, whatever the element's type. */
  const AllPorts: seq<Port> := [I1, I2, O]

  /** remove_element(id): disconnects 'i1', 'i2' and 'o', then frees the
      slot and clears the selection. Any raise stops it where it is. */
  function AfterRemoveElement(s: Editor, id: int): (r: Step)
    requires Sane(s)
    ensures Sane(r.s)
  {
    var c := Disconnect(s.g, id, AllPorts);
    SelectionKept(s.g.elements, c.g.elements, s.selected);
    if c.outcome.Raised? then Step(s.(g := c.g), c.outcome)
    else match ListIndex(|c.g.elements|, id)
      case None => Step(s.(g := c.g), Raised(IndexError))
      case Some(k) => Step(s.(g := c.g.(elements := c.g.elements[k := None]), selected := -1), Done)
  }

  // ---------------------------------------------------------------------
  // The press handler

  /** What a Ctrl-mode press does to port `port` of element `i` once the
      port is within the click window: a connected port is disconnected; an
      unconnected one is only reported on the console. */
  function CtrlClick(s: Editor, i: nat, port: Port): (r: Step)
    requires Sane(s) && Live(s.g.elements, i) && port in s.g.elements[i].value.connections
    ensures Sane(r.s) && Frame(s, r.s)
  {
    if s.g.elements[i].value.connections[port] != Unconnected then
      var ch := AfterRemoveConnection(s.g, i, port);
      SelectionKept(s.g.elements, ch.g.elements, s.selected);
      Step(s.(g := ch.g), ch.outcome)
    else Step(s, Done)
  }

  /** How the port loop goes on once its body has acted on a port of element
      `i`: a raise in the body ends it; otherwise the dict iterator's next
      step raises RuntimeError when `i`'s dict no longer has the `size` keys
      it had when the loop began. */
  function Checked(c: Step, i: nat, size: nat): (o: Outcome)
    ensures o.Raised? <==> c.outcome.Raised? || (Live(c.s.g.elements, i) && |c.s.g.elements[i].value.connections| != size)
    ensures o == c.outcome || (c.outcome == Done && o == Raised(RuntimeError))
  {
    if c.outcome.Done? && Live(c.s.g.elements, i) && |c.s.g.elements[i].value.connections| != size then Raised(RuntimeError)
    else c.outcome
  }

  /** The inner Ctrl-mode loop over the ports of element `i`, from `ports` on.
      `size` is the number of keys the dict had when the loop began. */
  function PortScan(s: Editor, i: nat, ports: seq<Port>, x: int, y: int, found: bool, size: nat): (r: Scan)
    requires Sane(s) && Live(s.g.elements, i) && |s.g.elements[i].value.connections| == size
    requires forall p :: p in ports ==> p in s.g.elements[i].value.connections
    ensures Sane(r.s) && Frame(s, r.s)
    ensures r.outcome.Raised? ==> r.found
    ensures r.outcome.Done? ==> Live(r.s.g.elements, i) && |r.s.g.elements[i].value.connections| == size
    decreases |ports|
  {
    if ports == [] then Scan(s, Done, found)
    else if Near(ConnectionPoint(s.g.elements[i].value, ports[0]), x, y) then
      var st := CtrlClick(s, i, ports[0]);
      assert SameBody(s.g.elements[i], st.s.g.elements[i]);
      var o := Checked(st, i, size);
      if o.Raised? then Scan(st.s, o, true)
      else PortScan(st.s, i, ports[1..], x, y, true, size)
    else PortScan(s, i, ports[1..], x, y, found, size)
  }

  /** Live element `i` becomes the selection, CHOOSING; the previous one goes back to DEFAULT. */
  function Choose(s: Editor, i: nat): (r: Editor)
    requires Sane(s) && Live(s.g.elements, i)
    ensures Sane(r)
  {
    s.(g := s.g.(elements := WithState(Deselected(s.g.elements, s.selected), i, Choosing)), selected := i)
  }

  /** The grab offset of the pointer within the selected element, if any. */
  function Grab(s: Editor, x: int, y: int): (r: Editor)
    requires Sane(s)
    ensures Sane(r) && r.(dpos := s.dpos) == s
  {
    if s.selected > -1 then
      s.(dpos := Point(x - s.g.elements[s.selected].value.x, y - s.g.elements[s.selected].value.y))
    else s
  }

  /** The outer loop of the press handler from slot `i` on. */
  function ElementScan(s: Editor, i: nat, x: int, y: int): (r: Scan)
    requires Sane(s) && i <= |s.g.elements|
    ensures Sane(r.s) && |r.s.g.elements| == |s.g.elements|
    ensures r.s.isCtrl == s.isCtrl && r.s.isMousePressed == s.isMousePressed
    decreases |s.g.elements| - i
  {
    if i == |s.g.elements| then Scan(s, Done, false)
    else if s.g.elements[i].None? then ElementScan(s, i + 1, x, y)
    else if s.isCtrl then
      PortsInKeys(s.g.elements[i].value);
      var r := PortScan(s, i, PortsIn(s.g.elements[i].value), x, y, false, |s.g.elements[i].value.connections|);
      if r.found then r else ElementScan(r.s, i + 1, x, y)
    else if IsClicked(s.g.elements[i].value, x, y) then Scan(Choose(s, i), Done, true)
    else ElementScan(s, i + 1, x, y)
  }

  /** mousePressEvent at (x, y). */
  function AfterPress(s: Editor, x: int, y: int): (r: Step)
    requires Sane(s)
    ensures Sane(r.s)
  {
    var sc := ElementScan(s.(isMousePressed := true), 0, x, y);
    if sc.outcome.Raised? then Step(sc.s, sc.outcome)
    else
      var s1 := sc.s;
      var s2 :=
        if !s.isCtrl && !sc.found then
          s1.(g := s1.g.(elements := Deselected(s1.g.elements, s1.selected)), selected := -1)
        else s1;
      Step(Grab(s2, x, y), Done)
  }

  // ---------------------------------------------------------------------
  // The other handlers

  /** mouseMoveEvent: drags the selection when the button is down and Ctrl is up. */
  function AfterMove(s: Editor, x: int, y: int): (r: Editor)
    requires Sane(s)
    ensures Sane(r)
  {
    if s.isMousePressed && !s.isCtrl && s.selected > -1 then
      s.(g := s.g.(elements := MovedTo(s.g.elements, s.selected, x - s.dpos.x, y - s.dpos.y)))
    else s
  }

  function AfterRelease(s: Editor): (r: Editor)
    ensures !r.isMousePressed && r.(isMousePressed := s.isMousePressed) == s
    ensures Sane(r) == Sane(s)
  {
    s.(isMousePressed := false)
  }

  /** keyPressEvent: Delete removes the selection, Control enters Ctrl mode. */
  function AfterKeyPress(s: Editor, key: Key): (r: Step)
    requires Sane(s)
    ensures Sane(r.s)
  {
    match key
    case Delete => if s.selected > -1 then AfterRemoveElement(s, s.selected) else Step(s, Done)
    case Control => Step(s.(isCtrl := true), Done)
    case OtherKey => Step(s, Done)
  }

  /** keyReleaseEvent: releasing Control leaves Ctrl mode. */
  function AfterKeyRelease(s: Editor, key: Key): (r: Editor)
    ensures key == Control ==> !r.isCtrl
    ensures r.(isCtrl := s.isCtrl) == s
    ensures key != Control ==> r == s
    ensures Sane(r) == Sane(s)
  {
    if key == Control then s.(isCtrl := false) else s
  }

  // ---------------------------------------------------------------------
  // The widget

  class Circuit {
    var elements: seq<Option<Element>>
    var lines: seq<Option<Line>>
    var selectedElement: int
    var selectedElementDpos: Point
    var isCtrl: bool
    var isMousePressed: bool

    function State(): Editor
      reads this
    {
      Editor(Graph(elements, lines), selectedElement, selectedElementDpos, isCtrl, isMousePressed)
    }

    ghost predicate Valid()
      reads this
    {
      Sane(State())
    }

    /** Builds the example circuit with the class's own operations. */
    constructor ()
      ensures Valid() && State() == Initial()
    {
      elements := [];
      lines := [];
      selectedElement := -1;
      selectedElementDpos := Point(0, 0);
      isCtrl := false;
      isMousePressed := false;
      new;
      BuildExample();
    }

    /** The constructor's add_element and add_connection calls on the empty circuit. */
    method BuildExample()
      requires Valid() && elements == [] && lines == []
      modifies this`elements, this`lines
      ensures Graph(elements, lines) == Example().g
    {
      AddElement(Input, 60, 100);
      ghost var es1 := elements;
      AddElement(Input, 60, 200);
      ghost var es2 := elements;
      AddElement(And, 250, 120);
      ghost var g := Graph(elements, lines);
      var outcome := AddConnection(0, O, 2, I1);
      ghost var c1 := Change(Graph(elements, lines), outcome);
      if outcome.Done? {
        outcome := AddConnection(1, O, 2, I2);
      }
      ExampleUnfolded(es1, es2, g, c1, Change(Graph(elements, lines), outcome));
    }

    method AddConnection(id1: int, port1: Port, id2: int, port2: Port) returns (outcome: Outcome)
      modifies this`elements, this`lines
      ensures var ch := AfterAddConnection(old(Graph(elements, lines)), id1, port1, id2, port2);
        elements == ch.g.elements && lines == ch.g.lines && outcome == ch.outcome
    {
      var isAdded := false;
      var line := NewLine(id1, id2, port1, port2);
      var lineId := |lines|;
      var i := 0;
      while i < |lines|
        invariant 0 <= i <= |lines| && lines == old(lines) && !isAdded
        invariant forall j :: 0 <= j < i ==> lines[j].Some?
      {
        if lines[i].None? {
          lines := lines[i := Some(line)];
          lineId := i;
          isAdded := true;
          break;
        }
        i := i + 1;
      }
      if !isAdded {
        lines := lines + [Some(line)];
      }
      FirstFreeUnique(old(lines), lineId);
      var r := SetConnection(elements, id1, port1, lineId);
      if r.Err? {
        return Raised(r.error);
      }
      elements := r.value;
      r := SetConnection(elements, id2, port2, lineId);
      if r.Err? {
        return Raised(r.error);
      }
      elements := r.value;
      return Done;
    }

    method RemoveConnection(elementId: int, port: Port) returns (outcome: Outcome)
      modifies this`elements, this`lines
      ensures var ch := AfterRemoveConnection(old(Graph(elements, lines)), elementId, port);
        elements == ch.g.elements && lines == ch.g.lines && outcome == ch.outcome
    {
      if elementId == -1 {
        return Done;
      }
      var k := ListIndex(|elements|, elementId);
      if k.None? {
        return Raised(IndexError);
      }
      if elements[k.value].None? {
        return Done;
      }
      if port !in elements[k.value].value.connections {
        return Raised(KeyError);
      }
      var li := ListIndex(|lines|, elements[k.value].value.connections[port]);
      if li.None? {
        return Raised(IndexError);
      }
      if lines[li.value].None? {
        return Done;
      }
      var id := lines[li.value].value.element0;
      var secondElementId := if id != elementId then id else lines[li.value].value.element1;
      var secondElementPort := if id != elementId then lines[li.value].value.port0 else lines[li.value].value.port1;
      elements := WithConnection(elements, k.value, port, Unconnected);
      var r := SetConnection(elements, secondElementId, secondElementPort, Unconnected);
      if r.Err? {
        return Raised(r.error);
      }
      elements := r.value;
      lines := lines[li.value := None];
      return Done;
    }

    method AddElement(elementType: ElementType, x: int := 20, y: int := 20)
      requires Valid()
      modifies this`elements
      ensures Valid()
      ensures elements == Place(old(elements), NewElement(elementType, x, y))
    {
      var isAdded := false;
      var i := 0;
      while i < |elements|
        invariant 0 <= i <= |elements| && elements == old(elements) && !isAdded
        invariant forall j :: 0 <= j < i ==> elements[j].Some?
      {
        if elements[i].None? {
          elements := elements[i := Some(NewElement(elementType, x, y))];
          isAdded := true;
          break;
        }
        i := i + 1;
      }
      if !isAdded {
        elements := elements + [Some(NewElement(elementType, x, y))];
      }
      FirstFreeUnique(old(elements), i);
    }

    method RemoveElement(id: int) returns (outcome: Outcome)
      requires Valid()
      modifies this`elements, this`lines, this`selectedElement
      ensures Valid()
      ensures var r := AfterRemoveElement(old(State()), id); State() == r.s && outcome == r.outcome
    {
      ghost var g0 := Graph(elements, lines);
      outcome := RemoveConnection(id, I1);
      if outcome.Raised? {
        return;
      }
      ghost var g1 := Graph(elements, lines);
      outcome := RemoveConnection(id, I2);
      assert AllPorts[1..] == [I2, O];
      assert Disconnect(g0, id, AllPorts) == Disconnect(g1, id, [I2, O]);
      if outcome.Raised? {
        return;
      }
      ghost var g2 := Graph(elements, lines);
      outcome := RemoveConnection(id, O);
      assert [I2, O][1..] == [O];
      assert Disconnect(g1, id, [I2, O]) == Disconnect(g2, id, [O]);
      if outcome.Raised? {
        return;
      }
      assert [O][1..] == [];
      var k := ListIndex(|elements|, id);
      if k.None? {
        return Raised(IndexError);
      }
      elements := elements[k.value := None];
      selectedElement := -1;
      return Done;
    }

    method MouseReleaseEvent()
      requires Valid()
      modifies this`isMousePressed
      ensures Valid()
      ensures State() == AfterRelease(old(State()))
    {
      isMousePressed := false;
    }

    /** The body of the Ctrl-mode port loop for a port within the click window. */
    method ClickPort(i: nat, port: Port) returns (outcome: Outcome)
      requires Valid() && Live(elements, i) && port in elements[i].value.connections
      modifies this`elements, this`lines
      ensures var r := CtrlClick(old(State()), i, port); State() == r.s && outcome == r.outcome
    {
      if elements[i].value.connections[port] != Unconnected {
        outcome := RemoveConnection(i, port);
      } else {
        // the source only reports on the console that a wire could start here
        outcome := Done;
      }
    }

    /** The Ctrl-mode port loop over live element `i`. */
    method ScanPorts(i: nat, x: int, y: int) returns (outcome: Outcome, isFind: bool)
      requires Valid() && Live(elements, i)
      modifies this`elements, this`lines
      ensures var r := PortScan(old(State()), i, PortsIn(old(elements[i].value)), x, y, false, |old(elements[i].value.connections)|);
        State() == r.s && outcome == r.outcome && isFind == r.found
    {
      var ports := PortsIn(elements[i].value);
      var size := |elements[i].value.connections|;
      PortsInKeys(elements[i].value);
      ghost var goal := PortScan(State(), i, ports, x, y, false, size);
      isFind := false;
      var j := 0;
      while j < |ports|
        invariant 0 <= j <= |ports|
        invariant Valid() && Live(elements, i) && |elements[i].value.connections| == size
        invariant forall p :: p in ports ==> p in elements[i].value.connections
        invariant PortScan(State(), i, ports[j..], x, y, isFind, size) == goal
      {
        var port := ports[j];
        assert ports[j..][0] == port && ports[j..][1..] == ports[j + 1..];
        if Near(ConnectionPoint(elements[i].value, port), x, y) {
          outcome := ClickPort(i, port);
          isFind := true;
          if outcome.Raised? {
            return;
          }
          if |elements[i].value.connections| != size {
            // the dict iterator notices the change at its next step
            outcome := Raised(RuntimeError);
            return;
          }
        }
        j := j + 1;
      }
      outcome := Done;
    }

    /** Element `i` becomes the selection, CHOOSING; the previous one goes back to DEFAULT. */
    method ChooseElement(i: nat)
      requires Valid() && Live(elements, i)
      modifies this`elements, this`selectedElement
      ensures Valid() && State() == Choose(old(State()), i)
    {
      if selectedElement > -1 {
        elements := WithState(elements, selectedElement, Default);
      }
      selectedElement := i;
      elements := WithState(elements, i, Choosing);
    }

    method MousePressEvent(x: int, y: int) returns (outcome: Outcome)
      requires Valid()
      modifies this
      ensures Valid()
      ensures var r := AfterPress(old(State()), x, y); State() == r.s && outcome == r.outcome
    {
      isMousePressed := true;
      var isFind := false;
      ghost var goal := ElementScan(State(), 0, x, y);
      var n := |elements|;
      var i := 0;
      while i < n
        invariant 0 <= i <= n == |elements|
        invariant Valid() && isCtrl == old(isCtrl) && isMousePressed && !isFind
        invariant ElementScan(State(), i, x, y) == goal
      {
        if elements[i].Some? {
          if isCtrl {
            outcome, isFind := ScanPorts(i, x, y);
            if outcome.Raised? {
              return;
            }
          } else if IsClicked(elements[i].value, x, y) {
            ChooseElement(i);
            isFind := true;
          }
          if isFind {
            break;
          }
        }
        i := i + 1;
      }
      FinishPress(x, y, isFind);
      outcome := Done;
    }

    /** The end of a press that raised nothing: outside Ctrl mode a press
        that found nothing clears the selection; then the grab offset is taken. */
    method FinishPress(x: int, y: int, isFind: bool)
      requires Valid()
      modifies this`elements, this`selectedElement, this`selectedElementDpos
      ensures Valid()
      ensures var s1 := old(State());
        var s2 := if !s1.isCtrl && !isFind then s1.(g := s1.g.(elements := Deselected(s1.g.elements, s1.selected)), selected := -1) else s1;
        State() == Grab(s2, x, y)
    {
      // a press on empty space outside Ctrl mode clears the selection
      if !isCtrl && !isFind && selectedElement > -1 {
        elements := WithState(elements, selectedElement, Default);
        selectedElement := -1;
      }
      if selectedElement > -1 {
        selectedElementDpos := Point(x - elements[selectedElement].value.x, y - elements[selectedElement].value.y);
      }
    }

    method MouseMoveEvent(x: int, y: int)
      requires Valid()
      modifies this`elements
      ensures Valid() && State() == AfterMove(old(State()), x, y)
    {
      if isMousePressed && !isCtrl && selectedElement > -1 {
        var i := selectedElement;
        elements := MovedTo(elements, i, x - selectedElementDpos.x, y - selectedElementDpos.y);
      }
    }

    method KeyPressEvent(key: Key) returns (outcome: Outcome)
      requires Valid()
      modifies this`elements, this`lines, this`selectedElement, this`isCtrl
      ensures Valid()
      ensures var r := AfterKeyPress(old(State()), key); State() == r.s && outcome == r.outcome
    {
      outcome := Done;
      if key == Delete {
        if selectedElement > -1 {
          outcome := RemoveElement(selectedElement);
        }
      } else if key == Control {
        isCtrl := true;
      }
    }

    method KeyReleaseEvent(key: Key)
      requires Valid()
      modifies this`isCtrl
      ensures Valid() && State() == AfterKeyRelease(old(State()), key)
    {
      if key == Control {
        isCtrl := false;
      }
    }
  }
}
