# Circuit editor: connectivity and editing model

This project models the core of a small logic-circuit editor. Gates and
inputs sit on a canvas. Wires join two ports. The
user selects, drags and deletes elements with the mouse and the Delete key.
Holding Ctrl turns a click on a port into a wiring action.

The editor exists in two revisions, and both are modelled:

- `circuit_editor/circuit.py` is the later revision. A Ctrl-click on a free
  port starts a wire; a second one completes it through the pending wire
  `new_line`.
- `circuit.py` is the earlier revision. Its constructor builds an example
  circuit. A Ctrl-click on a free port only reports it on the console.

Both revisions share the element and wire records of `elements.py`.

Module layout:

- `Python` (python.dfy): what the code relies on from Python's runtime.
  - `None` is modelled as `Option`.
  - Exceptions are modelled as an `Outcome`. A call that raises keeps the
    writes it made before the raise.
  - Negative list indices count from the end of the list.
- `Slots` (slots.dfy): the arena behind both lists. Freed entries are `None`.
  A new entry goes into the lowest free slot, and is appended only when no
  slot is free.
- `Elements` (elements.py): these members model that file.
  - element types, visual states and the three port names;
  - the element record and its constructor;
  - where a port sits on an element;
  - the click test;
  - the wire record.
- `Connectivity`: what the two circuit revisions share.
  - the graph of the two slot lists;
  - the dict write on a port;
  - `add_connection`, which is identical in both revisions;
  - the back-reference invariant `Consistent`;
  - the example circuit;
  - the selection helpers of the press handler.
- `EditorCircuit` and `EarlyCircuit`: one module per revision.
  - Each operation is a pure function `After…` of the whole widget state.
    It follows the source statement by statement, including the exception
    each statement can raise.
  - The class `Circuit` keeps the same state in fields. Its methods contain
    the source's loops: the first-free-slot search, the element scan and
    the port scan of the press handler. Each method is proved to leave
    exactly the state its `After…` function describes.
- `EditorCircuitProofs` and `EarlyCircuitProofs`: what each revision
  guarantees, and where it breaks. They are stated about the `After…`
  functions.

The back-reference invariant `Consistent` has three parts:

- `Typed`: every live element has exactly the ports of its type.
- `Linked`: both ends of every live wire are live elements whose named port
  holds that wire's slot.
- `Backed`: every port holds either -1 or the slot of a live wire that ends
  at that port.

Some behaviour of the code is easy to miss. The model keeps it, and a
lemma states each case:

- `add_connection` checks nothing. An occupied port is overwritten, so the
  circuit is no longer consistent (`AddConnectionOverwriteBreaksLink`).
- The later `remove_connection` is not idempotent. Disconnecting from the
  wire's endpoint 0 raises `UnboundLocalError` half-way through
  (`EditorCircuitProofs.RemoveConnectionFromFirstEnd`).
- The earlier `remove_connection` treats an unconnected port's -1 as the
  index of the last wire (`EarlyCircuitProofs.UnconnectedPortFreesLastLine`).
- The earlier `remove_connection` mis-resolves a self-loop
  (`EarlyCircuitProofs.SelfLoopFromSecondEnd`).
- Deleting one input of the example circuit (two INPUTs wired to an AND
  gate) raises in both revisions, and leaves every wire in place:
  - the later revision raises `UnboundLocalError`, and the input's own port
    is already cleared;
  - the earlier revision raises `KeyError` and changes nothing.

  Deleting the example's AND gate works in both revisions.

## Model

| member | source | states |
|---|---|---|
| `Python.ListIndex` | circuit.py:54-55 | A Python list index is valid exactly when it lies in `-n..n-1`. A negative index reads position `n + i`. |
| `Slots.FirstFree` | circuit_editor/circuit.py:81-86 | The slot the for/else loop stops at: every slot below it is taken, and it is free or the end of the list. |
| `Slots.Place` | circuit_editor/circuit.py:80-86 | The new entry lands in the lowest free slot. Every other slot is unchanged. The list grows by one exactly when no slot was free. |
| `Slots.FreedSlotIsReusedFirst` | circuit_editor/circuit.py:44-51 | After slot `i` is freed, the next insertion goes into `i`, unless a lower slot was already free. |
| `Elements.NewElement` | elements.py:35-54 | A new element keeps x and y, starts DEFAULT, and records its type. Its ports are exactly {o} for INPUT, {i1, o} for NOT, and {i1, i2, o} otherwise, all at -1. INPUT is 30×30; every other type is 80×80. |
| `Elements.ConnectionPoint` | elements.py:60-68 | Port `o` attaches on the right edge of the box and the input ports on its left edge, within the box's height. With the constructor's sizes, an INPUT's port is 15 below its top; a gate's `i1` and `o` are 20 below its top and `i2` is 60 below. |
| `Elements.IsClicked` | elements.py:70-71 | A point is on an element exactly when it is at most half the width and half the height from the box's centre, both bounds included. |
| `Elements.Near` | circuit_editor/circuit.py:141 | A point is within a port's window exactly when both of its offsets from the port are at most 14. |
| `Elements.NewElementPorts` | elements.py:60-68 | Port positions of a new element: an input's `o` is at mid-height on the right edge. A gate's `i1` and `i2` are a quarter and three quarters down the left edge. A gate's `o` is on the right edge at the height of `i1`. |
| `Elements.PortOnBox` | elements.py:60-71 | Every port of an element passes that element's inclusive click test. |
| `Elements.PortsApart` | circuit_editor/circuit.py:139-141 | No point has two ports of one element within its ±15 window. The inner port loop, which has no break, therefore acts on at most one port of each element. |
| `Elements.NewLine` | elements.py:74-78 | A wire keeps its endpoints and ports in argument order, and starts inactive. |
| `Connectivity.ElementAt` | circuit.py:47-48 | `elements[id]` followed by an attribute access succeeds exactly when the Python index is valid and the slot is live. |
| `Connectivity.SetConnection` | circuit_editor/circuit.py:53-54 | A port write succeeds exactly when the element lookup does. It changes nothing but port values. |
| `Connectivity.AfterAddConnection` | circuit_editor/circuit.py:41-54 | The wire goes into the lowest free wire slot, or is appended. Only port values change. The call completes exactly when both element ids are valid. |
| `Connectivity.AddConnectionWires` | circuit_editor/circuit.py:41-54 | With two live elements, the call completes. Both named ports hold the new slot, whatever they held before. The stored wire runs from endpoint (id1, port1) to endpoint (id2, port2). No other port changes. |
| `Connectivity.AddConnectionOverwriteBreaksLink` | circuit_editor/circuit.py:53-54 | With no occupancy check, connecting a port that already holds a wire leaves that wire's back-reference broken. |
| `Connectivity.AddConnectionKeepsConsistent` | circuit.py:33-49 | Connecting two free ports of live elements completes and keeps the circuit consistent. |
| `Connectivity.AddElementKeepsConsistent` | circuit.py:64-73 | Adding an element keeps the circuit consistent. |
| `Connectivity.DisconnectKeepsConsistent` | circuit_editor/circuit.py:75-77 | Freeing one live wire keeps the circuit consistent, provided exactly its two endpoint ports are set to -1. |
| `Connectivity.FreeIsolated` | circuit_editor/circuit.py:96 | Freeing an element whose ports are all -1 keeps the circuit consistent. No live wire ends at such an element. |
| `Connectivity.FirstHit` | circuit_editor/circuit.py:135-162 | The lowest live slot from `from` whose box contains the point, or -1 when there is none. No slot before it is hit. |
| `Connectivity.PortsInKeys` | circuit_editor/circuit.py:139 | The inner press loop visits exactly the ports of the element. |
| `Connectivity.PortsInDistinct` | circuit_editor/circuit.py:139 | The inner press loop visits no port twice. |
| `Connectivity.ExampleBuilt` | circuit.py:25-30 | The example calls complete. They give inputs at slots 0 and 1 and an AND at slot 2. Wire 0 joins (0, o) to (2, i1). Wire 1 joins (1, o) to (2, i2). The AND's `o` is -1. |
| `Connectivity.ExampleConsistent` | circuit.py:25-30 | The example circuit is consistent. |
| `EditorCircuit.AfterRemoveConnection` | circuit_editor/circuit.py:57-78 | remove_connection never creates or frees an element, and never changes the number of wire slots. |
| `EditorCircuit.InputPorts` | circuit_editor/circuit.py:89-94 | The ports remove_element disconnects after `o` are exactly the element type's input ports. |
| `EditorCircuit.FreeSlot` | circuit_editor/circuit.py:96-97 | Freeing the slot and clearing the selection leaves a sane state. |
| `EditorCircuit.Disconnect` | circuit_editor/circuit.py:90-94 | A run of remove_connection calls changes nothing but port values. |
| `EditorCircuit.AfterRemoveElement` | circuit_editor/circuit.py:89-98 | remove_element leaves the selection -1 or live, whether or not it raises. |
| `EditorCircuit.ElbowRoute` | circuit_editor/circuit.py:100-103 | The route starts and ends at the two points. It alternates horizontal, vertical and horizontal segments. Its middle column lies between the two ends, at the floor of their midpoint. |
| `EditorCircuit.CtrlClick` | circuit_editor/circuit.py:141-153 | A Ctrl-click on a port changes port values and `new_line` only, and keeps the state sane. |
| `EditorCircuit.Checked` | circuit_editor/circuit.py:139-153 | After the loop body has acted on a port, the loop raises exactly when the body raised or the element's dict no longer has the size it had when the loop began. A size change turns a normal return into RuntimeError and changes nothing else. |
| `EditorCircuit.PortScan` | circuit_editor/circuit.py:139-153 | The inner loop changes port values and `new_line` only. A raise implies something was found. A loop that runs to the end leaves the element's dict at the size it began with. |
| `EditorCircuit.Choose` | circuit_editor/circuit.py:155-160 | Selecting a live element keeps the state sane. |
| `EditorCircuit.Grab` | circuit_editor/circuit.py:170-172 | Taking the grab offset changes `selected_element_dpos` only. |
| `EditorCircuit.ElementScan` | circuit_editor/circuit.py:135-162 | The outer loop keeps the state sane, creates and frees no slot, and leaves the Ctrl and button flags alone. |
| `EditorCircuit.AfterPress` | circuit_editor/circuit.py:130-175 | A press keeps the state sane. |
| `EditorCircuit.AfterMove` | circuit_editor/circuit.py:177-184 | A move keeps the state sane. |
| `EditorCircuit.AfterKeyPress` | circuit_editor/circuit.py:186-195 | A key press keeps the state sane. |
| `EditorCircuit.AfterRelease` | circuit_editor/circuit.py:127-128 | A release clears the button flag and changes nothing else, so it keeps the state sane. |
| `EditorCircuit.AfterKeyRelease` | circuit_editor/circuit.py:197-203 | Releasing Ctrl leaves Ctrl mode and drops the pending wire. Nothing else changes, and any other key changes nothing. |
| `EditorCircuit.Circuit.constructor` | circuit_editor/circuit.py:14-31 | The widget starts empty, with no selection, no pending wire, and Ctrl and the button up. |
| `EditorCircuit.Circuit.AddConnection` | circuit_editor/circuit.py:41-55 | The for/else slot loop and the two port writes produce `AfterAddConnection`. |
| `EditorCircuit.Circuit.RemoveConnection` | circuit_editor/circuit.py:57-78 | The method produces `AfterRemoveConnection`, including its raise. |
| `EditorCircuit.Circuit.AddElement` | circuit_editor/circuit.py:80-87 | The slot loop places the new element as `Place` does. The default position is (20, 20). A live selection stays live. |
| `EditorCircuit.Circuit.RemoveElement` | circuit_editor/circuit.py:89-98 | The method produces `AfterRemoveElement` and keeps the widget sane. |
| `EditorCircuit.Circuit.ClickPort` | circuit_editor/circuit.py:142-153 | The loop body for a port within the window produces `CtrlClick`. |
| `EditorCircuit.Circuit.ScanPorts` | circuit_editor/circuit.py:139-153 | The inner port loop produces `PortScan` over the element's ports. |
| `EditorCircuit.Circuit.ChooseElement` | circuit_editor/circuit.py:155-160 | The selection statements produce `Choose`. |
| `EditorCircuit.Circuit.FinishPress` | circuit_editor/circuit.py:164-172 | The end of a press clears the selection on a miss outside Ctrl mode, then takes the grab offset. |
| `EditorCircuit.Circuit.MousePressEvent` | circuit_editor/circuit.py:130-175 | The handler's loops produce `AfterPress` and keep the widget sane. |
| `EditorCircuit.Circuit.MouseMoveEvent` | circuit_editor/circuit.py:177-184 | The handler produces `AfterMove`. |
| `EditorCircuit.Circuit.MouseReleaseEvent` | circuit_editor/circuit.py:127-128 | Releasing the button clears `is_mouse_pressed` and nothing else, and keeps the widget sane. |
| `EditorCircuit.Circuit.KeyPressEvent` | circuit_editor/circuit.py:186-195 | The handler produces `AfterKeyPress` and keeps the widget sane. |
| `EditorCircuit.Circuit.KeyReleaseEvent` | circuit_editor/circuit.py:197-203 | Releasing Ctrl clears `new_line` and `is_ctrl`. Any other key changes nothing. The widget stays sane. |
| `EditorCircuitProofs.RemoveConnectionNoOp` | circuit_editor/circuit.py:59-65 | remove_connection returns normally with nothing changed exactly when one of its guards fires. The guards are: an element id that is -1, too large or freed; or a wire id that is negative, too large or freed. |
| `EditorCircuitProofs.RemoveConnectionFromSecondEnd` | circuit_editor/circuit.py:67-77 | Disconnecting from the wire's endpoint-1 side completes and frees the wire. Both of its ports are set to -1 and no other port changes. The circuit stays consistent. |
| `EditorCircuitProofs.RemoveConnectionFromFirstEnd` | circuit_editor/circuit.py:67-76 | Disconnecting from the wire's endpoint-0 side raises UnboundLocalError. By then the given port is already -1 and the wire is still live, so a consistent circuit is no longer linked. |
| `EditorCircuitProofs.DisconnectStep` | circuit_editor/circuit.py:57-78 | When no wire starts at the element, one call completes and sets exactly that port to -1. It frees only wires at the element and keeps the circuit consistent. |
| `EditorCircuitProofs.DisconnectAll` | circuit_editor/circuit.py:90-94 | The cascade's calls all complete. They set exactly the given ports to -1, free only wires at the element, and keep the circuit consistent. |
| `EditorCircuitProofs.CascadePorts` | circuit_editor/circuit.py:90-94 | The disconnect part of remove_element leaves the element with every port at -1, just before its slot is freed. |
| `EditorCircuitProofs.RemoveElementCascade` | circuit_editor/circuit.py:89-98 | When no wire starts at the element, remove_element completes and frees its slot. It frees every wire at the element and no other wire. It clears the selection, changes only port values elsewhere, and keeps the circuit consistent. |
| `EditorCircuitProofs.DeleteKeyRemovesSelection` | circuit_editor/circuit.py:187-190 | Delete with a selection runs that cascade. It returns with no selection and the slot freed. |
| `EditorCircuitProofs.PassStep` | circuit_editor/circuit.py:57-78 | On a consistent circuit, disconnecting a port of an element that holds no wire drawn from that element returns normally and keeps the circuit consistent. A wire drawn from another port of the element is left in place. |
| `EditorCircuitProofs.DisconnectHitsStart` | circuit_editor/circuit.py:89-94 | When one of the ports the cascade disconnects holds a wire drawn from the element, some call raises UnboundLocalError, at that port at the latest. The element stays in its slot. |
| `EditorCircuitProofs.RemoveElementStartRaises` | circuit_editor/circuit.py:89-98 | On a consistent circuit, deleting an element from which any live wire was drawn raises UnboundLocalError, whatever port the wire starts at. The slot is not freed and the selection is kept. |
| `EditorCircuitProofs.RemoveElementFirstEndRaises` | circuit_editor/circuit.py:89-90 | Deleting an element whose `o` wire starts at it raises. The `o` port is cleared first. The wire stays live, the slot is not freed and the selection is kept. |
| `EditorCircuitProofs.DeleteHub` | circuit_editor/circuit.py:89-98 | Deleting an element at which every live wire ends, none starting there, leaves no live wire at all. The circuit stays consistent. |
| `EditorCircuitProofs.ScanSelects` | circuit_editor/circuit.py:135-162 | Outside Ctrl mode, the outer loop stops at the first live element hit and selects it. When nothing is hit, it changes nothing. |
| `EditorCircuitProofs.PressOutsideCtrl` | circuit_editor/circuit.py:130-172 | A press outside Ctrl mode selects the lowest-index live element whose box holds the point. The previous selection goes back to DEFAULT and the new one becomes CHOOSING. The grab offset is the pointer minus the element's position. A press that hits nothing clears the selection. Wires and `new_line` are untouched. |
| `EditorCircuitProofs.PortScanMiss` | circuit_editor/circuit.py:139-141 | When no port is within the window, the inner loop changes nothing. |
| `EditorCircuitProofs.PortScanHit` | circuit_editor/circuit.py:139-153 | When exactly one of the distinct ports is within the window, the inner loop acts on that port alone. It then raises RuntimeError exactly when that action changed the number of the element's ports. |
| `EditorCircuitProofs.CtrlScanMiss` | circuit_editor/circuit.py:135-162 | In Ctrl mode, when no port of any element is within the window, the outer loop changes nothing. |
| `EditorCircuitProofs.CtrlScanHit` | circuit_editor/circuit.py:135-162 | In Ctrl mode, the outer loop acts on the first port within the window, in element order, and then stops. The outcome is RuntimeError when that action added a port to the element. |
| `EditorCircuitProofs.CtrlScanPast` | circuit_editor/circuit.py:135-162 | In Ctrl mode, the outer loop passes over a slot that has no port within the window. |
| `EditorCircuitProofs.CtrlScanAt` | circuit_editor/circuit.py:137-162 | In Ctrl mode, at an element with a port within the window, the loop acts on that port and stops. The outcome is RuntimeError when that action added a port to the element. |
| `EditorCircuitProofs.PressInCtrlOnPort` | circuit_editor/circuit.py:130-175 | A Ctrl-mode press is the Ctrl-click on the first port within the window, followed by the grab offset. The press raises RuntimeError instead when the click added a port to that element. |
| `EditorCircuitProofs.PressInCtrlMiss` | circuit_editor/circuit.py:130-172 | A Ctrl-mode press that is near no port keeps the selection, and changes only the button flag and the grab offset. |
| `EditorCircuitProofs.TwoClickWiring` | circuit_editor/circuit.py:141-153 | With no wire pending, a first Ctrl-click on a free port makes it the pending endpoint and changes no wire. A second click on a free port adds exactly the add_connection wire and clears `new_line`. A consistent circuit stays consistent. |
| `EditorCircuitProofs.PendingOnReusedSlotRaises` | circuit_editor/circuit.py:139-153 | A Ctrl-click on a free port of element `b`, while the pending wire starts at `b` on a port `b` lacks, adds the wire and clears `new_line`. The added port grows the dict being walked, so the press raises RuntimeError. |
| `EditorCircuitProofs.AbandonedWire` | circuit_editor/circuit.py:192-200 | Pressing Ctrl again keeps the pending endpoint. Releasing Ctrl drops it and leaves the circuit and the selection as they were. |
| `EditorCircuitProofs.DragKeepsGrabOffset` | circuit_editor/circuit.py:169-182 | After a press on an element, a move keeps the pointer at the same spot on it. No wire moves and no other element moves. |
| `EditorCircuitProofs.ReleaseEndsDrag` | circuit_editor/circuit.py:177-184 | Once the button is released, a move changes nothing. |
| `EditorCircuitProofs.ElbowRouteSymmetric` | circuit_editor/circuit.py:100-103 | The route between two points, drawn in the other direction, is the same route reversed. |
| `EditorCircuitProofs.ExampleDeleteInputRaises` | circuit_editor/circuit.py:89-98 | In the example circuit, deleting either input raises UnboundLocalError. The input stays, with its `o` at -1. Its wire stays live and the gate still points at it. |
| `EditorCircuitProofs.ExampleDeleteGate` | circuit_editor/circuit.py:89-98 | In the example circuit, deleting the gate completes. Both wires are freed, both inputs' `o` ports are back at -1, and the circuit stays consistent. |
| `EarlyCircuit.AfterRemoveConnection` | circuit.py:51-62 | remove_connection never creates or frees an element, and never changes the number of wire slots. |
| `EarlyCircuit.Disconnect` | circuit.py:76-78 | A run of remove_connection calls changes nothing but port values. |
| `EarlyCircuit.AfterRemoveElement` | circuit.py:75-81 | remove_element leaves the selection -1 or live, whether or not it raises. |
| `EarlyCircuit.CtrlClick` | circuit.py:126-131 | A Ctrl-click on a port changes port values only, and keeps the state sane. |
| `EarlyCircuit.Checked` | circuit.py:124-131 | After the loop body has acted on a port, the loop raises exactly when the body raised or the element's dict no longer has the size it had when the loop began. A size change turns a normal return into RuntimeError and changes nothing else. |
| `EarlyCircuit.PortScan` | circuit.py:124-131 | The inner loop changes port values only. A raise implies something was found. A loop that runs to the end leaves the element's dict at the size it began with. |
| `EarlyCircuit.Choose` | circuit.py:134-137 | Selecting a live element keeps the state sane. |
| `EarlyCircuit.Grab` | circuit.py:148-150 | Taking the grab offset changes `selected_element_dpos` only. |
| `EarlyCircuit.ElementScan` | circuit.py:120-140 | The outer loop keeps the state sane, creates and frees no slot, and leaves the Ctrl and button flags alone. |
| `EarlyCircuit.AfterPress` | circuit.py:115-153 | A press keeps the state sane. |
| `EarlyCircuit.AfterMove` | circuit.py:155-162 | A move keeps the state sane. |
| `EarlyCircuit.AfterKeyPress` | circuit.py:164-173 | A key press keeps the state sane. |
| `EarlyCircuit.AfterRelease` | circuit.py:112-113 | A release clears the button flag and changes nothing else, so it keeps the state sane. |
| `EarlyCircuit.AfterKeyRelease` | circuit.py:175-179 | Releasing Ctrl leaves Ctrl mode and changes nothing else. Any other key changes nothing. |
| `EarlyCircuit.Initial` | circuit.py:14-31 | The constructor leaves a consistent circuit of three live DEFAULT elements and two wires, with nothing selected, Ctrl mode off and the button up. |
| `EarlyCircuit.Circuit.constructor` | circuit.py:14-31 | The widget starts holding the example circuit, with no selection and Ctrl and the button up. |
| `EarlyCircuit.Circuit.BuildExample` | circuit.py:25-30 | The constructor's three add_element calls and two add_connection calls, made through the class's own methods, build `Example()`. |
| `EarlyCircuit.Circuit.AddConnection` | circuit.py:33-49 | The `is_added` slot loop and the two port writes produce `AfterAddConnection`. |
| `EarlyCircuit.Circuit.RemoveConnection` | circuit.py:51-62 | The method produces `AfterRemoveConnection`, including its raises. |
| `EarlyCircuit.Circuit.AddElement` | circuit.py:64-73 | The `is_added` slot loop places the new element as `Place` does. A live selection stays live. |
| `EarlyCircuit.Circuit.RemoveElement` | circuit.py:75-81 | The method produces `AfterRemoveElement` and keeps the widget sane. |
| `EarlyCircuit.Circuit.ClickPort` | circuit.py:126-131 | The loop body for a port within the window produces `CtrlClick`. |
| `EarlyCircuit.Circuit.ScanPorts` | circuit.py:124-131 | The inner port loop produces `PortScan` over the element's ports. |
| `EarlyCircuit.Circuit.ChooseElement` | circuit.py:134-137 | The selection statements produce `Choose`. |
| `EarlyCircuit.Circuit.FinishPress` | circuit.py:142-150 | The end of a press clears the selection on a miss outside Ctrl mode, then takes the grab offset. |
| `EarlyCircuit.Circuit.MousePressEvent` | circuit.py:115-153 | The handler's loops produce `AfterPress` and keep the widget sane. |
| `EarlyCircuit.Circuit.MouseMoveEvent` | circuit.py:155-162 | The handler produces `AfterMove`. |
| `EarlyCircuit.Circuit.MouseReleaseEvent` | circuit.py:112-113 | Releasing the button clears `is_mouse_pressed` and nothing else, and keeps the widget sane. |
| `EarlyCircuit.Circuit.KeyPressEvent` | circuit.py:164-173 | The handler produces `AfterKeyPress` and keeps the widget sane. |
| `EarlyCircuit.Circuit.KeyReleaseEvent` | circuit.py:175-179 | Releasing Ctrl clears `is_ctrl`. Any other key changes nothing. The widget stays sane. |
| `EarlyCircuitProofs.RemoveConnectionEitherEnd` | circuit.py:51-62 | Disconnecting a wire between two different elements, from either end, completes and frees the wire. Both of its ports are set to -1 and no other port changes. The circuit stays consistent. |
| `EarlyCircuitProofs.UnconnectedPortFreesLastLine` | circuit.py:53-61 | On a port at -1, remove_connection frees the last wire slot when that slot holds a wire elsewhere. That wire's endpoint-0 port is set to -1 while its endpoint-1 port still holds the freed slot, so the circuit is no longer backed. |
| `EarlyCircuitProofs.EmptyLinesRaises` | circuit.py:54-55 | With no wire slots at all, remove_connection on any port of a live element raises IndexError and changes nothing. |
| `EarlyCircuitProofs.SelfLoopFromSecondEnd` | circuit.py:56-61 | A self-loop disconnected from its endpoint-1 port is freed. Its endpoint-0 port still holds the freed slot. |
| `EarlyCircuitProofs.RemoveConnectionKeepsKeys` | circuit.py:59-60 | On a linked circuit, remove_connection adds no port to any element. |
| `EarlyCircuitProofs.RemoveElementInputKeyError` | circuit.py:75-76 | Deleting an INPUT raises KeyError at `i1` and changes nothing. |
| `EarlyCircuitProofs.RemoveElementNotKeyError` | circuit.py:76-77 | Deleting a NOT gate disconnects `i1`, then raises KeyError at `i2`. The slot stays live. |
| `EarlyCircuitProofs.DisconnectStep` | circuit.py:51-62 | When the element has no self-loop, one call on a harmless port completes. It sets exactly that port to -1, frees only wires at the element, and keeps the circuit consistent. A harmless port holds a live wire, or holds -1 while the last slot is free. |
| `EarlyCircuitProofs.DisconnectAll` | circuit.py:76-78 | Calls on distinct harmless ports all complete. They set exactly those ports to -1, free only wires at the element, and keep the circuit consistent. |
| `EarlyCircuitProofs.GateCascade` | circuit.py:75-81 | Deleting an AND or OR gate with harmless ports and no self-loop completes. It frees the slot and every wire at the gate, and no other wire. It clears the selection and keeps the circuit consistent. |
| `EarlyCircuitProofs.FedGateCascade` | circuit.py:75-81 | A gate with both inputs wired and its output at -1 is deleted cleanly. The `o` call reads the last wire slot, which the `i1` and `i2` calls have already freed. |
| `EarlyCircuitProofs.FedGateLastSlot` | circuit.py:54-55 | After the `i1` and `i2` calls on such a gate, the last wire slot is free. |
| `EarlyCircuitProofs.DeleteKeyRemovesGate` | circuit.py:164-168 | Delete with a harmless gate selected completes. It clears the selection, frees the gate, and keeps the circuit consistent. |
| `EarlyCircuitProofs.ScanSelects` | circuit.py:120-140 | Outside Ctrl mode, the outer loop stops at the first live element hit and selects it. When nothing is hit, it changes nothing. |
| `EarlyCircuitProofs.PressOutsideCtrl` | circuit.py:115-150 | A press outside Ctrl mode selects the lowest-index live element whose box holds the point. The previous selection goes back to DEFAULT and the new one becomes CHOOSING. The grab offset is taken. A press that hits nothing clears the selection. Wires are untouched. |
| `EarlyCircuitProofs.DragKeepsGrabOffset` | circuit.py:147-160 | After a press on an element, a move keeps the pointer at the same spot on it. No wire moves and no other element moves. |
| `EarlyCircuitProofs.PortScanMiss` | circuit.py:124-126 | When no port is within the window, the inner loop changes nothing. |
| `EarlyCircuitProofs.PortScanHit` | circuit.py:124-131 | When exactly one of the distinct ports is within the window, the inner loop acts on that port alone. It then raises RuntimeError exactly when that action changed the number of the element's ports. |
| `EarlyCircuitProofs.CtrlScanHit` | circuit.py:120-140 | In Ctrl mode, the outer loop acts on the first port within the window, in element order, and then stops. The outcome is RuntimeError when that action added a port to the element. |
| `EarlyCircuitProofs.PressInCtrlOnPort` | circuit.py:115-153 | A Ctrl-mode press is the Ctrl-click on the first port within the window, followed by the grab offset. The press raises RuntimeError instead when the click added a port to that element. |
| `EarlyCircuitProofs.PressInCtrlOnFreePort` | circuit.py:126-131 | A Ctrl-mode press on a free port changes no wire: it only sets the button flag and the grab offset. |
| `EarlyCircuitProofs.PressInCtrlOnWire` | circuit.py:126-128 | A Ctrl-mode press on a wired port frees that wire, keeps the selection, and keeps the circuit consistent. |
| `EarlyCircuitProofs.ExampleDeleteInputRaises` | circuit.py:75-78 | In the constructed circuit, deleting either input raises KeyError and changes nothing. |
| `EarlyCircuitProofs.ExampleDeleteGate` | circuit.py:75-81 | In the constructed circuit, deleting the AND gate completes. Both wires are freed, both inputs' `o` ports are back at -1, and the circuit stays consistent. |

## Left out

- Rendering is not modelled: `paintEvent`, `Element.draw`, the textures and
  port overlay images, stylesheets, `repaint()` and `setMouseTracking`. None
  of it changes editor state. Of the later `draw_line`, only the corner
  points are modelled (`ElbowRoute`). The earlier revision draws wires
  inside `paintEvent`, so its two-segment route is not modelled.
- Qt event objects become integer coordinates and a three-valued key. The
  forwarding to `super()` handlers is not modelled.
- The console message the earlier revision prints on a Ctrl-click on a free
  port is not modelled. The model records that nothing else happens.
- Signal evaluation is not modelled. Nothing in the core ever sets the
  TRIGGERED state or `is_active`.
- main.py is not part of this model. It is window chrome, and its toolbar
  only calls `add_element` at the default position, which `AddElement`
  takes as its default.
- Elements and wires are held by value in the two slot lists. Python holds
  references, but no reference to an element or a wire escapes its slot, so
  no aliasing is lost.
- The later revision's example calls are commented out in its constructor.
  Its example lemmas start from the example circuit given as a state.
- Connectivity.PortsIn: the Ctrl-mode loop visits ports in the order i1,
  i2, o. That is the insertion order of every dict the element constructor
  builds. `add_connection` adds a port name an element lacks when a pending
  wire outlives its element and the slot is reused by another type. If it
  does so to the dict the loop is walking, Python raises RuntimeError at
  the loop's next step, and so does the model (`Checked`,
  `EditorCircuitProofs.PendingOnReusedSlotRaises`). If an earlier event
  added the name, Python visits it after the constructor's names and the
  model does not. The two orders act differently only when two ports are
  within the window at once. Of the ports an element can gain, that happens
  only for an INPUT that has gained both `i1` and `i2`, which share one
  connection point.
- Elements.Port: only the three port names `i1`, `i2` and `o` exist. Python
  would accept any string as a port name.
- EditorCircuit.AfterRemoveElement: the source reads the element's type
  again before `i2`. The model reads it once, after `o`, because
  remove_connection never changes a type.
- EditorCircuitProofs.RemoveElementCascade is proved only when no wire
  starts at the element. Otherwise remove_element raises UnboundLocalError,
  at whichever port that wire starts, as `RemoveElementStartRaises` states.
- EarlyCircuitProofs.GateCascade is proved only when every port is
  harmless. Otherwise the last wire slot is read through index -1, as
  `UnconnectedPortFreesLastLine` states.
- EarlyCircuitProofs.PressInCtrlOnPort and EditorCircuitProofs.PressInCtrlOnPort
  need the element sizes of `Shaped`, which the element constructor fixes,
  so that `PortsApart` applies.
- Integer width is not modelled. Python integers are unbounded, and all
  coordinate arithmetic here is integer.
- A `Raised` outcome is where the model stops. The exception leaves the Qt
  event handler, and the source installs no `sys.excepthook`. Under PyQt5
  5.5 and later an unhandled exception in such a handler aborts the
  program, so no later event sees the state after a raise. The model still
  gives that state, as it stood when the exception was raised.
