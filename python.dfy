/** The pieces of Python's runtime behaviour that the editor's code depends on:
    optional values (`None`), the exceptions its statements can raise, and list
    indexing, where a negative index counts from the end of the list. */
module Python {

  datatype Option<+T> = None | Some(value: T)

  /** The exceptions a statement of the editor can raise on some input. */
  datatype Error =
    | IndexError          // a list index out of range
    | KeyError            // a dict lookup of a missing key
    | AttributeError      // an attribute read on `None` (a freed slot)
    | UnboundLocalError   // a local variable read before it is bound
    | RuntimeError        // a dict that changed size while a for loop walked it

  datatype Result<+T> = Ok(value: T) | Err(error: Error)

  /** How a call ends: normally, or by raising. A call that raises keeps
      every write it made before the raising statement. */
  datatype Outcome = Done | Raised(error: Error)

  /** The position that `xs[i]` reads in a Python list of length `n`:
      non-negative indices count from the front, negative ones from the back. */
  function ListIndex(n: nat, i: int): (k: Option<nat>)
    ensures k.Some? <==> -(n as int) <= i < n
    ensures k.Some? ==> k.value < n && (k.value == i || k.value == n + i)
  {
    if 0 <= i < n then Some(i)
    else if -(n as int) <= i < 0 then Some(n + i)
    else None
  }

  function Abs(v: int): nat {
    if v < 0 then -v else v
  }
}
