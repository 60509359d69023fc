/** Python's failure modes and list subscripts, as values.

    Every operation of the spin systems that can raise in Python returns a
    `Result`: `Ok(value)` when it returns, `Err(e)` naming the exception class
    it raises. */
module Outcomes {

  /** The exception classes the modelled code can raise. */
  datatype Error =
    | AssertionError     // a failing `assert`
    | IndexError         // a list subscript out of range
    | ValueError         // `list.index(x)` with `x` not in the list
    | TypeError          // iterating over `None`
    | AttributeError     // reading an attribute that was never assigned
    | UnboundLocalError  // reading a local variable before assignment

  datatype Result<+T> = Ok(value: T) | Err(error: Error)

  datatype Option<+T> = None | Some(value: T)

  function Abs(x: int): (r: nat)
    ensures r == x || r == -x
  {
    if x < 0 then -x else x
  }

  /** The length of Python's `range(n)`. */
  function Nat(n: int): (r: nat)
    ensures n >= 0 ==> r == n
    ensures n < 0 ==> r == 0
  {
    if n < 0 then 0 else n
  }

  /** The position Python's subscript `xs[i]` reads in a list of length `n`:
      a negative `i` counts from the end, anything else out of range raises. */
  function PyIndex(n: nat, i: int): (r: Result<nat>)
    ensures r.Ok? <==> -(n as int) <= i < n
    ensures r.Ok? ==> r.value < n && r.value % n == i % n
    ensures r.Err? ==> r.error == IndexError
  {
    if 0 <= i < n then Ok(i)
    else if -(n as int) <= i < 0 then Ok(i + n)
    else Err(IndexError)
  }

  /** Python's `xs.index(x)`: the first position holding `x`, or a ValueError. */
  function IndexOf<T(==)>(xs: seq<T>, x: T): (r: Result<nat>)
    ensures r.Ok? <==> x in xs
    ensures r.Ok? ==> r.value < |xs| && xs[r.value] == x
    ensures r.Ok? ==> forall k :: 0 <= k < r.value ==> xs[k] != x
    ensures r.Err? ==> r.error == ValueError
  {
    if |xs| == 0 then Err(ValueError)
    else if xs[0] == x then Ok(0)
    else
      match IndexOf(xs[1..], x)
      case Err(e) => Err(e)
      case Ok(k) => Ok(k + 1)
  }

  /** `IndexOf` is determined by the first position holding `x`. */
  lemma IndexOfFirst<T>(xs: seq<T>, x: T, k: nat)
    requires k < |xs| && xs[k] == x
    requires forall j :: 0 <= j < k ==> xs[j] != x
    ensures IndexOf(xs, x) == Ok(k)
  {
  }
}
