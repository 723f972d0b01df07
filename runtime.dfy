/** The parts of Python's run-time behaviour that the beat generator relies on:
    the two exceptions it can raise, and list indexing, which accepts an index
    in [-len, len) (a negative index counts from the end) and raises IndexError
    for any other. */
module Runtime {

  datatype Error = IndexError | ZeroDivisionError

  /** The outcome of a Python call: a value, or the exception it raised. */
  datatype Result<+T> = Ok(value: T) | Err(error: Error)

  /** `xs[i]` for a Python list `xs`. */
  function Index<T>(xs: seq<T>, i: int): (r: Result<T>)
    ensures r.Ok? <==> -|xs| <= i < |xs|
    ensures r.Ok? ==> r.value == xs[(i + |xs|) % |xs|]
    ensures r.Err? ==> r.error == IndexError
  {
    if 0 <= i < |xs| then Ok(xs[i])
    else if -|xs| <= i < 0 then Ok(xs[|xs| + i])
    else Err(IndexError)
  }
}
