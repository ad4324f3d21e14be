/**
 * The few pieces of the Python runtime that both clients lean on: optional values,
 * the exception kinds they raise, results of operations that may raise, and the
 * run-time type of an argument that the clients check with `type(x) is str`.
 */
module Py {

  datatype Option<+T> = None | Some(value: T)

  /** The exception kinds raised by the two clients, each with its message. */
  datatype Error =
    | RuntimeError(message: string)
    | ValueError(message: string)
    | TypeError(message: string)
    | AttributeError(message: string)
    | IndexError(message: string)

  /** A value returned normally, or the exception raised instead. */
  datatype Result<+T> = Ok(value: T) | Err(error: Error)

  /** The outcome of an operation that returns `None` when it does not raise. */
  datatype Outcome = Pass | Fail(error: Error)

  /**
   * A call argument whose Python type the clients check at run time: a `str`, a
   * `float` (carried as the text the HTTP layer sends for it) or anything else.
   */
  datatype Arg = Str(text: string) | Float(repr: string) | Other

  /** What `xs[0]` raises on an empty list. */
  const LIST_INDEX_ERROR: Error := IndexError("list index out of range")

  /** What `re.search(...).group(1)` raises when the search found nothing. */
  const NO_MATCH_ERROR: Error := AttributeError("'NoneType' object has no attribute 'group'")

  function OutcomeOf<T>(r: Result<T>): (o: Outcome)
    ensures o.Pass? <==> r.Ok?
    ensures r.Err? ==> o == Fail(r.error)
  {
    match r
    case Ok(_) => Pass
    case Err(e) => Fail(e)
  }

  /** `xs[0]`: the first element, or IndexError on an empty list. */
  function First(xs: seq<string>): (r: Result<string>)
    ensures r.Ok? <==> |xs| > 0
    ensures r.Ok? ==> r.value == xs[0]
    ensures r.Err? ==> r.error == LIST_INDEX_ERROR
  {
    if |xs| == 0 then Err(LIST_INDEX_ERROR) else Ok(xs[0])
  }
}
