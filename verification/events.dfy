/** The event contract shared by the dispatch root and every observer: the ten
    callbacks of the Hook interface, each carrying the outcome of the operation
    it reports and, for queries and execs, the elapsed time and the query text. */
module Events {

  datatype Option<+T> = None | Some(value: T)

  /** A backend error. `EOF` is the end-of-data sentinel a row cursor returns
      when it has no more rows; every other error is opaque to this layer. */
  datatype Error = EOF | Failure(code: nat)

  /** Elapsed time of a query or exec, in nanoseconds. The proxy measures it
      with the clock; here it is an opaque value passed through. */
  type Duration = int

  /** One event, named after the Hook callback that receives it. `err` is
      `None` when the operation succeeded (Go's nil error). */
  datatype Event =
    | ConnOpened(err: Option<Error>)
    | ConnClosed(err: Option<Error>)
    | StmtPrepared(query: string, err: Option<Error>)
    | StmtClosed(err: Option<Error>)
    | TxBegan(err: Option<Error>)
    | TxCommitted(err: Option<Error>)
    | TxRolledback(err: Option<Error>)
    | Queried(d: Duration, query: string, err: Option<Error>)
    | Execed(d: Duration, query: string, err: Option<Error>)
    | RowIterated(err: Option<Error>)
  {
    predicate Succeeded() { err.None? }
  }

  /** `n` copies of `x`. */
  function Repeat<T>(x: T, n: nat): (s: seq<T>)
    ensures |s| == n
    ensures forall i :: 0 <= i < n ==> s[i] == x
  {
    if n == 0 then [] else Repeat(x, n - 1) + [x]
  }
}
