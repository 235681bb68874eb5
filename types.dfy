/** Values shared by every part of the adapter: optional values, the two
    shapes an asynchronous call can settle to, and the errors it can raise. */
module Types {

  datatype Option<+T> = None | Some(value: T)

  /** A call that either resolves to a value or rejects with an error. */
  datatype Result<+R> = Ok(value: R) | Err(error: Error) {
    /** The same failure, as a result of another type. */
    function PropagateFailure<U>(): (r: Result<U>)
      requires Err?
      ensures r.Err? && r.error == error
    {
      Err(error)
    }
  }

  /** A call that resolves to nothing (`Promise<void>`) or rejects. */
  datatype Outcome = Pass | Fail(error: Error)

  /** Every failure the adapter can surface to the query builder. */
  datatype Error =
    | ClientError(message: string)       // thrown by the wrapped client, or embedded in its result
    | NoTransactionToCommit              // commitTransaction with no transaction connection
    | NoTransactionToRollback            // rollbackTransaction with no transaction connection
    | StreamingUnsupported               // every streamQuery
    | InvalidTimeValue                   // RangeError of toISOString on an invalid Date parameter
    | InvalidBigInt(text: string)        // SyntaxError of BigInt on an insertId that is no integer literal

  /** The text of each error as the adapter raises it. */
  function Message(e: Error): string {
    match e
    case ClientError(m) => m
    case NoTransactionToCommit => "No transaction to commit"
    case NoTransactionToRollback => "No transaction to rollback"
    case StreamingUnsupported => "PlanetScale Serverless Driver does not support streaming"
    case InvalidTimeValue => "Invalid time value"
    case InvalidBigInt(t) => "Cannot convert " + t + " to a BigInt"
  }
}
