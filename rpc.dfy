/** Results of calls that cross the network boundary (RPC queries, signing and sending). */
module Rpc {

  datatype Option<+T> = None | Some(value: T)

  /** What a failed call threw, reduced to its message. */
  datatype RpcError = RpcError(message: string)

  /** One call of a fallible operation: it either resolves to a value or throws. */
  datatype Outcome<+T> = Ok(value: T) | Err(error: RpcError)
}
