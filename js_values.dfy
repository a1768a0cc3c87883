/** Values that cross the boundary between the page script and the libraries it calls:
    JavaScript errors and the outcome of one awaited external call. */
module JsValues {

  /** The `code` property of a thrown error: absent for a plain `new Error(...)`,
      a string for ethers errors ("ACTION_REJECTED"), a number for wallet RPC errors (4001, 4902). */
  datatype ErrorCode = NoCode | Named(name: string) | Numeric(number: int)

  /** A thrown JavaScript error, reduced to the two properties the page reads. */
  datatype JsError = JsError(code: ErrorCode, message: string)

  /** `new Error(message)`: an error without a code. */
  function Plain(message: string): JsError {
    JsError(NoCode, message)
  }

  /** The outcome of one awaited call into ethers or the injected wallet: the value it
      resolved to, or the error it threw. */
  datatype Call<+T> = Ok(value: T) | Err(error: JsError)

  /** A value that may be absent (`null` or `undefined` in the page script). */
  datatype Option<+T> = None | Some(value: T)

  /** A submitted transaction as the page sees it: only its hash is read. */
  datatype Tx = Tx(hash: string)
}
