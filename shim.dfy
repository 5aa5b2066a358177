/**
 * What the chaincode sees of its host: the response it returns to the peer and the
 * failures the ledger may report on a point read or a write.
 */
module Shim {
  import opened Wrappers

  /** shim.Success(payload) or shim.Error(message); shim.Success(nil) has the empty payload. */
  datatype Response = Success(payload: string) | Error(message: string)

  /**
   * Failures the ledger injects into one invocation: GetState returning an error, and
   * PutState returning an error.
   */
  datatype Faults = Faults(getErr: Option<string>, putErr: Option<string>)
}
