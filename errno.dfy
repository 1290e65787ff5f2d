/** The error codes every plugin entry point reports. */
module Errno {
  import opened Bytes

  const ERR_SUCCESS: int32 := 0

  // Errors RustDesk handles: the plugin is not loaded or not initialized,
  // the call is invalid, or the call failed.
  const ERR_PLUGIN_LOAD: int32 := 10001
  const ERR_PLUGIN_MSG_INIT: int32 := 10101
  const ERR_PLUGIN_MSG_INIT_INVALID: int32 := 10102
  const ERR_PLUGIN_MSG_GET_LOCAL_PEER_ID: int32 := 10103
  const ERR_CALL_UNIMPLEMENTED: int32 := 10201
  const ERR_CALL_INVALID_METHOD: int32 := 10202
  const ERR_CALL_NOT_SUPPORTED_METHOD: int32 := 10203
  const ERR_CALL_INVALID_PEER: int32 := 10204
  const ERR_CALL_INVALID_ARGS: int32 := 10301
  const ERR_PEER_ID_MISMATCH: int32 := 10302

  // Errors the plugin handles itself.
  const EER_CALL_FAILED: int32 := 20021
  const ERR_PEER_ON_FAILED: int32 := 30012
  const ERR_PEER_OFF_FAILED: int32 := 30012

  /** The framework codes, in declaration order. */
  const FRAMEWORK_CODES: seq<int32> := [
    ERR_PLUGIN_LOAD,
    ERR_PLUGIN_MSG_INIT, ERR_PLUGIN_MSG_INIT_INVALID, ERR_PLUGIN_MSG_GET_LOCAL_PEER_ID,
    ERR_CALL_UNIMPLEMENTED, ERR_CALL_INVALID_METHOD, ERR_CALL_NOT_SUPPORTED_METHOD, ERR_CALL_INVALID_PEER,
    ERR_CALL_INVALID_ARGS, ERR_PEER_ID_MISMATCH
  ]

  /** Every error code. */
  const ALL_ERRORS: seq<int32> := FRAMEWORK_CODES + [EER_CALL_FAILED, ERR_PEER_ON_FAILED, ERR_PEER_OFF_FAILED]

  /** The band a framework code belongs to: its hundreds digit pair (`101xx`, `102xx`, `103xx`). */
  function Band(code: int32): int
  {
    code / 100
  }

  /** Success is zero; every error is a positive code, so it can never be mistaken for success. */
  lemma ErrorsPositive()
    ensures ERR_SUCCESS == 0
    ensures forall i :: 0 <= i < |ALL_ERRORS| ==> ALL_ERRORS[i] > 0
  {
  }

  /** No two framework codes coincide. */
  lemma FrameworkCodesDistinct()
    ensures forall i, j :: 0 <= i < j < |FRAMEWORK_CODES| ==> FRAMEWORK_CODES[i] != FRAMEWORK_CODES[j]
  {
  }

  /** Init failures are 101xx, invalid calls 102xx, failed calls 103xx. */
  lemma FrameworkBands()
    ensures Band(ERR_PLUGIN_MSG_INIT) == Band(ERR_PLUGIN_MSG_INIT_INVALID) == Band(ERR_PLUGIN_MSG_GET_LOCAL_PEER_ID) == 101
    ensures Band(ERR_CALL_UNIMPLEMENTED) == Band(ERR_CALL_INVALID_METHOD) == Band(ERR_CALL_NOT_SUPPORTED_METHOD) == Band(ERR_CALL_INVALID_PEER) == 102
    ensures Band(ERR_CALL_INVALID_ARGS) == Band(ERR_PEER_ID_MISMATCH) == 103
  {
  }

  /** Turning on and turning off a peer option fail with the same code. */
  lemma PeerOnOffIndistinguishable()
    ensures ERR_PEER_ON_FAILED == ERR_PEER_OFF_FAILED == 30012
  {
  }
}
