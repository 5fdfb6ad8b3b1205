/** Error kinds of the proxy and their derivation from NT status codes
    (section 2.3.1 of [MS-ERREF]). */
module Status {
  newtype uint32 = x: int | 0 <= x < 0x1_0000_0000

  datatype Option<+T> = None | Some(value: T) {
    function UnwrapOr(default: T): T {
      match this
      case None => default
      case Some(v) => v
    }
  }

  const OBJECT_NAME_COLLISION: uint32 := 0xC000_0035
  const OBJECT_NAME_NOT_FOUND: uint32 := 0xC000_0034
  const OBJECT_PATH_NOT_FOUND: uint32 := 0xC000_003A
  const NOT_FOUND: uint32 := 0xC000_0225
  const NO_SUCH_FILE: uint32 := 0xC000_000F
  const ACCESS_DENIED: uint32 := 0xC000_0022
  const CANNOT_DELETE: uint32 := 0xC000_0121
  const CONNECTION_DISCONNECTED: uint32 := 0xC000_020C
  const CONNECTION_RESET: uint32 := 0xC000_020D
  const CONNECTION_INVALID: uint32 := 0xC000_023A
  const CONNECTION_ABORTED: uint32 := 0xC000_0241
  const NETWORK_NAME_DELETED: uint32 := 0xC000_00C9
  const NETWORK_FILE_CLOSED: uint32 := 0xC000_0128
  const VOLUME_DISMOUNTED: uint32 := 0xC000_026E
  const INVALID_NETWORK_RESPONSE: uint32 := 0xC000_00C3
  const IO_TIMEOUT: uint32 := 0xC000_00B5
  const DELETE_PENDING: uint32 := 0xC000_0056
  const PATH_NOT_COVERED: uint32 := 0xC000_0257
  const NO_MEMORY: uint32 := 0xC000_0017

  /** The type part of the proxy's Error; message texts are not modelled. */
  datatype Error =
    | NoError
    | NonExistent
    | PermissionDenied
    | AlreadyExists
    | Retry
    | CannotDelete
    | PathNotCovered
    | Invalid
  {
    predicate Ok() { NoError? }
  }

  predicate IsConnectionUnusable(status: uint32) {
    || status == CONNECTION_DISCONNECTED
    || status == CONNECTION_RESET
    || status == CONNECTION_INVALID
    || status == CONNECTION_ABORTED
    || status == NETWORK_FILE_CLOSED
    || status == VOLUME_DISMOUNTED
    || status == INVALID_NETWORK_RESPONSE
    || status == IO_TIMEOUT
    || status == NETWORK_NAME_DELETED
    || status == NO_MEMORY
  }

  /** Every failed Samba call becomes an error, and that error asks for a retry
      on a new connection exactly when the connection is unusable. */
  function FromSmbErrorMessage(status: uint32): (e: Error)
    ensures !e.Ok()
    ensures e == Retry <==> IsConnectionUnusable(status)
    ensures e == AlreadyExists <==> status == OBJECT_NAME_COLLISION
  {
    if status == OBJECT_NAME_NOT_FOUND || status == OBJECT_PATH_NOT_FOUND || status == NOT_FOUND
       || status == NO_SUCH_FILE || status == DELETE_PENDING then NonExistent
    else if status == ACCESS_DENIED then PermissionDenied
    else if status == OBJECT_NAME_COLLISION then AlreadyExists
    else if IsConnectionUnusable(status) then Retry
    else if status == CANNOT_DELETE then CannotDelete
    else if status == PATH_NOT_COVERED then PathNotCovered
    else Invalid
  }

  /** The whole table, by the values of the codes. */
  lemma ErrorTable(status: uint32)
    ensures var e := FromSmbErrorMessage(status);
            && (e == Retry <==> status in {0xC000_020C, 0xC000_020D, 0xC000_023A, 0xC000_0241, 0xC000_0128, 0xC000_026E,
                                           0xC000_00C3, 0xC000_00B5, 0xC000_00C9, 0xC000_0017})
            && (e == NonExistent <==> status in {0xC000_0034, 0xC000_003A, 0xC000_0225, 0xC000_000F, 0xC000_0056})
            && (e == PermissionDenied <==> status == 0xC000_0022)
            && (e == AlreadyExists <==> status == 0xC000_0035)
            && (e == CannotDelete <==> status == 0xC000_0121)
            && (e == PathNotCovered <==> status == 0xC000_0257)
            && (IsConnectionUnusable(status) <==> e == Retry)
  {
  }
}
