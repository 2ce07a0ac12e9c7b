/** Fixed-width integers, `minUInt8` and the reply envelope (server utils.go). */
module ServerUtils {
  /** Go `uint8` and `byte`. */
  type uint8 = x: int | 0 <= x < 0x100

  /** Go `uint32`. */
  type uint32 = x: int | 0 <= x < 0x1_0000_0000

  /** `x + 1` on a `uint8`, wrapping at 256. */
  function Inc8(x: uint8): (r: uint8)
    ensures x < 255 ==> r == x + 1
    ensures x == 255 ==> r == 0
  {
    (x + 1) % 0x100
  }

  function MinUInt8(x: uint8, y: uint8): (m: uint8)
    ensures m <= x && m <= y
    ensures m == x || m == y
  {
    if x < y then x else y
  }

  /** The minimum does not depend on the order of its arguments. */
  lemma MinUInt8Symmetric(x: uint8, y: uint8)
    ensures MinUInt8(x, y) == MinUInt8(y, x)
  {
    var m, n := MinUInt8(x, y), MinUInt8(y, x);
    assert m <= n && n <= m;
  }

  // The `ERROR_CODE_*` table, in declaration order.
  const ERROR_CODE_OK: uint8 := 0
  const ERROR_CODE_JSON_COULD_NOT_UNMARSHAL: uint8 := 1
  const ERROR_CODE_DATA_NOT_VALID: uint8 := 2
  const ERROR_CODE_INTERNAL_DATABASE_ERROR: uint8 := 3
  const ERROR_CODE_COULD_NOT_FIND_RECORD: uint8 := 4
  const ERROR_CODE_TRAIN_NOT_STOPPED: uint8 := 5
  const ERROR_CODE_TRAIN_NOT_STARTED: uint8 := 6
  const ERROR_CODE_TRAIN_NOT_ONLINE: uint8 := 7
  const ERROR_CODE_TRAIN_NOT_STOP_AT_SIGNAL: uint8 := 8

  const ErrorCodes: seq<uint8> := [ERROR_CODE_OK, ERROR_CODE_JSON_COULD_NOT_UNMARSHAL, ERROR_CODE_DATA_NOT_VALID,
    ERROR_CODE_INTERNAL_DATABASE_ERROR, ERROR_CODE_COULD_NOT_FIND_RECORD, ERROR_CODE_TRAIN_NOT_STOPPED,
    ERROR_CODE_TRAIN_NOT_STARTED, ERROR_CODE_TRAIN_NOT_ONLINE, ERROR_CODE_TRAIN_NOT_STOP_AT_SIGNAL]

  /** The codes are the consecutive integers from 0, so each names one position of the table. */
  lemma ErrorCodesConsecutive()
    ensures |ErrorCodes| == 9
    ensures forall i :: 0 <= i < |ErrorCodes| ==> ErrorCodes[i] == i
  {
  }

  /**
   * `OkAndErrorCodeReturn`, without its extra data and message (the record's
   * JSON, the database's error text), which are not part of this model.
   */
  datatype Envelope = Envelope(ok: bool, errorCode: uint8)

  const Ok: Envelope := Envelope(true, ERROR_CODE_OK)

  function Fail(code: uint8): (e: Envelope)
    ensures !e.ok && e.errorCode == code
  {
    Envelope(false, code)
  }
}
