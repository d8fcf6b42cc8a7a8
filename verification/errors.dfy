/** Codec outcomes, public result codes, and the mapping between them (GetError). */
module Errors {

  /**
   * A CodecError as a codec or a worker's exit code reports it. `CeOther(code)` stands for
   * a raw value that is none of CE_OK, CE_Aborted and CE_Unknown: a worker's exit code is
   * an arbitrary DWORD cast to CodecError, and FromExitCode below is that cast.
   */
  datatype CodecError = CeOk | CeAborted | CeUnknown | CeOther(code: int)

  /** The numeric values of CE_OK, CE_Unknown and CE_Aborted (defined in the codec header). */
  datatype CodecNumbering = CodecNumbering(ok: int, unknown: int, aborted: int)

  predicate DistinctNumbering(n: CodecNumbering) {
    n.ok != n.unknown && n.ok != n.aborted && n.unknown != n.aborted
  }

  /**
   * `(CodecError) dwExitCode` (line 433): the three named values become their constructors,
   * and any other value is kept as `CeOther`, which then never denotes a named code.
   */
  function FromExitCode(raw: int, n: CodecNumbering): (e: CodecError)
    requires DistinctNumbering(n)
    ensures e == CeOk <==> raw == n.ok
    ensures e == CeAborted <==> raw == n.aborted
    ensures e == CeUnknown <==> raw == n.unknown
    ensures e.CeOther? ==> e.code == raw && raw != n.ok && raw != n.unknown && raw != n.aborted
  {
    if raw == n.ok then CeOk
    else if raw == n.aborted then CeAborted
    else if raw == n.unknown then CeUnknown
    else CeOther(raw)
  }

  /** The CMP_ERROR values this part of the library returns. */
  datatype CmpError =
    | Ok
    | Aborted
    | GenericError
    | InvalidSourceTexture
    | InvalidDestTexture
    | UnsupportedSourceFormat
    | UnsupportedDestFormat
    | UnableToInitCodec

  /** GetError: success and cancellation are kept, every other outcome is a generic error. */
  function GetError(err: CodecError): (r: CmpError)
    ensures r == Ok <==> err == CeOk
    ensures r == Aborted <==> err == CeAborted
    ensures r == GenericError <==> err != CeOk && err != CeAborted
  {
    match err
    case CeOk => Ok
    case CeAborted => Aborted
    case CeUnknown => GenericError
    case CeOther(_) => GenericError
  }

  /** A raw exit code gives CMP_OK exactly when it is CE_OK's value, and CMP_ABORTED exactly for CE_Aborted's. */
  lemma GetErrorOfExitCode(raw: int, n: CodecNumbering)
    requires DistinctNumbering(n)
    ensures GetError(FromExitCode(raw, n)) == Ok <==> raw == n.ok
    ensures GetError(FromExitCode(raw, n)) == Aborted <==> raw == n.aborted
    ensures GetError(FromExitCode(raw, n)) == GenericError <==> raw != n.ok && raw != n.aborted
  {
  }
}
