/** `Library`: the function lookups of a compiled shader library, and `LibraryError`. */
module Library {
  import opened ObjC
  import opened Wrappers
  import Raw
  import Error

  /** The `_IoError` payload is kept only as an opaque code. */
  datatype LibraryErrorType = SourceError | FromRaw(error: Raw.FromRawError) | IoError(ioError: nat)

  datatype LibraryError = LibraryError(nsError: Option<Error.NSError>, errorType: LibraryErrorType)

  /** `From<FromRawError> for LibraryError`. */
  function FromRawError(e: Raw.FromRawError): (r: LibraryError)
    ensures r.nsError.None? && r.errorType.FromRaw? && r.errorType.error == e
  {
    LibraryError(None, FromRaw(e))
  }

  /** Different conversion errors stay different once converted. */
  lemma FromRawErrorInjective(e1: Raw.FromRawError, e2: Raw.FromRawError)
    requires FromRawError(e1) == FromRawError(e2)
    ensures e1 == e2
  {
  }

  /**
   * The error built from the NSError a failed library creation reports. The
   * crate calls `LibraryError::from` on an `Option<NSError>` here; this model
   * reads it as the error carrying that NSError with the `SourceError` kind.
   */
  function FromNSError(nsError: Option<Error.NSError>): (r: LibraryError)
    ensures r.nsError == nsError && r.errorType == SourceError
  {
    LibraryError(nsError, SourceError)
  }

  /** The object pointer answer of `newFunctionWithName:`, nil when the library has no function of that name. */
  function NewFunctionWithName(rt: Runtime, fn: Id): (r: Option<Raw.Object>)
    ensures r.Some? <==> Raw.FromRaw(rt, Raw.Function, fn).Ok?
    ensures fn == Nil ==> r.None?
    ensures r.Some? ==> r.value == Raw.Object(Raw.Function, fn)
  {
    Raw.FromRaw(rt, Raw.Function, fn).ToOption()
  }

  /**
   * `function_names`: one entry per element of the `functionNames` array, in
   * array order. The array is given by the names its elements decode to.
   */
  method FunctionNames(namesArray: seq<string>) returns (namesVec: seq<string>)
    ensures |namesVec| == |namesArray|
    ensures forall i | 0 <= i < |namesArray| :: namesVec[i] == namesArray[i]
  {
    namesVec := [];
    for i := 0 to |namesArray|
      invariant |namesVec| == i
      invariant forall j | 0 <= j < i :: namesVec[j] == namesArray[j]
    {
      var name := namesArray[i];
      namesVec := namesVec + [name];
    }
  }
}
