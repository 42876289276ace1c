/** `NSError`, the wrapper the crate uses for errors reported by the Metal framework. */
module Error {
  import opened ObjC
  import opened Wrappers
  import Raw

  /** The tuple struct `NSError(id)`. */
  datatype NSError = NSError(raw: Id)

  /** `NSError::new`: nil becomes `None`; any other handle is wrapped unchanged. */
  function New(raw: Id): (r: Option<NSError>)
    ensures r.None? <==> raw == Nil
    ensures r.Some? ==> r.value.raw == raw
  {
    if raw == Nil then None else Some(NSError(raw))
  }

  /**
   * Unlike `from_raw`, `NSError::new` asks the runtime nothing: it accepts a
   * handle exactly when `from_raw` would not report `NilPointer`, including
   * handles that `from_raw` rejects as being of the wrong type.
   */
  lemma NewVersusFromRaw(rt: Runtime, w: Raw.WrapperType, raw: Id)
    ensures New(raw).Some? <==> Raw.FromRaw(rt, w, raw) != Err(Raw.NilPointer)
    ensures Raw.FromRaw(rt, w, raw) == Err(Raw.WrongPointerType) ==> New(raw) == Some(NSError(raw))
  {
  }
}
