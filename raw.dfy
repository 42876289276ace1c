/**
 * The conversion contract between wrappers and Objective-C object pointers:
 * `FromRaw`, `AsRaw`, `IntoRaw`, the `FromRawError` they report, and the two
 * arms of `impl_from_into_raw!` that implement them for every wrapper type.
 */
module Raw {
  import opened ObjC
  import opened Wrappers
  import Internal

  datatype FromRawError = NilPointer | WrongPointerType

  /** The `Display` text of an error. */
  function Display(e: FromRawError): string
  {
    match e
    case NilPointer => "FromRawError::NilPointer"
    case WrongPointerType => "FromRawError::WrongPointerType"
  }

  /** `Error::description`. */
  function Description(e: FromRawError): string
  {
    match e
    case NilPointer => "Attempted to create an object from nil"
    case WrongPointerType => "The object pointer is not of the correct class"
  }

  /** The two variants are told apart by their `Display` text and by their description. */
  lemma ErrorTextsDistinct(e1: FromRawError, e2: FromRawError)
    ensures Display(e1) == Display(e2) <==> e1 == e2
    ensures Description(e1) == Description(e2) <==> e1 == e2
  {
    if e1 != e2 {
      assert |Display(e1)| != |Display(e2)|;
      assert |Description(e1)| != |Description(e2)|;
    }
  }

  /** Which macro arm a wrapper was declared with, and the name it passes to the validator. */
  datatype Expectation = OfProtocol(protocol: string) | OfClass(className: string)

  /** Every wrapper type declared with `impl_from_into_raw!`. */
  datatype WrapperType =
    | Device | Library | Function | Texture | Resource | SamplerState | SamplerDescriptor
    | CommandEncoder | RenderCommandEncoder | ComputeCommandEncoder | ParallelRenderCommandEncoder
    | RenderPipelineState | DepthStencilState
    | RenderPassDescriptor | RenderPassAttachmentDescriptor | RenderPathDepthAttachmentDescriptor
    | RenderPassStencilAttachmentDescriptor | RenderPassColorAttachmentDescriptor
    | RenderPassColorAttachmentDescriptorArray
    | StructType | StructMember | ArrayType

  /** The macro invocations, wrapper by wrapper, with the names exactly as written. */
  function Declared(w: WrapperType): Expectation
  {
    match w
    case Device => OfProtocol("MTLDevice")
    case Library => OfProtocol("MTLLibrary")
    case Function => OfProtocol("MTLFunction")
    case Texture => OfProtocol("MTLTexture")
    case Resource => OfProtocol("MTLResource")
    case SamplerState => OfProtocol("MTLSamplerState")
    case SamplerDescriptor => OfClass("MTLSamplerDescriptor")
    case CommandEncoder => OfProtocol("MTLCommandEncoder")
    case RenderCommandEncoder => OfProtocol("MTLRenderCommandEncoder")
    case ComputeCommandEncoder => OfProtocol("MTLComputeCommandEncoder")
    case ParallelRenderCommandEncoder => OfProtocol("MTLRenderCommandEncoder")
    case RenderPipelineState => OfProtocol("MTLRenderPipelineState")
    case DepthStencilState => OfProtocol("MTLDepthStencilState")
    case RenderPassDescriptor => OfClass("MTLRenderPassDescriptor")
    case RenderPassAttachmentDescriptor => OfClass("MTLRenderPassAttachmentDescriptor")
    case RenderPathDepthAttachmentDescriptor => OfClass("MTLRenderPathDepthAttachmentDescriptor")
    case RenderPassStencilAttachmentDescriptor => OfClass("MTLRenderPassStencilAttachmentDescriptor")
    case RenderPassColorAttachmentDescriptor => OfClass("MTLRenderPassColorAttachmentDescriptor")
    case RenderPassColorAttachmentDescriptorArray => OfClass("RenderPassColorAttachmentDescriptorArray")
    case StructType => OfClass("MTLStructType")
    case StructMember => OfClass("MTLStructMember")
    case ArrayType => OfClass("MTLArrayType")
  }

  /** A value of a wrapper type: the tuple struct `Wrapper(raw)`. */
  datatype Object = Object(wrapper: WrapperType, raw: Id)

  /** What the runtime itself says about the object: the notion the `WrongPointerType` documentation uses. */
  predicate Satisfies(rt: Runtime, e: Expectation, h: Id)
  {
    match e
    case OfProtocol(p) => rt.conformsTo(h, p)
    case OfClass(c) => rt.IsInstanceOf(h, c)
  }

  /** The condition in the `else if` of the arm the wrapper was declared with. */
  function Rejects(rt: Runtime, e: Expectation, h: Id): bool
  {
    match e
    case OfProtocol(p) => Internal.ConformsToProtocol(rt, h, p)
    case OfClass(c) => Internal.IsKindOfClass(rt, h, c)
  }

  /**
   * `from_raw` as both macro arms write it: nil first, then the validator,
   * then the wrapper around the handle.
   */
  function FromRaw(rt: Runtime, w: WrapperType, h: Id): (r: Result<Object, FromRawError>)
    ensures h == Nil <==> r == Err(NilPointer)
    ensures r.Ok? ==> r.value == Object(w, h)
  {
    if h == Nil then Err(NilPointer)
    else if Rejects(rt, Declared(w), h) then Err(WrongPointerType)
    else Ok(Object(w, h))
  }

  /** `as_raw`: the stored handle. */
  function AsRaw(o: Object): Id
  {
    o.raw
  }

  /** `into_raw`: gives up the wrapper and returns the stored handle. */
  function IntoRaw(o: Object): Id
  {
    o.raw
  }

  /** Storing `h` through the reference `as_raw_mut` hands out: only the handle changes, and nothing is validated. */
  function StoreThroughRawMut(o: Object, h: Id): (o': Object)
    ensures o'.wrapper == o.wrapper && AsRaw(o') == h && IntoRaw(o') == h
  {
    o.(raw := h)
  }

  /** A nil handle is rejected as `NilPointer` by every wrapper, whatever the runtime would answer: it is never queried. */
  lemma NilNeverQueried(rt1: Runtime, rt2: Runtime, w: WrapperType)
    ensures FromRaw(rt1, w, Nil) == FromRaw(rt2, w, Nil) == Err(NilPointer)
  {
  }

  /** A non-nil handle never yields `NilPointer`, and its result depends only on the validator. */
  lemma NonNilAsksValidator(rt: Runtime, w: WrapperType, h: Id)
    requires h != Nil
    ensures FromRaw(rt, w, h) == Err(WrongPointerType) <==> Rejects(rt, Declared(w), h)
    ensures FromRaw(rt, w, h).Ok? <==> !Rejects(rt, Declared(w), h)
  {
  }

  /** Protocol arm: the double inversion makes `Ok` coincide with the runtime reporting conformance. */
  lemma ProtocolArm(rt: Runtime, w: WrapperType, h: Id)
    requires h != Nil && Declared(w).OfProtocol?
    ensures FromRaw(rt, w, h).Ok? <==> rt.conformsTo(h, Declared(w).protocol)
    ensures FromRaw(rt, w, h) == Err(WrongPointerType) <==> !rt.conformsTo(h, Declared(w).protocol)
  {
  }

  /** Class arm as written: `WrongPointerType` exactly when the object IS of the named class. */
  lemma ClassArm(rt: Runtime, w: WrapperType, h: Id)
    requires h != Nil && Declared(w).OfClass?
    ensures FromRaw(rt, w, h) == Err(WrongPointerType) <==> rt.IsInstanceOf(h, Declared(w).className)
    ensures FromRaw(rt, w, h).Ok? <==> !rt.IsInstanceOf(h, Declared(w).className)
  {
  }

  /**
   * The documented contract fails for every class-arm wrapper: a genuine
   * instance of the named class is reported as `WrongPointerType`.
   */
  lemma ClassArmRejectsGenuineInstance(rt: Runtime, w: WrapperType, h: Id)
    requires h != Nil && Declared(w).OfClass? && Satisfies(rt, Declared(w), h)
    ensures FromRaw(rt, w, h) == Err(WrongPointerType)
  {
  }

  /**
   * A concrete instance: a runtime that registers a class (object 1) under
   * every name and answers yes to every question, where the genuine sampler
   * descriptor 1 is rejected.
   */
  lemma SamplerDescriptorCounterexample()
    ensures Satisfies(Runtime((h, n) => true, (h, n) => true, n => 1), Declared(SamplerDescriptor), 1)
    ensures FromRaw(Runtime((h, n) => true, (h, n) => true, n => 1), SamplerDescriptor, 1) == Err(WrongPointerType)
  {
  }

  /** The class arm with the validator's answer negated, as the `WrongPointerType` documentation describes. */
  function RejectsIntended(rt: Runtime, e: Expectation, h: Id): bool
  {
    match e
    case OfProtocol(p) => Internal.ConformsToProtocol(rt, h, p)
    case OfClass(c) => !Internal.IsKindOfClass(rt, h, c)
  }

  function FromRawIntended(rt: Runtime, w: WrapperType, h: Id): (r: Result<Object, FromRawError>)
    ensures h == Nil <==> r == Err(NilPointer)
    ensures r.Ok? ==> r.value == Object(w, h)
  {
    if h == Nil then Err(NilPointer)
    else if RejectsIntended(rt, Declared(w), h) then Err(WrongPointerType)
    else Ok(Object(w, h))
  }

  /** The corrected conversion meets the documentation for every wrapper: `WrongPointerType` exactly when the runtime denies. */
  lemma IntendedContract(rt: Runtime, w: WrapperType, h: Id)
    requires h != Nil
    ensures FromRawIntended(rt, w, h).Ok? <==> Satisfies(rt, Declared(w), h)
    ensures FromRawIntended(rt, w, h) == Err(WrongPointerType) <==> !Satisfies(rt, Declared(w), h)
  {
  }

  /** The correction changes nothing for protocol wrappers, and flips the outcome of every non-nil handle for class wrappers. */
  lemma IntendedVersusWritten(rt: Runtime, w: WrapperType, h: Id)
    ensures Declared(w).OfProtocol? ==> FromRawIntended(rt, w, h) == FromRaw(rt, w, h)
    ensures Declared(w).OfClass? && h != Nil ==> FromRawIntended(rt, w, h).Ok? != FromRaw(rt, w, h).Ok?
  {
  }

  /** On success the wrapper stores exactly the handle it was given. */
  lemma RoundTrip(rt: Runtime, w: WrapperType, h: Id)
    requires FromRaw(rt, w, h).Ok?
    ensures AsRaw(FromRaw(rt, w, h).value) == h
    ensures IntoRaw(FromRaw(rt, w, h).value) == h
    ensures FromRaw(rt, w, h).value.wrapper == w
  {
  }
}
