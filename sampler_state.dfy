/**
 * `SamplerState` and `SamplerDescriptor`: the three sampler enum bridges, the
 * descriptor's properties with their getters and setters, and the documented
 * defaults and constraints of those properties.
 */
module SamplerState {
  import opened ObjC
  import opened Wrappers
  import opened Internal
  import Raw

  // SamplerAddressMode

  datatype SamplerAddressMode = ClampToEdge | Repeat | MirrorRepeat | ClampToZero

  /** `MTLSamplerAddressMode`: 0, 2, 3 and 4; there is no variant numbered 1. */
  type MTLSamplerAddressMode = t: int | t in {0, 2, 3, 4}

  const AddressArms: seq<Arm<SamplerAddressMode>> :=
    [Arm(ClampToEdge, 0), Arm(Repeat, 2), Arm(MirrorRepeat, 3), Arm(ClampToZero, 4)]

  lemma AddressArmsDistinct()
    ensures DistinctSafe(AddressArms) && DistinctForeign(AddressArms)
  {
  }

  lemma AddressArmsListSafe(v: SamplerAddressMode)
    ensures ListsSafe(AddressArms, v)
  {
    match v
    case ClampToEdge => assert AddressArms[0].safe == v;
    case Repeat => assert AddressArms[1].safe == v;
    case MirrorRepeat => assert AddressArms[2].safe == v;
    case ClampToZero => assert AddressArms[3].safe == v;
  }

  lemma AddressArmsListForeign(t: int)
    ensures ListsForeign(AddressArms, t) <==> t in {0, 2, 3, 4}
  {
  }

  function IntoAddressMode(v: SamplerAddressMode): MTLSamplerAddressMode
  {
    AddressArmsListSafe(v);
    var t := Into(AddressArms, v);
    AddressArmsListForeign(t);
    t
  }

  function FromAddressMode(t: MTLSamplerAddressMode): SamplerAddressMode
  {
    AddressArmsListForeign(t);
    From(AddressArms, t)
  }

  lemma AddressModeTags()
    ensures IntoAddressMode(ClampToEdge) == 0 && IntoAddressMode(Repeat) == 2
    ensures IntoAddressMode(MirrorRepeat) == 3 && IntoAddressMode(ClampToZero) == 4
    ensures FromAddressMode(0) == ClampToEdge && FromAddressMode(2) == Repeat
    ensures FromAddressMode(3) == MirrorRepeat && FromAddressMode(4) == ClampToZero
    ensures !ListsForeign(AddressArms, 1)
  {
    AddressArmsDistinct();
    Table(AddressArms);
    AddressArmsListForeign(1);
  }

  lemma AddressModeRoundTrip(v: SamplerAddressMode, t: MTLSamplerAddressMode)
    ensures FromAddressMode(IntoAddressMode(v)) == v
    ensures IntoAddressMode(FromAddressMode(t)) == t
  {
    AddressArmsDistinct();
    AddressArmsListSafe(v);
    AddressArmsListForeign(t);
    RoundTripSafe(AddressArms, v);
    RoundTripForeign(AddressArms, t);
  }

  // SamplerMinMagFilter

  datatype SamplerMinMagFilter = Nearest | Linear

  /** `MTLSamplerMinMagFilter`: 0 and 1. */
  type MTLSamplerMinMagFilter = t: int | 0 <= t <= 1

  const MinMagArms: seq<Arm<SamplerMinMagFilter>> := [Arm(Nearest, 0), Arm(Linear, 1)]

  lemma MinMagArmsDistinct()
    ensures DistinctSafe(MinMagArms) && DistinctForeign(MinMagArms)
  {
  }

  lemma MinMagArmsListSafe(v: SamplerMinMagFilter)
    ensures ListsSafe(MinMagArms, v)
  {
    match v
    case Nearest => assert MinMagArms[0].safe == v;
    case Linear => assert MinMagArms[1].safe == v;
  }

  lemma MinMagArmsListForeign(t: int)
    ensures ListsForeign(MinMagArms, t) <==> 0 <= t <= 1
  {
    if 0 <= t <= 1 {
      assert MinMagArms[t].foreign == t;
    }
  }

  function IntoMinMagFilter(v: SamplerMinMagFilter): MTLSamplerMinMagFilter
  {
    MinMagArmsListSafe(v);
    var t := Into(MinMagArms, v);
    MinMagArmsListForeign(t);
    t
  }

  function FromMinMagFilter(t: MTLSamplerMinMagFilter): SamplerMinMagFilter
  {
    MinMagArmsListForeign(t);
    From(MinMagArms, t)
  }

  lemma MinMagFilterTags()
    ensures IntoMinMagFilter(Nearest) == 0 && IntoMinMagFilter(Linear) == 1
    ensures FromMinMagFilter(0) == Nearest && FromMinMagFilter(1) == Linear
  {
    MinMagArmsDistinct();
    Table(MinMagArms);
  }

  lemma MinMagFilterRoundTrip(v: SamplerMinMagFilter, t: MTLSamplerMinMagFilter)
    ensures FromMinMagFilter(IntoMinMagFilter(v)) == v
    ensures IntoMinMagFilter(FromMinMagFilter(t)) == t
  {
    MinMagArmsDistinct();
    MinMagArmsListSafe(v);
    MinMagArmsListForeign(t);
    RoundTripSafe(MinMagArms, v);
    RoundTripForeign(MinMagArms, t);
  }

  // SamplerMipFilter

  datatype SamplerMipFilter = NotMipmapped | MipNearest | MipLinear

  /** `MTLSamplerMipFilter`: 0 to 2. */
  type MTLSamplerMipFilter = t: int | 0 <= t <= 2

  const MipArms: seq<Arm<SamplerMipFilter>> := [Arm(NotMipmapped, 0), Arm(MipNearest, 1), Arm(MipLinear, 2)]

  lemma MipArmsDistinct()
    ensures DistinctSafe(MipArms) && DistinctForeign(MipArms)
  {
  }

  lemma MipArmsListSafe(v: SamplerMipFilter)
    ensures ListsSafe(MipArms, v)
  {
    match v
    case NotMipmapped => assert MipArms[0].safe == v;
    case MipNearest => assert MipArms[1].safe == v;
    case MipLinear => assert MipArms[2].safe == v;
  }

  lemma MipArmsListForeign(t: int)
    ensures ListsForeign(MipArms, t) <==> 0 <= t <= 2
  {
    if 0 <= t <= 2 {
      assert MipArms[t].foreign == t;
    }
  }

  function IntoMipFilter(v: SamplerMipFilter): MTLSamplerMipFilter
  {
    MipArmsListSafe(v);
    var t := Into(MipArms, v);
    MipArmsListForeign(t);
    t
  }

  function FromMipFilter(t: MTLSamplerMipFilter): SamplerMipFilter
  {
    MipArmsListForeign(t);
    From(MipArms, t)
  }

  lemma MipFilterTags()
    ensures IntoMipFilter(NotMipmapped) == 0 && IntoMipFilter(MipNearest) == 1 && IntoMipFilter(MipLinear) == 2
    ensures FromMipFilter(0) == NotMipmapped && FromMipFilter(1) == MipNearest && FromMipFilter(2) == MipLinear
  {
    MipArmsDistinct();
    Table(MipArms);
  }

  lemma MipFilterRoundTrip(v: SamplerMipFilter, t: MTLSamplerMipFilter)
    ensures FromMipFilter(IntoMipFilter(v)) == v
    ensures IntoMipFilter(FromMipFilter(t)) == t
  {
    MipArmsDistinct();
    MipArmsListSafe(v);
    MipArmsListForeign(t);
    RoundTripSafe(MipArms, v);
    RoundTripForeign(MipArms, t);
  }

  // Descriptor

  /** `MTLCompareFunction`: Never = 0 up to Always = 7. */
  type MTLCompareFunction = t: int | 0 <= t <= 7

  const MTLCompareFunctionNever: MTLCompareFunction := 0

  /**
   * The conditions under which non-normalized texture coordinates may be
   * used: clamping address modes, no mipmapping, equal minification and
   * magnification filters, and an anisotropy of one.
   */
  predicate NonNormalizedAllowed(r: SamplerAddressMode, s: SamplerAddressMode, t: SamplerAddressMode,
                                 min: SamplerMinMagFilter, mag: SamplerMinMagFilter, mip: SamplerMipFilter,
                                 maxAnisotropy: int)
  {
    (r == ClampToEdge || r == ClampToZero) && (s == ClampToEdge || s == ClampToZero)
    && (t == ClampToEdge || t == ClampToZero)
    && mip == NotMipmapped && min == mag && maxAnisotropy == 1
  }

  /** The state of a sampler descriptor object: its properties as the runtime stores them. */
  class SamplerDescriptor {
    var rAddressMode: MTLSamplerAddressMode
    var sAddressMode: MTLSamplerAddressMode
    var tAddressMode: MTLSamplerAddressMode
    var minFilter: MTLSamplerMinMagFilter
    var magFilter: MTLSamplerMinMagFilter
    var mipFilter: MTLSamplerMipFilter
    var lodAverage: BOOL
    var maxAnisotropy: NSUInteger
    var normalizedCoordinates: BOOL
    var compareFunction: MTLCompareFunction

    /** A new descriptor holds the documented defaults (the initial `lodAverage` is not documented). */
    constructor ()
      ensures RAddressMode() == SAddressMode() == TAddressMode() == ClampToEdge
      ensures MinFilter() == MagFilter() == Nearest && MipFilter() == NotMipmapped
      ensures MaxAnisotropy() == 1 && AnisotropyInRange()
      ensures HasNormalizedCoordinates() && compareFunction == MTLCompareFunctionNever
      ensures NonNormalizedCoordinatesAllowed()
    {
      rAddressMode, sAddressMode, tAddressMode := 0, 0, 0;
      minFilter, magFilter, mipFilter := 0, 0, 0;
      lodAverage := NO;
      maxAnisotropy := 1;
      normalizedCoordinates := YES;
      compareFunction := MTLCompareFunctionNever;
      new;
      AddressModeTags();
      MinMagFilterTags();
      MipFilterTags();
    }

    /** `maxAnisotropy` must lie between 1 and 16; the setter does not check it. */
    predicate AnisotropyInRange()
      reads this
    {
      1 <= maxAnisotropy <= 16
    }

    predicate NonNormalizedCoordinatesAllowed()
      reads this
    {
      NonNormalizedAllowed(RAddressMode(), SAddressMode(), TAddressMode(), MinFilter(), MagFilter(), MipFilter(), maxAnisotropy)
    }

    function RAddressMode(): SamplerAddressMode
      reads this
    {
      FromAddressMode(rAddressMode)
    }

    method SetRAddressMode(mode: SamplerAddressMode)
      modifies this`rAddressMode
      ensures rAddressMode == IntoAddressMode(mode) && RAddressMode() == mode
    {
      rAddressMode := IntoAddressMode(mode);
      AddressModeRoundTrip(mode, 0);
    }

    function SAddressMode(): SamplerAddressMode
      reads this
    {
      FromAddressMode(sAddressMode)
    }

    method SetSAddressMode(mode: SamplerAddressMode)
      modifies this`sAddressMode
      ensures sAddressMode == IntoAddressMode(mode) && SAddressMode() == mode
    {
      sAddressMode := IntoAddressMode(mode);
      AddressModeRoundTrip(mode, 0);
    }

    function TAddressMode(): SamplerAddressMode
      reads this
    {
      FromAddressMode(tAddressMode)
    }

    method SetTAddressMode(mode: SamplerAddressMode)
      modifies this`tAddressMode
      ensures tAddressMode == IntoAddressMode(mode) && TAddressMode() == mode
    {
      tAddressMode := IntoAddressMode(mode);
      AddressModeRoundTrip(mode, 0);
    }

    function MinFilter(): SamplerMinMagFilter
      reads this
    {
      FromMinMagFilter(minFilter)
    }

    method SetMinFilter(filter: SamplerMinMagFilter)
      modifies this`minFilter
      ensures minFilter == IntoMinMagFilter(filter) && MinFilter() == filter
    {
      minFilter := IntoMinMagFilter(filter);
      MinMagFilterRoundTrip(filter, 0);
    }

    function MagFilter(): SamplerMinMagFilter
      reads this
    {
      FromMinMagFilter(magFilter)
    }

    method SetMagFilter(filter: SamplerMinMagFilter)
      modifies this`magFilter
      ensures magFilter == IntoMinMagFilter(filter) && MagFilter() == filter
    {
      magFilter := IntoMinMagFilter(filter);
      MinMagFilterRoundTrip(filter, 0);
    }

    function MipFilter(): SamplerMipFilter
      reads this
    {
      FromMipFilter(mipFilter)
    }

    method SetMipFilter(filter: SamplerMipFilter)
      modifies this`mipFilter
      ensures mipFilter == IntoMipFilter(filter) && MipFilter() == filter
    {
      mipFilter := IntoMipFilter(filter);
      MipFilterRoundTrip(filter, 0);
    }

    /** `lod_average`: true only for the BOOL value YES. */
    function LodAverage(): (b: bool)
      reads this
      ensures b <==> lodAverage == YES
    {
      lodAverage == YES
    }

    method SetLodAverage(b: bool)
      modifies this`lodAverage
      ensures lodAverage == FromBool(b) && LodAverage() == b
    {
      lodAverage := FromBool(b);
    }

    function MaxAnisotropy(): USize
      reads this
    {
      maxAnisotropy
    }

    method SetMaxAnisotropy(anisotropy: USize)
      modifies this`maxAnisotropy
      ensures maxAnisotropy == anisotropy && MaxAnisotropy() == anisotropy
    {
      maxAnisotropy := anisotropy;
    }

    /** `has_normalized_coordinates`: true only for the BOOL value YES. */
    function HasNormalizedCoordinates(): (b: bool)
      reads this
      ensures b <==> normalizedCoordinates == YES
    {
      normalizedCoordinates == YES
    }

    method SetHasNormalizedCoordinates(b: bool)
      modifies this`normalizedCoordinates
      ensures normalizedCoordinates == FromBool(b) && HasNormalizedCoordinates() == b
    {
      normalizedCoordinates := FromBool(b);
    }
  }

  /**
   * The BOOL getters compare with `YES`, so a descriptor holding `NO` or any
   * other BOOL value (2, say, or -1) reads as false, and only `YES` reads as
   * true; a value read and stored back through the setter becomes `NO` or `YES`.
   */
  lemma BoolPropertyRoundTrip(d: SamplerDescriptor)
    ensures d.lodAverage != YES ==> !d.LodAverage() && FromBool(d.LodAverage()) == NO
    ensures d.lodAverage == YES ==> d.LodAverage() && FromBool(d.LodAverage()) == YES
    ensures d.normalizedCoordinates != YES ==> !d.HasNormalizedCoordinates() && FromBool(d.HasNormalizedCoordinates()) == NO
    ensures d.normalizedCoordinates == YES ==> d.HasNormalizedCoordinates() && FromBool(d.HasNormalizedCoordinates()) == YES
  {
  }

  /** `SamplerDescriptor::new`: `from_raw` on the freshly allocated descriptor, then `unwrap`. */
  function New(rt: Runtime, created: Id): (r: Outcome<Raw.Object>)
    ensures r.Returned? <==> Raw.FromRaw(rt, Raw.SamplerDescriptor, created).Ok?
    ensures r.Returned? ==> r.value == Raw.Object(Raw.SamplerDescriptor, created)
  {
    match Raw.FromRaw(rt, Raw.SamplerDescriptor, created)
    case Ok(d) => Returned(d)
    case Err(_) => Panicked
  }

  /**
   * Through the class arm, `new` panics exactly when the allocation failed or
   * the runtime reports the object to be a sampler descriptor, as it does for
   * a freshly allocated one.
   */
  lemma NewPanicsOnGenuineDescriptor(rt: Runtime, created: Id)
    ensures New(rt, created) == Panicked <==> created == Nil || rt.IsInstanceOf(created, "MTLSamplerDescriptor")
  {
    if created != Nil {
      Raw.ClassArm(rt, Raw.SamplerDescriptor, created);
    }
  }

  /**
   * `clone`: the runtime's `copy` of the descriptor goes through the same
   * class-arm `from_raw` and `unwrap` as `new`, so the clone panics when the
   * copy is nil or is reported to be a sampler descriptor.
   */
  function Clone(rt: Runtime, copy: Id): (r: Outcome<Raw.Object>)
    ensures r.Returned? <==> copy != Nil && !rt.IsInstanceOf(copy, "MTLSamplerDescriptor")
    ensures r.Returned? ==> r.value == Raw.Object(Raw.SamplerDescriptor, copy)
  {
    NewPanicsOnGenuineDescriptor(rt, copy);
    New(rt, copy)
  }

  /** The sampler state is checked through the protocol arm and the descriptor through the class arm. */
  lemma SamplerWrapperArms(rt: Runtime, h: Id)
    requires h != Nil
    ensures Raw.FromRaw(rt, Raw.SamplerState, h).Ok? <==> rt.conformsTo(h, "MTLSamplerState")
    ensures Raw.FromRaw(rt, Raw.SamplerDescriptor, h).Ok? <==> !rt.IsInstanceOf(h, "MTLSamplerDescriptor")
  {
    Raw.ProtocolArm(rt, Raw.SamplerState, h);
    Raw.ClassArm(rt, Raw.SamplerDescriptor, h);
  }
}
