/**
 * `Texture`: creating texture views, the guard and buffer sizing around the
 * byte copies, the size and parent queries, and the `TextureType` and
 * `TextureUsage` bridges.
 */
module Texture {
  import opened ObjC
  import opened Wrappers
  import opened Internal
  import Raw
  import opened MtlFunctions
  import opened ValueTypes

  // TextureType

  datatype TextureType = Type1D | Type1DArray | Type2D | Type2DArray | Type2DMultisample | TypeCube | Type3D

  /** `MTLTextureType`: 0 to 5 and 7; there is no variant numbered 6. */
  type MTLTextureType = t: int | t in {0, 1, 2, 3, 4, 5, 7}

  const TypeArms: seq<Arm<TextureType>> := [
    Arm(Type1D, 0), Arm(Type1DArray, 1), Arm(Type2D, 2), Arm(Type2DArray, 3),
    Arm(Type2DMultisample, 4), Arm(TypeCube, 5), Arm(Type3D, 7)
  ]

  lemma TypeArmsDistinct()
    ensures DistinctSafe(TypeArms) && DistinctForeign(TypeArms)
  {
  }

  lemma TypeArmsListSafe(v: TextureType)
    ensures ListsSafe(TypeArms, v)
  {
    match v
    case Type1D => assert TypeArms[0].safe == v;
    case Type1DArray => assert TypeArms[1].safe == v;
    case Type2D => assert TypeArms[2].safe == v;
    case Type2DArray => assert TypeArms[3].safe == v;
    case Type2DMultisample => assert TypeArms[4].safe == v;
    case TypeCube => assert TypeArms[5].safe == v;
    case Type3D => assert TypeArms[6].safe == v;
  }

  /** The generated `From` covers exactly the foreign variants; tag 6 has no arm. */
  lemma TypeArmsListForeign(t: int)
    ensures ListsForeign(TypeArms, t) <==> t in {0, 1, 2, 3, 4, 5, 7}
  {
  }

  function IntoTextureType(v: TextureType): MTLTextureType
  {
    TypeArmsListSafe(v);
    var t := Into(TypeArms, v);
    TypeArmsListForeign(t);
    t
  }

  function FromTextureType(t: MTLTextureType): TextureType
  {
    TypeArmsListForeign(t);
    From(TypeArms, t)
  }

  lemma TextureTypeTags()
    ensures IntoTextureType(Type1D) == 0 && IntoTextureType(Type1DArray) == 1
    ensures IntoTextureType(Type2D) == 2 && IntoTextureType(Type2DArray) == 3
    ensures IntoTextureType(Type2DMultisample) == 4 && IntoTextureType(TypeCube) == 5
    ensures IntoTextureType(Type3D) == 7
    ensures !ListsForeign(TypeArms, 6)
  {
    TypeArmsDistinct();
    Table(TypeArms);
    TypeArmsListForeign(6);
  }

  lemma TextureTypeRoundTrip(v: TextureType, t: MTLTextureType)
    ensures FromTextureType(IntoTextureType(v)) == v
    ensures IntoTextureType(FromTextureType(t)) == t
  {
    TypeArmsDistinct();
    TypeArmsListSafe(v);
    TypeArmsListForeign(t);
    RoundTripSafe(TypeArms, v);
    RoundTripForeign(TypeArms, t);
  }

  // TextureUsage

  datatype TextureUsage = Unknown | ShaderRead | ShaderWrite | RenderTarget | PixelFormatView

  /** `MTLTextureUsage`: 0 and the single bits 1, 2, 4 and 0x10. */
  type MTLTextureUsage = t: int | t in {0x0, 0x1, 0x2, 0x4, 0x10}

  const UsageArms: seq<Arm<TextureUsage>> := [
    Arm(Unknown, 0x0), Arm(ShaderRead, 0x1), Arm(ShaderWrite, 0x2), Arm(RenderTarget, 0x4), Arm(PixelFormatView, 0x10)
  ]

  lemma UsageArmsDistinct()
    ensures DistinctSafe(UsageArms) && DistinctForeign(UsageArms)
  {
  }

  lemma UsageArmsListSafe(v: TextureUsage)
    ensures ListsSafe(UsageArms, v)
  {
    match v
    case Unknown => assert UsageArms[0].safe == v;
    case ShaderRead => assert UsageArms[1].safe == v;
    case ShaderWrite => assert UsageArms[2].safe == v;
    case RenderTarget => assert UsageArms[3].safe == v;
    case PixelFormatView => assert UsageArms[4].safe == v;
  }

  lemma UsageArmsListForeign(t: int)
    ensures ListsForeign(UsageArms, t) <==> t in {0x0, 0x1, 0x2, 0x4, 0x10}
  {
  }

  function IntoTextureUsage(v: TextureUsage): MTLTextureUsage
  {
    UsageArmsListSafe(v);
    var t := Into(UsageArms, v);
    UsageArmsListForeign(t);
    t
  }

  function FromTextureUsage(t: MTLTextureUsage): TextureUsage
  {
    UsageArmsListForeign(t);
    From(UsageArms, t)
  }

  lemma TextureUsageTags()
    ensures IntoTextureUsage(Unknown) == 0 && IntoTextureUsage(ShaderRead) == 1
    ensures IntoTextureUsage(ShaderWrite) == 2 && IntoTextureUsage(RenderTarget) == 4
    ensures IntoTextureUsage(PixelFormatView) == 0x10
  {
    UsageArmsDistinct();
    Table(UsageArms);
  }

  lemma TextureUsageRoundTrip(v: TextureUsage, t: MTLTextureUsage)
    ensures FromTextureUsage(IntoTextureUsage(v)) == v
    ensures IntoTextureUsage(FromTextureUsage(t)) == t
  {
    UsageArmsDistinct();
    UsageArmsListSafe(v);
    UsageArmsListForeign(t);
    RoundTripSafe(UsageArms, v);
    RoundTripForeign(UsageArms, t);
  }

  // Queries

  /** What the runtime answers about one texture object. */
  datatype TextureProps = TextureProps(
    width: NSUInteger, height: NSUInteger, depth: NSUInteger,
    textureType: MTLTextureType, usage: MTLTextureUsage,
    rootResource: Id, parentTexture: Id)

  /** `texture_type`. */
  function GetTextureType(props: TextureProps): (r: TextureType)
    ensures IntoTextureType(r) == props.textureType
  {
    TextureTypeRoundTrip(Type1D, props.textureType);
    FromTextureType(props.textureType)
  }

  /** `usage`. */
  function GetUsage(props: TextureProps): (r: TextureUsage)
    ensures IntoTextureUsage(r) == props.usage
  {
    TextureUsageRoundTrip(Unknown, props.usage);
    FromTextureUsage(props.usage)
  }

  /** `size`: the width, height and depth the runtime reports, in that order. */
  function GetSize(props: TextureProps): (r: Size)
    ensures r == Size(props.width, props.height, props.depth)
  {
    SizeNew(props.width, props.height, props.depth)
  }

  /** `root_resource`: `None` whenever `from_raw` rejects the answer, in particular when it is nil. */
  function RootResource(rt: Runtime, props: TextureProps): (r: Option<Raw.Object>)
    ensures r.Some? <==> Raw.FromRaw(rt, Raw.Resource, props.rootResource).Ok?
    ensures props.rootResource == Nil ==> r.None?
    ensures r.Some? ==> r.value == Raw.Object(Raw.Resource, props.rootResource)
  {
    Raw.FromRaw(rt, Raw.Resource, props.rootResource).ToOption()
  }

  /** `parent_texture`: `None` whenever `from_raw` rejects the answer, in particular when it is nil. */
  function ParentTexture(rt: Runtime, props: TextureProps): (r: Option<Raw.Object>)
    ensures r.Some? <==> Raw.FromRaw(rt, Raw.Texture, props.parentTexture).Ok?
    ensures props.parentTexture == Nil ==> r.None?
    ensures r.Some? ==> r.value == Raw.Object(Raw.Texture, props.parentTexture)
  {
    Raw.FromRaw(rt, Raw.Texture, props.parentTexture).ToOption()
  }

  // Byte transfers

  /** The message `replace_region` sends when its guard lets the write through. */
  datatype ReplaceRegionCall = ReplaceRegionCall(region: MTLRegion, mipmapLevel: NSUInteger, bytes: seq<bv8>, bytesPerRow: NSUInteger)

  /**
   * `replace_region`: the write is issued only when the byte count is a whole
   * number of rows; otherwise nothing happens. A zero row length panics on the
   * remainder.
   */
  function ReplaceRegion(mipmapLevel: USize, region: Region, bytes: seq<bv8>, bytesPerRow: USize): (r: Outcome<Option<ReplaceRegionCall>>)
    ensures r.Panicked? <==> bytesPerRow == 0
    ensures r.Returned? ==> (r.value.Some? <==> |bytes| % bytesPerRow == 0)
    ensures r.Returned? && r.value.Some? ==>
      r.value.value == ReplaceRegionCall(RegionIntoMTL(region), mipmapLevel, bytes, bytesPerRow)
  {
    if bytesPerRow == 0 then Panicked
    else if |bytes| % bytesPerRow != 0 then Returned(None)
    else Returned(Some(ReplaceRegionCall(RegionIntoMTL(region), mipmapLevel, bytes, bytesPerRow)))
  }

  /**
   * The guard looks at the byte count and the row length only, never at the
   * region: an empty byte slice passes it for a region of any extent, and the
   * write is sent with no bytes behind it.
   */
  lemma ReplaceRegionIgnoresRegionExtent(mipmapLevel: USize, region: Region, bytesPerRow: USize)
    requires bytesPerRow != 0
    ensures ReplaceRegion(mipmapLevel, region, [], bytesPerRow)
            == Returned(Some(ReplaceRegionCall(RegionIntoMTL(region), mipmapLevel, [], bytesPerRow)))
  {
  }

  /** The number of bytes `get_bytes` makes room for: `width * height * depth` in `usize` arithmetic. */
  function BytesNeeded(props: TextureProps): (n: USize)
    ensures props.width * props.height * props.depth < U64_LIMIT ==> n == props.width * props.height * props.depth
  {
    WrapU64(props.width * props.height * props.depth)
  }

  /** `Vec::resize`: truncate to `n`, or extend to `n` with copies of `value`. */
  function Resized(s: seq<bv8>, n: nat, value: bv8): (r: seq<bv8>)
    ensures |r| == n
    ensures forall i | 0 <= i < n && i < |s| :: r[i] == s[i]
    ensures forall i | |s| <= i < n :: r[i] == value
  {
    if n <= |s| then s[..n] else s + seq(n - |s|, _ => value)
  }

  /** The caller's byte vector, which `get_bytes` resizes in place. */
  class ByteVec {
    var contents: seq<bv8>

    constructor (init: seq<bv8>)
      ensures contents == init
    {
      contents := init;
    }

    method Resize(n: nat, value: bv8)
      modifies this
      ensures contents == Resized(old(contents), n, value)
    {
      contents := Resized(contents, n, value);
    }

    /** The runtime writing through `as_mut_ptr`: `copy` gives the new contents, of the same length. */
    method CopyFromRuntime(copy: seq<bv8> -> seq<bv8>)
      requires forall buffer :: |copy(buffer)| == |buffer|
      modifies this
      ensures contents == copy(old(contents))
      ensures |contents| == |old(contents)|
    {
      contents := copy(contents);
    }

    /** Releases spare capacity; the elements are unchanged. */
    method ShrinkToFit()
      modifies this
      ensures contents == old(contents)
    {
    }
  }

  /**
   * `get_bytes`: the vector is resized to exactly the texture's element count,
   * zero-filled, and then handed to the runtime, which copies the texture's
   * bytes into it. `copy` is that runtime copy: it keeps the buffer's length
   * and decides its contents.
   */
  method GetBytes(props: TextureProps, bytesStorage: ByteVec, bytesPerRow: USize, region: Region, mipmapLevel: USize,
                  copy: seq<bv8> -> seq<bv8>)
    requires forall buffer :: |copy(buffer)| == |buffer|
    modifies bytesStorage
    ensures |bytesStorage.contents| == BytesNeeded(props)
    ensures bytesStorage.contents == copy(Resized(old(bytesStorage.contents), BytesNeeded(props), 0))
  {
    bytesStorage.Resize(BytesNeeded(props), 0);
    bytesStorage.CopyFromRuntime(copy);
    bytesStorage.ShrinkToFit();
  }

  /** `get_bytes_at_slice`: the same sizing and copy as `get_bytes`, from one slice. */
  method GetBytesAtSlice(props: TextureProps, bytesStorage: ByteVec, bytesPerRow: USize, bytesPerImage: USize,
                         region: Region, mipmapLevel: USize, slice: USize, copy: seq<bv8> -> seq<bv8>)
    requires forall buffer :: |copy(buffer)| == |buffer|
    modifies bytesStorage
    ensures |bytesStorage.contents| == BytesNeeded(props)
    ensures bytesStorage.contents == copy(Resized(old(bytesStorage.contents), BytesNeeded(props), 0))
  {
    bytesStorage.Resize(BytesNeeded(props), 0);
    bytesStorage.CopyFromRuntime(copy);
    bytesStorage.ShrinkToFit();
  }

  // Texture views

  /** `CFRange`. */
  datatype CFRange = CFRange(location: NSInteger, length: NSInteger)

  /** The level range `new` passes: it starts at `levels.start` and spans `levels.end - levels.start` levels. */
  function LevelRange(start: NSInteger, end: NSInteger): (r: CFRange)
    ensures r.location == start
    ensures -0x8000_0000_0000_0000 <= end - start < 0x8000_0000_0000_0000 ==> r.location + r.length == end
  {
    CFRange(start, WrapI64(end - start))
  }

  /** The message that creates a texture view: its receiver and its arguments. */
  datatype ViewRequest = ViewRequest(receiver: Id, pixelFormat: int, textureType: MTLTextureType, levels: CFRange, slices: NSUInteger)

  /**
   * The request `new` builds, as written: the `nil` it passes fills the unused
   * receiver slot of the binding, which sends the message to the class
   * registered as "MTLTexture" instead.
   */
  function NewRequest(rt: Runtime, pixelFormat: int, texType: TextureType, levelsStart: NSInteger, levelsEnd: NSInteger,
                      slices: USize): (r: ViewRequest)
    ensures r.receiver == rt.classNamed("MTLTexture")
    ensures r.textureType == IntoTextureType(texType) && r.levels == LevelRange(levelsStart, levelsEnd)
  {
    ViewRequest(rt.classNamed("MTLTexture"), pixelFormat, IntoTextureType(texType), LevelRange(levelsStart, levelsEnd), slices)
  }

  /** `new`, as written, given what the receiver would answer to the request. */
  function New(rt: Runtime, pixelFormat: int, texType: TextureType, levelsStart: NSInteger, levelsEnd: NSInteger,
               slices: USize, answer: Id): (r: Result<Raw.Object, Raw.FromRawError>)
    ensures r.Ok? ==> rt.classNamed("MTLTexture") != Nil && Raw.IntoRaw(r.value) == answer
    ensures r.Ok? <==> rt.classNamed("MTLTexture") != Nil && Raw.FromRaw(rt, Raw.Texture, answer).Ok?
  {
    var request := NewRequest(rt, pixelFormat, texType, levelsStart, levelsEnd, slices);
    Raw.FromRaw(rt, Raw.Texture, SendForId(request.receiver, answer))
  }

  /** `with_pixel_format`, as written: the message also goes to the class registered as "MTLTexture". */
  function WithPixelFormat(rt: Runtime, pixelFormat: int, answer: Id): (r: Result<Raw.Object, Raw.FromRawError>)
    ensures r.Ok? ==> rt.classNamed("MTLTexture") != Nil && Raw.IntoRaw(r.value) == answer
    ensures r.Ok? <==> rt.classNamed("MTLTexture") != Nil && Raw.FromRaw(rt, Raw.Texture, answer).Ok?
  {
    Raw.FromRaw(rt, Raw.Texture, SendForId(rt.classNamed("MTLTexture"), answer))
  }

  /**
   * "MTLTexture" names a protocol. When no class is registered under that
   * name, the message goes to nil and both constructors fail with
   * `NilPointer`, whatever a texture would have answered.
   */
  lemma ViewConstructorsAlwaysFail(rt: Runtime, pixelFormat: int, texType: TextureType,
                                   levelsStart: NSInteger, levelsEnd: NSInteger, slices: USize, answer: Id)
    requires rt.classNamed("MTLTexture") == Nil
    ensures New(rt, pixelFormat, texType, levelsStart, levelsEnd, slices, answer) == Err(Raw.NilPointer)
    ensures WithPixelFormat(rt, pixelFormat, answer) == Err(Raw.NilPointer)
  {
  }

  /**
   * When a class is registered under "MTLTexture", both constructors return
   * what `from_raw` makes of that class's answer.
   */
  lemma ViewConstructorsAskRegisteredClass(rt: Runtime, pixelFormat: int, texType: TextureType,
                                           levelsStart: NSInteger, levelsEnd: NSInteger, slices: USize, answer: Id)
    requires rt.classNamed("MTLTexture") != Nil
    ensures New(rt, pixelFormat, texType, levelsStart, levelsEnd, slices, answer) == Raw.FromRaw(rt, Raw.Texture, answer)
    ensures WithPixelFormat(rt, pixelFormat, answer) == Raw.FromRaw(rt, Raw.Texture, answer)
  {
  }

  /** The view request sent to an existing texture, as creating a view of it requires. */
  function NewViewRequest(texture: Raw.Object, pixelFormat: int, texType: TextureType,
                          levelsStart: NSInteger, levelsEnd: NSInteger, slices: USize): (r: ViewRequest)
    ensures r.receiver == Raw.AsRaw(texture)
    ensures r.textureType == IntoTextureType(texType) && r.levels == LevelRange(levelsStart, levelsEnd)
  {
    ViewRequest(Raw.AsRaw(texture), pixelFormat, IntoTextureType(texType), LevelRange(levelsStart, levelsEnd), slices)
  }

  /** Creating a view of `texture`: the answer of the texture, checked by `from_raw`. */
  function NewView(rt: Runtime, texture: Raw.Object, pixelFormat: int, texType: TextureType,
                   levelsStart: NSInteger, levelsEnd: NSInteger, slices: USize, answer: Id): (r: Result<Raw.Object, Raw.FromRawError>)
    ensures r.Ok? ==> Raw.AsRaw(texture) != Nil && Raw.IntoRaw(r.value) == answer
  {
    var request := NewViewRequest(texture, pixelFormat, texType, levelsStart, levelsEnd, slices);
    Raw.FromRaw(rt, Raw.Texture, SendForId(request.receiver, answer))
  }

  /** Sent to a live texture, the view is created exactly when the answer is a non-nil object conforming to `MTLTexture`. */
  lemma NewViewSucceeds(rt: Runtime, texture: Raw.Object, pixelFormat: int, texType: TextureType,
                        levelsStart: NSInteger, levelsEnd: NSInteger, slices: USize, answer: Id)
    requires Raw.AsRaw(texture) != Nil
    ensures NewView(rt, texture, pixelFormat, texType, levelsStart, levelsEnd, slices, answer).Ok?
            <==> answer != Nil && rt.conformsTo(answer, "MTLTexture")
    ensures NewView(rt, texture, pixelFormat, texType, levelsStart, levelsEnd, slices, answer).Ok? ==>
            Raw.IntoRaw(NewView(rt, texture, pixelFormat, texType, levelsStart, levelsEnd, slices, answer).value) == answer
  {
    if answer != Nil {
      Raw.ProtocolArm(rt, Raw.Texture, answer);
    }
  }
}
