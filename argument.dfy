/**
 * Function arguments: the three bridges that `transmute` between a safe enum
 * and its foreign counterpart. A `#[repr(usize)]` enum without explicit
 * values numbers its variants 0, 1, 2, ... in declaration order, so a safe
 * value crosses as its ordinal; the foreign enums give the same numbers
 * explicitly, in the same order.
 */
module Argument {

  // ArgumentAccess

  datatype ArgumentAccess = ReadOnly | ReadWrite | WriteOnly

  /** `MTLArgumentAccess`: ReadOnly = 0, ReadWrite = 1, WriteOnly = 2. */
  type MTLArgumentAccess = t: int | 0 <= t <= 2

  /** The discriminant the compiler gives each variant: its position in the declaration. */
  function AccessOrdinal(a: ArgumentAccess): nat
  {
    match a
    case ReadOnly => 0
    case ReadWrite => 1
    case WriteOnly => 2
  }

  /** `Into<MTLArgumentAccess>`: the transmute keeps the discriminant. */
  function IntoAccess(a: ArgumentAccess): (r: MTLArgumentAccess)
  {
    AccessOrdinal(a)
  }

  /** `From<MTLArgumentAccess>`: the transmute yields the variant whose discriminant is the tag. */
  function FromAccess(t: MTLArgumentAccess): (r: ArgumentAccess)
  {
    match t
    case 0 => ReadOnly
    case 1 => ReadWrite
    case 2 => WriteOnly
  }

  /** Tag i names the i-th declared variant, which maps back to i. */
  lemma AccessTags()
    ensures IntoAccess(ReadOnly) == 0 && IntoAccess(ReadWrite) == 1 && IntoAccess(WriteOnly) == 2
    ensures FromAccess(0) == ReadOnly && FromAccess(1) == ReadWrite && FromAccess(2) == WriteOnly
  {
  }

  /** The transmute round-trips both ways, and each tag has exactly one safe image. */
  lemma AccessRoundTrip(a: ArgumentAccess, t: MTLArgumentAccess)
    ensures FromAccess(IntoAccess(a)) == a
    ensures IntoAccess(FromAccess(t)) == t
    ensures IntoAccess(a) == t <==> a == FromAccess(t)
  {
  }

  // ArgumentType

  datatype ArgumentType = Buffer | ThreadgroupMemory | Texture | Sampler

  /** `MTLArgumentType`: Buffer = 0, ThreadgroupMemory = 1, Texture = 2, Sampler = 3. */
  type MTLArgumentType = t: int | 0 <= t <= 3

  /** The discriminant the compiler gives each variant: its position in the declaration. */
  function ArgumentTypeOrdinal(a: ArgumentType): nat
  {
    match a
    case Buffer => 0
    case ThreadgroupMemory => 1
    case Texture => 2
    case Sampler => 3
  }

  /** `Into<MTLArgumentType>`: the transmute keeps the discriminant. */
  function IntoArgumentType(a: ArgumentType): (r: MTLArgumentType)
  {
    ArgumentTypeOrdinal(a)
  }

  /** `From<MTLArgumentType>`: the transmute yields the variant whose discriminant is the tag. */
  function FromArgumentType(t: MTLArgumentType): (r: ArgumentType)
  {
    match t
    case 0 => Buffer
    case 1 => ThreadgroupMemory
    case 2 => Texture
    case 3 => Sampler
  }

  /** Tag i names the i-th declared variant, which maps back to i. */
  lemma ArgumentTypeTags()
    ensures IntoArgumentType(Buffer) == 0 && IntoArgumentType(ThreadgroupMemory) == 1 && IntoArgumentType(Texture) == 2 && IntoArgumentType(Sampler) == 3
    ensures FromArgumentType(0) == Buffer && FromArgumentType(1) == ThreadgroupMemory && FromArgumentType(2) == Texture && FromArgumentType(3) == Sampler
  {
  }

  /** The transmute round-trips both ways, and each tag has exactly one safe image. */
  lemma ArgumentTypeRoundTrip(a: ArgumentType, t: MTLArgumentType)
    ensures FromArgumentType(IntoArgumentType(a)) == a
    ensures IntoArgumentType(FromArgumentType(t)) == t
    ensures IntoArgumentType(a) == t <==> a == FromArgumentType(t)
  {
  }

  // DataType

  datatype DataType =
    None | Struct | Array | Float | Float2 | Float3 | Float4 | Float2x2 | Float2x3
    | Float2x4 | Float3x2 | Float3x3 | Float3x4 | Float4x2 | Float4x3 | Float4x4
    | Half | Half2 | Half3 | Half4 | Half2x2 | Half2x3 | Half2x4 | Half3x2 | Half3x3
    | Half3x4 | Half4x2 | Half4x3 | Half4x4 | Int | Int2 | Int3 | Int4 | UInt
    | UInt2 | UInt3 | UInt4 | Short | Short2 | Short3 | Short4 | UShort | UShort2
    | UShort3 | UShort4 | Char | Char2 | Char3 | Char4 | UChar | UChar2 | UChar3
    | UChar4 | Bool | Bool2 | Bool3 | Bool4

  /** `MTLDataType`: the 57 foreign variants carry the values 0 to 56, in the order of `DataType`. */
  type MTLDataType = t: int | 0 <= t <= 56

  /** The discriminant the compiler gives each variant: its position in the declaration. */
  function DataTypeOrdinal(d: DataType): nat
  {
    match d
    case None => 0
    case Struct => 1
    case Array => 2
    case Float => 3
    case Float2 => 4
    case Float3 => 5
    case Float4 => 6
    case Float2x2 => 7
    case Float2x3 => 8
    case Float2x4 => 9
    case Float3x2 => 10
    case Float3x3 => 11
    case Float3x4 => 12
    case Float4x2 => 13
    case Float4x3 => 14
    case Float4x4 => 15
    case Half => 16
    case Half2 => 17
    case Half3 => 18
    case Half4 => 19
    case Half2x2 => 20
    case Half2x3 => 21
    case Half2x4 => 22
    case Half3x2 => 23
    case Half3x3 => 24
    case Half3x4 => 25
    case Half4x2 => 26
    case Half4x3 => 27
    case Half4x4 => 28
    case Int => 29
    case Int2 => 30
    case Int3 => 31
    case Int4 => 32
    case UInt => 33
    case UInt2 => 34
    case UInt3 => 35
    case UInt4 => 36
    case Short => 37
    case Short2 => 38
    case Short3 => 39
    case Short4 => 40
    case UShort => 41
    case UShort2 => 42
    case UShort3 => 43
    case UShort4 => 44
    case Char => 45
    case Char2 => 46
    case Char3 => 47
    case Char4 => 48
    case UChar => 49
    case UChar2 => 50
    case UChar3 => 51
    case UChar4 => 52
    case Bool => 53
    case Bool2 => 54
    case Bool3 => 55
    case Bool4 => 56
  }

  /** `Into<MTLDataType>`: the transmute keeps the discriminant. */
  function IntoDataType(d: DataType): (r: MTLDataType)
  {
    DataTypeOrdinal(d)
  }

  /** `From<MTLDataType>`: the transmute yields the variant whose discriminant is the tag. */
  function FromDataType(t: MTLDataType): (r: DataType)
  {
    match t
    case 0 => None
    case 1 => Struct
    case 2 => Array
    case 3 => Float
    case 4 => Float2
    case 5 => Float3
    case 6 => Float4
    case 7 => Float2x2
    case 8 => Float2x3
    case 9 => Float2x4
    case 10 => Float3x2
    case 11 => Float3x3
    case 12 => Float3x4
    case 13 => Float4x2
    case 14 => Float4x3
    case 15 => Float4x4
    case 16 => Half
    case 17 => Half2
    case 18 => Half3
    case 19 => Half4
    case 20 => Half2x2
    case 21 => Half2x3
    case 22 => Half2x4
    case 23 => Half3x2
    case 24 => Half3x3
    case 25 => Half3x4
    case 26 => Half4x2
    case 27 => Half4x3
    case 28 => Half4x4
    case 29 => Int
    case 30 => Int2
    case 31 => Int3
    case 32 => Int4
    case 33 => UInt
    case 34 => UInt2
    case 35 => UInt3
    case 36 => UInt4
    case 37 => Short
    case 38 => Short2
    case 39 => Short3
    case 40 => Short4
    case 41 => UShort
    case 42 => UShort2
    case 43 => UShort3
    case 44 => UShort4
    case 45 => Char
    case 46 => Char2
    case 47 => Char3
    case 48 => Char4
    case 49 => UChar
    case 50 => UChar2
    case 51 => UChar3
    case 52 => UChar4
    case 53 => Bool
    case 54 => Bool2
    case 55 => Bool3
    case 56 => Bool4
  }

  /**
   * Tag i names the i-th declared variant, which maps back to i: the two
   * enums declare their 57 variants in the same order.
   */
  lemma DataTypeTags(i: MTLDataType)
    ensures DataTypeOrdinal(FromDataType(i)) == i
    ensures IntoDataType(FromDataType(i)) == i
  {
  }

  /** The transmute round-trips both ways, and each tag has exactly one safe image. */
  lemma DataTypeRoundTrip(d: DataType, t: MTLDataType)
    ensures FromDataType(IntoDataType(d)) == d
    ensures IntoDataType(FromDataType(t)) == t
    ensures IntoDataType(d) == t <==> d == FromDataType(t)
  {
    DataTypeDecodes(d);
    DataTypeTags(t);
  }

  /** Every variant is named again by its own tag. */
  lemma DataTypeDecodes(d: DataType)
    ensures FromDataType(IntoDataType(d)) == d
  {
    match d
    case None =>
    case Struct =>
    case Array =>
    case Float =>
    case Float2 =>
    case Float3 =>
    case Float4 =>
    case Float2x2 =>
    case Float2x3 =>
    case Float2x4 =>
    case Float3x2 =>
    case Float3x3 =>
    case Float3x4 =>
    case Float4x2 =>
    case Float4x3 =>
    case Float4x4 =>
    case Half =>
    case Half2 =>
    case Half3 =>
    case Half4 =>
    case Half2x2 =>
    case Half2x3 =>
    case Half2x4 =>
    case Half3x2 =>
    case Half3x3 =>
    case Half3x4 =>
    case Half4x2 =>
    case Half4x3 =>
    case Half4x4 =>
    case Int =>
    case Int2 =>
    case Int3 =>
    case Int4 =>
    case UInt =>
    case UInt2 =>
    case UInt3 =>
    case UInt4 =>
    case Short =>
    case Short2 =>
    case Short3 =>
    case Short4 =>
    case UShort =>
    case UShort2 =>
    case UShort3 =>
    case UShort4 =>
    case Char =>
    case Char2 =>
    case Char3 =>
    case Char4 =>
    case UChar =>
    case UChar2 =>
    case UChar3 =>
    case UChar4 =>
    case Bool =>
    case Bool2 =>
    case Bool3 =>
    case Bool4 =>
  }

  /** Different variants have different discriminants. */
  lemma DataTypeOrdinalInjective(a: DataType, b: DataType)
    requires DataTypeOrdinal(a) == DataTypeOrdinal(b)
    ensures a == b
  {
    DataTypeRoundTrip(a, 0);
    DataTypeRoundTrip(b, 0);
  }

  /** An argument's properties as the runtime reports them. */
  datatype ArgumentReply = ArgumentReply(access: MTLArgumentAccess, argumentType: MTLArgumentType)

  /** `access`: the safe image of the reported access. */
  function Access(reply: ArgumentReply): (r: ArgumentAccess)
    ensures IntoAccess(r) == reply.access
  {
    AccessRoundTrip(ReadOnly, reply.access);
    FromAccess(reply.access)
  }

  /** `get_type`: the safe image of the reported argument type. */
  function GetType(reply: ArgumentReply): (r: ArgumentType)
    ensures IntoArgumentType(r) == reply.argumentType
  {
    ArgumentTypeRoundTrip(Buffer, reply.argumentType);
    FromArgumentType(reply.argumentType)
  }
}
