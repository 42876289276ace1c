/**
 * The part of the Objective-C runtime the crate relies on: object pointers,
 * the BOOL type, the platform integer widths, and the two introspection
 * questions the validators ask. The runtime itself is an oracle: a `Runtime`
 * value fixes the answers it gives.
 */
module ObjC {
  /** An object pointer (`id`); 0 stands for `nil`. */
  type Id = nat

  const Nil: Id := 0

  /** Objective-C `BOOL`, a signed char. */
  newtype BOOL = b: int | -128 <= b < 128

  const YES: BOOL := 1
  const NO: BOOL := 0

  /** The 64-bit platform widths: `usize`, `NSUInteger` and `NSInteger`. */
  const U64_LIMIT: int := 0x1_0000_0000_0000_0000
  type USize = x: int | 0 <= x < U64_LIMIT
  type NSUInteger = x: int | 0 <= x < U64_LIMIT
  type NSInteger = x: int | -0x8000_0000_0000_0000 <= x < 0x8000_0000_0000_0000

  /** An unsigned 64-bit result as release builds compute it: modulo 2^64. */
  function WrapU64(x: int): (r: USize)
    ensures (x - r) % U64_LIMIT == 0
    ensures 0 <= x < U64_LIMIT ==> r == x
  {
    x % U64_LIMIT
  }

  /** A signed 64-bit result as release builds compute it: two's complement. */
  function WrapI64(x: int): (r: NSInteger)
    ensures (x - r) % U64_LIMIT == 0
    ensures -0x8000_0000_0000_0000 <= x < 0x8000_0000_0000_0000 ==> r == x
  {
    var m := x % U64_LIMIT;
    if m >= 0x8000_0000_0000_0000 then m - U64_LIMIT else m
  }

  /** `b as BOOL` for a Rust `bool`. */
  function FromBool(b: bool): (r: BOOL)
    ensures r == YES || r == NO
    ensures r == YES <==> b
  {
    if b then YES else NO
  }

  /**
   * The answers of the runtime: whether an object conforms to the protocol
   * with a given name, and whether it is an instance of the class with a given
   * name or of a subclass of it; and the class object registered under a
   * name, which is nil when no class has that name (`class(name)`).
   */
  datatype Runtime = Runtime(conformsTo: (Id, string) -> bool, kindOf: (Id, string) -> bool, classNamed: string -> Id)
  {
    /**
     * What `isKindOfClass:` reports for the class looked up by name: with no
     * class registered under the name, the argument is nil and no object is
     * of it.
     */
    predicate IsInstanceOf(obj: Id, className: string)
    {
      classNamed(className) != Nil && kindOf(obj, className)
    }
  }

  /** The BOOL sent back by `conformsToProtocol:`; a message to nil answers NO. */
  function ConformsToProtocolReply(rt: Runtime, obj: Id, protocol: string): (r: BOOL)
    ensures r == YES || r == NO
    ensures r == YES <==> obj != Nil && rt.conformsTo(obj, protocol)
  {
    if obj == Nil then NO else FromBool(rt.conformsTo(obj, protocol))
  }

  /** The BOOL sent back by `isKindOfClass:`; a message to nil answers NO. */
  function IsKindOfClassReply(rt: Runtime, obj: Id, className: string): (r: BOOL)
    ensures r == YES || r == NO
    ensures r == YES <==> obj != Nil && rt.IsInstanceOf(obj, className)
  {
    if obj == Nil then NO else FromBool(rt.IsInstanceOf(obj, className))
  }

  /** With no class registered under the name, `isKindOfClass:` is asked about nil and answers NO for every object. */
  lemma UnregisteredClassHasNoInstances(rt: Runtime, obj: Id, className: string)
    requires rt.classNamed(className) == Nil
    ensures IsKindOfClassReply(rt, obj, className) == NO
  {
  }

  /** The object pointer a message returns, given what the receiver would answer: nil when sent to nil. */
  function SendForId(receiver: Id, answer: Id): (r: Id)
    ensures receiver == Nil ==> r == Nil
    ensures receiver != Nil ==> r == answer
  {
    if receiver == Nil then Nil else answer
  }
}
