/**
 * The crate's integer value types and their conversions to and from the
 * Metal structs. `usize` and `NSUInteger` have the same width here, so every
 * cast between them keeps the value.
 */
module ValueTypes {
  import opened ObjC
  import opened MtlFunctions

  datatype Origin = Origin(x: USize, y: USize, z: USize)

  datatype Size = Size(width: USize, height: USize, depth: USize)

  datatype Region = Region(size: Size, origin: Origin)

  datatype ScissorRect = ScissorRect(x: USize, y: USize, width: USize, height: USize)

  function OriginNew(x: USize, y: USize, z: USize): (r: Origin)
    ensures r.x == x && r.y == y && r.z == z
  {
    Origin(x, y, z)
  }

  /** `From<[usize; 3]>`. */
  function OriginFromArray(a: seq<USize>): Origin
    requires |a| == 3
  {
    OriginNew(a[0], a[1], a[2])
  }

  /** `From<(usize, usize, usize)>`. */
  function OriginFromTuple(t: (USize, USize, USize)): Origin
  {
    OriginNew(t.0, t.1, t.2)
  }

  /** The array and the tuple conversions read their components in the order `new` takes them. */
  lemma OriginFromComponents(a: seq<USize>)
    requires |a| == 3
    ensures OriginFromArray(a) == OriginFromTuple((a[0], a[1], a[2])) == Origin(a[0], a[1], a[2])
  {
  }

  function OriginFromMTL(m: MTLOrigin): Origin
  {
    OriginNew(m.x, m.y, m.z)
  }

  function OriginIntoMTL(o: Origin): MTLOrigin
  {
    MTLOriginMake(o.x, o.y, o.z)
  }

  lemma OriginRoundTrip(o: Origin, m: MTLOrigin)
    ensures OriginFromMTL(OriginIntoMTL(o)) == o
    ensures OriginIntoMTL(OriginFromMTL(m)) == m
  {
  }

  function SizeNew(width: USize, height: USize, depth: USize): (r: Size)
    ensures r.width == width && r.height == height && r.depth == depth
  {
    Size(width, height, depth)
  }

  function SizeFromArray(a: seq<USize>): Size
    requires |a| == 3
  {
    SizeNew(a[0], a[1], a[2])
  }

  function SizeFromTuple(t: (USize, USize, USize)): Size
  {
    SizeNew(t.0, t.1, t.2)
  }

  lemma SizeFromComponents(a: seq<USize>)
    requires |a| == 3
    ensures SizeFromArray(a) == SizeFromTuple((a[0], a[1], a[2])) == Size(a[0], a[1], a[2])
  {
  }

  function SizeFromMTL(m: MTLSize): Size
  {
    SizeNew(m.width, m.height, m.depth)
  }

  function SizeIntoMTL(s: Size): MTLSize
  {
    MTLSizeMake(s.width, s.height, s.depth)
  }

  lemma SizeRoundTrip(s: Size, m: MTLSize)
    ensures SizeFromMTL(SizeIntoMTL(s)) == s
    ensures SizeIntoMTL(SizeFromMTL(m)) == m
  {
  }

  function RegionFromParts(size: Size, origin: Origin): (r: Region)
    ensures r.size == size && r.origin == origin
  {
    Region(size, origin)
  }

  function RegionNew1D(x: USize, width: USize): (r: Region)
    ensures r.origin == Origin(x, 0, 0) && r.size == Size(width, 1, 1)
  {
    RegionFromParts(Size(width, 1, 1), Origin(x, 0, 0))
  }

  function RegionNew2D(x: USize, y: USize, width: USize, height: USize): (r: Region)
    ensures r.origin == Origin(x, y, 0) && r.size == Size(width, height, 1)
  {
    RegionFromParts(Size(width, height, 1), Origin(x, y, 0))
  }

  function RegionNew3D(x: USize, y: USize, z: USize, width: USize, height: USize, depth: USize): (r: Region)
    ensures r.origin == Origin(x, y, z) && r.size == Size(width, height, depth)
  {
    RegionFromParts(Size(width, height, depth), Origin(x, y, z))
  }

  function RegionFromMTL(m: MTLRegion): Region
  {
    RegionFromParts(SizeFromMTL(m.size), OriginFromMTL(m.origin))
  }

  function RegionIntoMTL(r: Region): MTLRegion
  {
    MTLRegion(OriginIntoMTL(r.origin), SizeIntoMTL(r.size))
  }

  /** Regions convert field by field, in both directions. */
  lemma RegionRoundTrip(r: Region, m: MTLRegion)
    ensures RegionFromMTL(RegionIntoMTL(r)) == r
    ensures RegionIntoMTL(RegionFromMTL(m)) == m
  {
    OriginRoundTrip(r.origin, m.origin);
    SizeRoundTrip(r.size, m.size);
  }

  /** The crate's region constructors convert to what the `MTLRegionMake` functions build. */
  lemma RegionConstructorsAgree(x: USize, y: USize, z: USize, width: USize, height: USize, depth: USize)
    ensures RegionIntoMTL(RegionNew1D(x, width)) == MTLRegionMake1D(x, width)
    ensures RegionIntoMTL(RegionNew2D(x, y, width, height)) == MTLRegionMake2D(x, y, width, height)
    ensures RegionIntoMTL(RegionNew3D(x, y, z, width, height, depth)) == MTLRegionMake3D(x, y, z, width, height, depth)
  {
  }

  function ScissorRectFromMTL(m: MTLScissorRect): ScissorRect
  {
    ScissorRect(m.x, m.y, m.width, m.height)
  }

  function ScissorRectIntoMTL(s: ScissorRect): MTLScissorRect
  {
    MTLScissorRect(s.x, s.y, s.width, s.height)
  }

  lemma ScissorRectRoundTrip(s: ScissorRect, m: MTLScissorRect)
    ensures ScissorRectFromMTL(ScissorRectIntoMTL(s)) == s
    ensures ScissorRectIntoMTL(ScissorRectFromMTL(m)) == m
  {
  }
}
