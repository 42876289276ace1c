/**
 * The plain C structs of the Metal framework that carry integer geometry, and
 * the `MTL*Make` constructor functions the system bindings define for them.
 */
module MtlFunctions {
  import opened ObjC

  datatype MTLOrigin = MTLOrigin(x: NSUInteger, y: NSUInteger, z: NSUInteger)

  datatype MTLSize = MTLSize(width: NSUInteger, height: NSUInteger, depth: NSUInteger)

  datatype MTLRegion = MTLRegion(origin: MTLOrigin, size: MTLSize)

  datatype MTLScissorRect = MTLScissorRect(x: NSUInteger, y: NSUInteger, width: NSUInteger, height: NSUInteger)

  function MTLOriginMake(x: NSUInteger, y: NSUInteger, z: NSUInteger): (r: MTLOrigin)
    ensures r.x == x && r.y == y && r.z == z
  {
    MTLOrigin(x, y, z)
  }

  function MTLSizeMake(width: NSUInteger, height: NSUInteger, depth: NSUInteger): (r: MTLSize)
    ensures r.width == width && r.height == height && r.depth == depth
  {
    MTLSize(width, height, depth)
  }

  /** A one-dimensional region: a row of `width` elements starting at `x`. */
  function MTLRegionMake1D(x: NSUInteger, width: NSUInteger): (r: MTLRegion)
    ensures r.origin == MTLOrigin(x, 0, 0)
    ensures r.size == MTLSize(width, 1, 1)
  {
    MTLRegion(MTLOriginMake(x, 0, 0), MTLSizeMake(width, 1, 1))
  }

  /** A two-dimensional region: one slice of `width` by `height` elements at `(x, y)`. */
  function MTLRegionMake2D(x: NSUInteger, y: NSUInteger, width: NSUInteger, height: NSUInteger): (r: MTLRegion)
    ensures r.origin == MTLOrigin(x, y, 0)
    ensures r.size == MTLSize(width, height, 1)
  {
    MTLRegion(MTLOriginMake(x, y, 0), MTLSizeMake(width, height, 1))
  }

  function MTLRegionMake3D(x: NSUInteger, y: NSUInteger, z: NSUInteger,
                           width: NSUInteger, height: NSUInteger, depth: NSUInteger): (r: MTLRegion)
    ensures r.origin == MTLOrigin(x, y, z)
    ensures r.size == MTLSize(width, height, depth)
  {
    MTLRegion(MTLOriginMake(x, y, z), MTLSizeMake(width, height, depth))
  }

  /** The one- and two-dimensional constructors are the three-dimensional one with the missing extents set to one. */
  lemma RegionMakeDimensions(x: NSUInteger, y: NSUInteger, width: NSUInteger, height: NSUInteger)
    ensures MTLRegionMake1D(x, width) == MTLRegionMake3D(x, 0, 0, width, 1, 1)
    ensures MTLRegionMake2D(x, y, width, height) == MTLRegionMake3D(x, y, 0, width, height, 1)
    ensures MTLRegionMake1D(x, width) == MTLRegionMake2D(x, 0, width, 1)
  {
  }
}
