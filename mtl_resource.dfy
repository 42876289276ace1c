/**
 * The resource enums of the system bindings and the layout of
 * `MTLResourceOptions`: the cache mode and the storage mode are shifted into
 * separate bit fields of one word.
 */
module MtlResource {
  /** `MTLCPUCacheMode`: DefaultCache = 0, WriteCombined = 1. */
  type MTLCPUCacheMode = t: int | 0 <= t <= 1

  const MTLCPUCacheModeDefaultCache: MTLCPUCacheMode := 0
  const MTLCPUCacheModeWriteCombined: MTLCPUCacheMode := 1

  /** `MTLStorageMode`: Shared = 0, Private = 2; there is no variant numbered 1. */
  type MTLStorageMode = t: int | t == 0 || t == 2

  const MTLStorageModeShared: MTLStorageMode := 0
  const MTLStorageModePrivate: MTLStorageMode := 2

  /** `MTLPurgeableState`: KeepCurrent = 1 up to Empty = 4; there is no variant numbered 0. */
  type MTLPurgeableState = t: int | 1 <= t <= 4 witness 1

  const MTLPurgeableStateKeepCurrent: MTLPurgeableState := 1
  const MTLPurgeableStateNonVolatile: MTLPurgeableState := 2
  const MTLPurgeableStateVolatile: MTLPurgeableState := 3
  const MTLPurgeableStateEmpty: MTLPurgeableState := 4

  const MTLResourceStorageModeShift: bv64 := 16
  const MTLResourceCPUCacheModeShift: bv64 := 12

  /** A cache mode placed in its field of the resource options. */
  function CacheModeOption(mode: MTLCPUCacheMode): bv64
  {
    (mode as bv64) << MTLResourceCPUCacheModeShift
  }

  /** A storage mode placed in its field of the resource options. */
  function StorageModeOption(mode: MTLStorageMode): bv64
  {
    (mode as bv64) << MTLResourceStorageModeShift
  }

  const MTLResourceCPUCacheModeDefaultCache: bv64 := CacheModeOption(MTLCPUCacheModeDefaultCache)
  const MTLResourceCPUCacheModeWriteCombined: bv64 := CacheModeOption(MTLCPUCacheModeWriteCombined)
  const MTLResourceStorageModeShared: bv64 := StorageModeOption(MTLStorageModeShared)
  const MTLResourceStorageModePrivate: bv64 := StorageModeOption(MTLStorageModePrivate)

  /** The deprecated names. */
  const MTLResourceOptionCPUCacheModeDefault: bv64 := MTLResourceCPUCacheModeDefaultCache
  const MTLResourceOptionCPUCacheModeWriteCombined: bv64 := MTLResourceCPUCacheModeWriteCombined

  lemma ResourceOptionValues()
    ensures MTLResourceCPUCacheModeDefaultCache == 0 && MTLResourceStorageModeShared == 0
    ensures MTLResourceCPUCacheModeWriteCombined == 4096
    ensures MTLResourceStorageModePrivate == 131072
    ensures MTLResourceOptionCPUCacheModeDefault == MTLResourceCPUCacheModeDefaultCache
    ensures MTLResourceOptionCPUCacheModeWriteCombined == MTLResourceCPUCacheModeWriteCombined
  {
  }

  /** The two fields share no bit, so any combination keeps both modes readable. */
  lemma OptionFieldsSeparate(cache: MTLCPUCacheMode, storage: MTLStorageMode)
    ensures CacheModeOption(cache) & StorageModeOption(storage) == 0
    ensures ((CacheModeOption(cache) | StorageModeOption(storage)) >> MTLResourceCPUCacheModeShift) & 0xF == cache as bv64
    ensures ((CacheModeOption(cache) | StorageModeOption(storage)) >> MTLResourceStorageModeShift) & 0xF == storage as bv64
  {
    if cache == 0 {
      assert CacheModeOption(cache) == 0;
    } else {
      assert CacheModeOption(cache) == 4096;
    }
    if storage == 0 {
      assert StorageModeOption(storage) == 0;
    } else {
      assert StorageModeOption(storage) == 131072;
    }
  }
}
