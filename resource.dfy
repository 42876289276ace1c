/** `Resource`: the storage, cache and purgeable-state bridges and `set_purgeable_state`. */
module Resource {
  import opened ObjC
  import opened Internal
  import opened MtlResource
  import Raw

  // StorageMode

  datatype StorageMode = Shared | Private

  const StorageArms: seq<Arm<StorageMode>> := [Arm(Shared, 0), Arm(Private, 2)]

  lemma StorageArmsDistinct()
    ensures DistinctSafe(StorageArms) && DistinctForeign(StorageArms)
  {
  }

  lemma StorageArmsListSafe(v: StorageMode)
    ensures ListsSafe(StorageArms, v)
  {
    match v
    case Shared => assert StorageArms[0].safe == v;
    case Private => assert StorageArms[1].safe == v;
  }

  /** The generated `From` covers exactly the foreign variants; tag 1 has no arm. */
  lemma StorageArmsListForeign(t: int)
    ensures ListsForeign(StorageArms, t) <==> t == 0 || t == 2
  {
  }

  function IntoStorageMode(v: StorageMode): MTLStorageMode
  {
    StorageArmsListSafe(v);
    var t := Into(StorageArms, v);
    StorageArmsListForeign(t);
    t
  }

  function FromStorageMode(t: MTLStorageMode): StorageMode
  {
    StorageArmsListForeign(t);
    From(StorageArms, t)
  }

  lemma StorageModeTags()
    ensures IntoStorageMode(Shared) == MTLStorageModeShared && IntoStorageMode(Private) == MTLStorageModePrivate
    ensures !ListsForeign(StorageArms, 1)
  {
    StorageArmsDistinct();
    Table(StorageArms);
    StorageArmsListForeign(1);
  }

  lemma StorageModeRoundTrip(v: StorageMode, t: MTLStorageMode)
    ensures FromStorageMode(IntoStorageMode(v)) == v
    ensures IntoStorageMode(FromStorageMode(t)) == t
  {
    StorageArmsDistinct();
    StorageArmsListSafe(v);
    StorageArmsListForeign(t);
    RoundTripSafe(StorageArms, v);
    RoundTripForeign(StorageArms, t);
  }

  // CpuCacheMode

  datatype CpuCacheMode = DefaultCache | WriteCombined

  const CacheArms: seq<Arm<CpuCacheMode>> := [Arm(DefaultCache, 0), Arm(WriteCombined, 1)]

  lemma CacheArmsDistinct()
    ensures DistinctSafe(CacheArms) && DistinctForeign(CacheArms)
  {
  }

  lemma CacheArmsListSafe(v: CpuCacheMode)
    ensures ListsSafe(CacheArms, v)
  {
    match v
    case DefaultCache => assert CacheArms[0].safe == v;
    case WriteCombined => assert CacheArms[1].safe == v;
  }

  lemma CacheArmsListForeign(t: int)
    ensures ListsForeign(CacheArms, t) <==> 0 <= t <= 1
  {
    if 0 <= t <= 1 {
      assert CacheArms[t].foreign == t;
    }
  }

  function IntoCpuCacheMode(v: CpuCacheMode): MTLCPUCacheMode
  {
    CacheArmsListSafe(v);
    var t := Into(CacheArms, v);
    CacheArmsListForeign(t);
    t
  }

  function FromCpuCacheMode(t: MTLCPUCacheMode): CpuCacheMode
  {
    CacheArmsListForeign(t);
    From(CacheArms, t)
  }

  lemma CpuCacheModeTags()
    ensures IntoCpuCacheMode(DefaultCache) == MTLCPUCacheModeDefaultCache
    ensures IntoCpuCacheMode(WriteCombined) == MTLCPUCacheModeWriteCombined
  {
    CacheArmsDistinct();
    Table(CacheArms);
  }

  lemma CpuCacheModeRoundTrip(v: CpuCacheMode, t: MTLCPUCacheMode)
    ensures FromCpuCacheMode(IntoCpuCacheMode(v)) == v
    ensures IntoCpuCacheMode(FromCpuCacheMode(t)) == t
  {
    CacheArmsDistinct();
    CacheArmsListSafe(v);
    CacheArmsListForeign(t);
    RoundTripSafe(CacheArms, v);
    RoundTripForeign(CacheArms, t);
  }

  // PurgeableState

  datatype PurgeableState = KeepCurrent | NonVolatile | Volatile | Empty

  const PurgeableArms: seq<Arm<PurgeableState>> :=
    [Arm(KeepCurrent, 1), Arm(NonVolatile, 2), Arm(Volatile, 3), Arm(Empty, 4)]

  lemma PurgeableArmsDistinct()
    ensures DistinctSafe(PurgeableArms) && DistinctForeign(PurgeableArms)
  {
  }

  lemma PurgeableArmsListSafe(v: PurgeableState)
    ensures ListsSafe(PurgeableArms, v)
  {
    match v
    case KeepCurrent => assert PurgeableArms[0].safe == v;
    case NonVolatile => assert PurgeableArms[1].safe == v;
    case Volatile => assert PurgeableArms[2].safe == v;
    case Empty => assert PurgeableArms[3].safe == v;
  }

  /** The generated `From` covers exactly the foreign variants; tag 0 has no arm. */
  lemma PurgeableArmsListForeign(t: int)
    ensures ListsForeign(PurgeableArms, t) <==> 1 <= t <= 4
  {
    if 1 <= t <= 4 {
      assert PurgeableArms[t - 1].foreign == t;
    }
  }

  function IntoPurgeableState(v: PurgeableState): MTLPurgeableState
  {
    PurgeableArmsListSafe(v);
    var t := Into(PurgeableArms, v);
    PurgeableArmsListForeign(t);
    t
  }

  function FromPurgeableState(t: MTLPurgeableState): PurgeableState
  {
    PurgeableArmsListForeign(t);
    From(PurgeableArms, t)
  }

  lemma PurgeableStateTags()
    ensures IntoPurgeableState(KeepCurrent) == MTLPurgeableStateKeepCurrent
    ensures IntoPurgeableState(NonVolatile) == MTLPurgeableStateNonVolatile
    ensures IntoPurgeableState(Volatile) == MTLPurgeableStateVolatile
    ensures IntoPurgeableState(Empty) == MTLPurgeableStateEmpty
    ensures !ListsForeign(PurgeableArms, 0)
  {
    PurgeableArmsDistinct();
    Table(PurgeableArms);
    PurgeableArmsListForeign(0);
  }

  lemma PurgeableStateRoundTrip(v: PurgeableState, t: MTLPurgeableState)
    ensures FromPurgeableState(IntoPurgeableState(v)) == v
    ensures IntoPurgeableState(FromPurgeableState(t)) == t
  {
    PurgeableArmsDistinct();
    PurgeableArmsListSafe(v);
    PurgeableArmsListForeign(t);
    RoundTripSafe(PurgeableArms, v);
    RoundTripForeign(PurgeableArms, t);
  }

  /**
   * `set_purgeable_state`: sends the state's tag and decodes the tag the
   * runtime answers with (the state the resource was in before).
   */
  function SetPurgeableState(state: PurgeableState, respond: MTLPurgeableState -> MTLPurgeableState): (r: PurgeableState)
    ensures IntoPurgeableState(r) == respond(IntoPurgeableState(state))
  {
    PurgeableStateRoundTrip(state, respond(IntoPurgeableState(state)));
    FromPurgeableState(respond(IntoPurgeableState(state)))
  }

  /** When the runtime answers with the tag of a state `previous`, that state is what the caller gets back. */
  lemma SetPurgeableStateReportsPrevious(state: PurgeableState, previous: PurgeableState)
    ensures SetPurgeableState(state, _ => IntoPurgeableState(previous)) == previous
  {
    PurgeableStateRoundTrip(previous, 1);
  }

  /** `Resource` objects are checked through the protocol arm with the name `MTLResource`. */
  lemma ResourceArm(rt: Runtime, h: Id)
    requires h != Nil
    ensures Raw.Declared(Raw.Resource) == Raw.OfProtocol("MTLResource")
    ensures Raw.FromRaw(rt, Raw.Resource, h).Ok? <==> rt.conformsTo(h, "MTLResource")
  {
    Raw.ProtocolArm(rt, Raw.Resource, h);
  }
}
