/**
 * `RenderPassAttachmentDescriptor`: the load and store action bridges and the
 * descriptor's properties with their getters and setters.
 */
module RenderPassAttachmentDescriptor {
  import opened ObjC
  import opened Wrappers
  import opened Internal
  import Raw

  // LoadAction

  datatype LoadAction = DontCare | Load | Clear

  /** `MTLLoadAction`: DontCare = 0, Load = 1, Clear = 2. */
  type MTLLoadAction = t: int | 0 <= t <= 2

  const LoadArms: seq<Arm<LoadAction>> := [Arm(DontCare, 0), Arm(Load, 1), Arm(Clear, 2)]

  lemma LoadArmsDistinct()
    ensures DistinctSafe(LoadArms) && DistinctForeign(LoadArms)
  {
  }

  lemma LoadArmsListSafe(v: LoadAction)
    ensures ListsSafe(LoadArms, v)
  {
    match v
    case DontCare => assert LoadArms[0].safe == v;
    case Load => assert LoadArms[1].safe == v;
    case Clear => assert LoadArms[2].safe == v;
  }

  lemma LoadArmsListForeign(t: int)
    ensures ListsForeign(LoadArms, t) <==> 0 <= t <= 2
  {
    if 0 <= t <= 2 {
      assert LoadArms[t].foreign == t;
    }
  }

  function IntoLoadAction(v: LoadAction): MTLLoadAction
  {
    LoadArmsListSafe(v);
    var t := Into(LoadArms, v);
    LoadArmsListForeign(t);
    t
  }

  function FromLoadAction(t: MTLLoadAction): LoadAction
  {
    LoadArmsListForeign(t);
    From(LoadArms, t)
  }

  lemma LoadActionTags()
    ensures IntoLoadAction(DontCare) == 0 && IntoLoadAction(Load) == 1 && IntoLoadAction(Clear) == 2
    ensures FromLoadAction(0) == DontCare && FromLoadAction(1) == Load && FromLoadAction(2) == Clear
  {
    LoadArmsDistinct();
    Table(LoadArms);
  }

  lemma LoadActionRoundTrip(v: LoadAction, t: MTLLoadAction)
    ensures FromLoadAction(IntoLoadAction(v)) == v
    ensures IntoLoadAction(FromLoadAction(t)) == t
  {
    LoadArmsDistinct();
    LoadArmsListSafe(v);
    LoadArmsListForeign(t);
    RoundTripSafe(LoadArms, v);
    RoundTripForeign(LoadArms, t);
  }

  // StoreAction

  datatype StoreAction = StoreDontCare | Store | MultisampleResolve

  /** `MTLStoreAction`: DontCare = 0, Store = 1, MultisampleResolve = 2. */
  type MTLStoreAction = t: int | 0 <= t <= 2

  const StoreArms: seq<Arm<StoreAction>> := [Arm(StoreDontCare, 0), Arm(Store, 1), Arm(MultisampleResolve, 2)]

  lemma StoreArmsDistinct()
    ensures DistinctSafe(StoreArms) && DistinctForeign(StoreArms)
  {
  }

  lemma StoreArmsListSafe(v: StoreAction)
    ensures ListsSafe(StoreArms, v)
  {
    match v
    case StoreDontCare => assert StoreArms[0].safe == v;
    case Store => assert StoreArms[1].safe == v;
    case MultisampleResolve => assert StoreArms[2].safe == v;
  }

  lemma StoreArmsListForeign(t: int)
    ensures ListsForeign(StoreArms, t) <==> 0 <= t <= 2
  {
    if 0 <= t <= 2 {
      assert StoreArms[t].foreign == t;
    }
  }

  function IntoStoreAction(v: StoreAction): MTLStoreAction
  {
    StoreArmsListSafe(v);
    var t := Into(StoreArms, v);
    StoreArmsListForeign(t);
    t
  }

  function FromStoreAction(t: MTLStoreAction): StoreAction
  {
    StoreArmsListForeign(t);
    From(StoreArms, t)
  }

  lemma StoreActionTags()
    ensures IntoStoreAction(StoreDontCare) == 0 && IntoStoreAction(Store) == 1 && IntoStoreAction(MultisampleResolve) == 2
    ensures FromStoreAction(0) == StoreDontCare && FromStoreAction(1) == Store && FromStoreAction(2) == MultisampleResolve
  {
    StoreArmsDistinct();
    Table(StoreArms);
  }

  lemma StoreActionRoundTrip(v: StoreAction, t: MTLStoreAction)
    ensures FromStoreAction(IntoStoreAction(v)) == v
    ensures IntoStoreAction(FromStoreAction(t)) == t
  {
    StoreArmsDistinct();
    StoreArmsListSafe(v);
    StoreArmsListForeign(t);
    RoundTripSafe(StoreArms, v);
    RoundTripForeign(StoreArms, t);
  }

  // Descriptor

  /**
   * The state of an attachment descriptor object: its properties as the
   * runtime stores them. `usize` and `NSUInteger` have the same width, so the
   * casts in the getters and setters keep every value.
   */
  class RenderPassAttachmentDescriptor {
    var texture: Id
    var level: NSUInteger
    var slice: NSUInteger
    var depthPlane: NSUInteger
    var loadAction: MTLLoadAction
    var storeAction: MTLStoreAction
    var resolveTexture: Id
    var resolveLevel: NSUInteger
    var resolveSlice: NSUInteger
    var resolveDepthPlane: NSUInteger

    /** A new descriptor holds the documented defaults (the initial textures are not documented). */
    constructor ()
      ensures Level() == 0 && Slice() == 0 && DepthPlane() == 0
      ensures ResolveLevel() == 0 && ResolveSlice() == 0 && ResolveDepthPlane() == 0
      ensures GetLoadAction() == DontCare && GetStoreAction() == StoreDontCare
    {
      texture, resolveTexture := Nil, Nil;
      level, slice, depthPlane := 0, 0, 0;
      resolveLevel, resolveSlice, resolveDepthPlane := 0, 0, 0;
      loadAction, storeAction := 0, 0;
      new;
      LoadActionTags();
      StoreActionTags();
    }

    /** `texture`: `None` whenever `from_raw` rejects the stored pointer, in particular when it is nil. */
    function Texture(rt: Runtime): (r: Option<Raw.Object>)
      reads this
      ensures r.Some? <==> Raw.FromRaw(rt, Raw.Texture, texture).Ok?
      ensures texture == Nil ==> r.None?
      ensures r.Some? ==> Raw.IntoRaw(r.value) == texture
    {
      Raw.FromRaw(rt, Raw.Texture, texture).ToOption()
    }

    /** `set_texture`: stores the texture's own pointer, unchanged. */
    method SetTexture(t: Raw.Object)
      modifies this`texture
      ensures texture == Raw.IntoRaw(t)
    {
      texture := Raw.IntoRaw(t);
    }

    function Level(): USize
      reads this
    {
      level
    }

    method SetLevel(l: USize)
      modifies this`level
      ensures level == l && Level() == l
    {
      level := l;
    }

    function Slice(): USize
      reads this
    {
      slice
    }

    method SetSlice(s: USize)
      modifies this`slice
      ensures slice == s && Slice() == s
    {
      slice := s;
    }

    function DepthPlane(): USize
      reads this
    {
      depthPlane
    }

    method SetDepthPlane(p: USize)
      modifies this`depthPlane
      ensures depthPlane == p && DepthPlane() == p
    {
      depthPlane := p;
    }

    function GetLoadAction(): LoadAction
      reads this
    {
      FromLoadAction(loadAction)
    }

    method SetLoadAction(a: LoadAction)
      modifies this`loadAction
      ensures loadAction == IntoLoadAction(a) && GetLoadAction() == a
    {
      loadAction := IntoLoadAction(a);
      LoadActionRoundTrip(a, 0);
    }

    function GetStoreAction(): StoreAction
      reads this
    {
      FromStoreAction(storeAction)
    }

    method SetStoreAction(a: StoreAction)
      modifies this`storeAction
      ensures storeAction == IntoStoreAction(a) && GetStoreAction() == a
    {
      storeAction := IntoStoreAction(a);
      StoreActionRoundTrip(a, 0);
    }

    /** `resolve_texture`: `None` whenever `from_raw` rejects the stored pointer, in particular when it is nil. */
    function ResolveTexture(rt: Runtime): (r: Option<Raw.Object>)
      reads this
      ensures r.Some? <==> Raw.FromRaw(rt, Raw.Texture, resolveTexture).Ok?
      ensures resolveTexture == Nil ==> r.None?
      ensures r.Some? ==> Raw.IntoRaw(r.value) == resolveTexture
    {
      Raw.FromRaw(rt, Raw.Texture, resolveTexture).ToOption()
    }

    /** `set_resolve_texture`: stores the texture's own pointer, unchanged. */
    method SetResolveTexture(t: Raw.Object)
      modifies this`resolveTexture
      ensures resolveTexture == Raw.IntoRaw(t)
    {
      resolveTexture := Raw.IntoRaw(t);
    }

    function ResolveLevel(): USize
      reads this
    {
      resolveLevel
    }

    method SetResolveLevel(l: USize)
      modifies this`resolveLevel
      ensures resolveLevel == l && ResolveLevel() == l
    {
      resolveLevel := l;
    }

    function ResolveSlice(): USize
      reads this
    {
      resolveSlice
    }

    method SetResolveSlice(s: USize)
      modifies this`resolveSlice
      ensures resolveSlice == s && ResolveSlice() == s
    {
      resolveSlice := s;
    }

    function ResolveDepthPlane(): USize
      reads this
    {
      resolveDepthPlane
    }

    method SetResolveDepthPlane(p: USize)
      modifies this`resolveDepthPlane
      ensures resolveDepthPlane == p && ResolveDepthPlane() == p
    {
      resolveDepthPlane := p;
    }
  }

  /**
   * A texture that `from_raw` produced and that was stored with `set_texture`
   * is read back by `texture` as the same texture.
   */
  method SetThenGetTexture(rt: Runtime, d: RenderPassAttachmentDescriptor, h: Id) returns (read: Option<Raw.Object>)
    requires Raw.FromRaw(rt, Raw.Texture, h).Ok?
    modifies d`texture
    ensures read == Some(Raw.FromRaw(rt, Raw.Texture, h).value)
  {
    d.SetTexture(Raw.FromRaw(rt, Raw.Texture, h).value);
    read := d.Texture(rt);
  }
  /** The wrapper validates through the class arm with the class name "MTLRenderPassAttachmentDescriptor". */
  lemma ClassName(rt: Runtime, h: Id)
    ensures Raw.Declared(Raw.RenderPassAttachmentDescriptor) == Raw.OfClass("MTLRenderPassAttachmentDescriptor")
    ensures h != Nil ==>
      (Raw.FromRaw(rt, Raw.RenderPassAttachmentDescriptor, h).Ok? <==> !rt.IsInstanceOf(h, "MTLRenderPassAttachmentDescriptor"))
  {
    if h != Nil {
      Raw.ClassArm(rt, Raw.RenderPassAttachmentDescriptor, h);
    }
  }

  /**
   * `clone`: the copy the runtime made is checked by the class arm and
   * unwrapped, so the clone panics when the copy is nil or is reported to be
   * an attachment descriptor.
   */
  function Clone(rt: Runtime, copy: Id): (r: Outcome<Raw.Object>)
    ensures r.Returned? <==> copy != Nil && !rt.IsInstanceOf(copy, "MTLRenderPassAttachmentDescriptor")
    ensures r.Returned? ==> r.value == Raw.Object(Raw.RenderPassAttachmentDescriptor, copy)
  {
    ClassName(rt, copy);
    match Raw.FromRaw(rt, Raw.RenderPassAttachmentDescriptor, copy)
    case Ok(d) => Returned(d)
    case Err(_) => Panicked
  }
}
