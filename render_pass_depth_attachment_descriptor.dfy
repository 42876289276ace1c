/**
 * `RenderPathDepthAttachmentDescriptor`: the multisample depth resolve filter
 * bridge, the filter property and the class name the wrapper validates with.
 */
module RenderPassDepthAttachmentDescriptor {
  import opened ObjC
  import opened Wrappers
  import opened Internal
  import Raw

  datatype MultisampleDepthResolveFilter = Sample0 | Min | Max

  /** `MTLMultisampleDepthResolveFilter`: Sample0 = 0, Min = 1, Max = 2. */
  type MTLMultisampleDepthResolveFilter = t: int | 0 <= t <= 2

  const FilterArms: seq<Arm<MultisampleDepthResolveFilter>> := [Arm(Sample0, 0), Arm(Min, 1), Arm(Max, 2)]

  lemma FilterArmsDistinct()
    ensures DistinctSafe(FilterArms) && DistinctForeign(FilterArms)
  {
  }

  lemma FilterArmsListSafe(v: MultisampleDepthResolveFilter)
    ensures ListsSafe(FilterArms, v)
  {
    match v
    case Sample0 => assert FilterArms[0].safe == v;
    case Min => assert FilterArms[1].safe == v;
    case Max => assert FilterArms[2].safe == v;
  }

  lemma FilterArmsListForeign(t: int)
    ensures ListsForeign(FilterArms, t) <==> 0 <= t <= 2
  {
    if 0 <= t <= 2 {
      assert FilterArms[t].foreign == t;
    }
  }

  function IntoFilter(v: MultisampleDepthResolveFilter): MTLMultisampleDepthResolveFilter
  {
    FilterArmsListSafe(v);
    var t := Into(FilterArms, v);
    FilterArmsListForeign(t);
    t
  }

  function FromFilter(t: MTLMultisampleDepthResolveFilter): MultisampleDepthResolveFilter
  {
    FilterArmsListForeign(t);
    From(FilterArms, t)
  }

  lemma FilterTags()
    ensures IntoFilter(Sample0) == 0 && IntoFilter(Min) == 1 && IntoFilter(Max) == 2
    ensures FromFilter(0) == Sample0 && FromFilter(1) == Min && FromFilter(2) == Max
  {
    FilterArmsDistinct();
    Table(FilterArms);
  }

  lemma FilterRoundTrip(v: MultisampleDepthResolveFilter, t: MTLMultisampleDepthResolveFilter)
    ensures FromFilter(IntoFilter(v)) == v
    ensures IntoFilter(FromFilter(t)) == t
  {
    FilterArmsDistinct();
    FilterArmsListSafe(v);
    FilterArmsListForeign(t);
    RoundTripSafe(FilterArms, v);
    RoundTripForeign(FilterArms, t);
  }

  /** The depth-specific property of the descriptor object that the model keeps: its resolve filter tag. */
  datatype DepthAttachment = DepthAttachment(depthResolveFilter: MTLMultisampleDepthResolveFilter)

  /** A descriptor the framework has just created holds the documented default filter tag. */
  const Initial: DepthAttachment := DepthAttachment(0)

  /** `depth_resolve_filter`: the safe image of the stored tag. */
  function DepthResolveFilter(d: DepthAttachment): MultisampleDepthResolveFilter
  {
    FromFilter(d.depthResolveFilter)
  }

  /** `set_depth_resolve_filter`: stores the foreign image of the filter. */
  function SetDepthResolveFilter(d: DepthAttachment, f: MultisampleDepthResolveFilter): (r: DepthAttachment)
    ensures DepthResolveFilter(r) == f
    ensures r.depthResolveFilter == IntoFilter(f)
  {
    FilterRoundTrip(f, 0);
    d.(depthResolveFilter := IntoFilter(f))
  }

  /** The documented default filter reads back as `Sample0`. */
  lemma InitialFilter()
    ensures DepthResolveFilter(Initial) == Sample0
  {
    FilterTags();
  }

  /** Reading the filter and storing it back leaves the descriptor unchanged. */
  lemma SetReadFilterUnchanged(d: DepthAttachment)
    ensures SetDepthResolveFilter(d, DepthResolveFilter(d)) == d
  {
    FilterRoundTrip(Sample0, d.depthResolveFilter);
  }

  /**
   * The wrapper validates through the class arm, with the class name
   * "MTLRenderPathDepthAttachmentDescriptor" (spelt "Path", where the
   * framework's class is `MTLRenderPassDepthAttachmentDescriptor`). A runtime
   * in which no object is of a class by that name lets every non-nil pointer
   * through.
   */
  lemma ClassName(rt: Runtime, h: Id)
    ensures Raw.Declared(Raw.RenderPathDepthAttachmentDescriptor) == Raw.OfClass("MTLRenderPathDepthAttachmentDescriptor")
    ensures h != Nil ==>
      (Raw.FromRaw(rt, Raw.RenderPathDepthAttachmentDescriptor, h).Ok? <==> !rt.IsInstanceOf(h, "MTLRenderPathDepthAttachmentDescriptor"))
  {
    if h != Nil {
      Raw.ClassArm(rt, Raw.RenderPathDepthAttachmentDescriptor, h);
    }
  }

  /** `clone`: the runtime's copy is unwrapped after the class arm, so it panics when the copy is nil or is reported to be of the class. */
  function Clone(rt: Runtime, copy: Id): (r: Outcome<Raw.Object>)
    ensures r.Returned? <==> copy != Nil && !rt.IsInstanceOf(copy, "MTLRenderPathDepthAttachmentDescriptor")
    ensures r.Returned? ==> r.value == Raw.Object(Raw.RenderPathDepthAttachmentDescriptor, copy)
  {
    ClassName(rt, copy);
    match Raw.FromRaw(rt, Raw.RenderPathDepthAttachmentDescriptor, copy)
    case Ok(d) => Returned(d)
    case Err(_) => Panicked
  }
}
