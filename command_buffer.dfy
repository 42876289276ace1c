/**
 * `CommandBuffer`: the hand-written command buffer status bridge, the status
 * getter and the construction of a command buffer from a command queue.
 */
module CommandBuffer {
  import opened ObjC
  import opened Wrappers

  /** The safe status, in declaration order. */
  datatype CommandBufferStatus = NotEnqueued | Enqueued | Committed | Scheduled | Completed | Error

  /** `MTLCommandBufferStatus`: NotEnqueued = 0, Enqueued = 1, ..., Error = 5. */
  type MTLCommandBufferStatus = t: int | 0 <= t <= 5

  /** `From<MTLCommandBufferStatus>`: each foreign status to the safe status of the same name. */
  function FromStatus(t: MTLCommandBufferStatus): CommandBufferStatus
  {
    match t
    case 0 => NotEnqueued
    case 1 => Enqueued
    case 2 => Committed
    case 3 => Scheduled
    case 4 => Completed
    case 5 => Error
  }

  /** `Into<MTLCommandBufferStatus>`: each safe status back to the foreign status of the same name. */
  function IntoStatus(s: CommandBufferStatus): MTLCommandBufferStatus
  {
    match s
    case NotEnqueued => 0
    case Enqueued => 1
    case Committed => 2
    case Scheduled => 3
    case Completed => 4
    case Error => 5
  }

  /** The statuses in the order they are declared in, on both sides. */
  const DeclaredStatuses: seq<CommandBufferStatus> := [NotEnqueued, Enqueued, Committed, Scheduled, Completed, Error]

  /** The i-th declared status maps to tag i, and tag i to the i-th declared status. */
  lemma StatusTags(i: int)
    requires 0 <= i < |DeclaredStatuses|
    ensures IntoStatus(DeclaredStatuses[i]) == i
    ensures FromStatus(i) == DeclaredStatuses[i]
  {
  }

  /** Both directions of the bridge undo each other. */
  lemma StatusRoundTrip(s: CommandBufferStatus, t: MTLCommandBufferStatus)
    ensures FromStatus(IntoStatus(s)) == s
    ensures IntoStatus(FromStatus(t)) == t
  {
  }

  /** Every status appears exactly once in the declaration order. */
  lemma DeclaredStatusesComplete(s: CommandBufferStatus)
    ensures s in DeclaredStatuses
    ensures forall i, j :: 0 <= i < j < |DeclaredStatuses| ==> DeclaredStatuses[i] != DeclaredStatuses[j]
  {
    StatusTags(IntoStatus(s));
  }

  /** The documented lifecycle, from not enqueued to completed. */
  const Lifecycle: seq<CommandBufferStatus> := [NotEnqueued, Enqueued, Committed, Scheduled, Completed]

  /** Along the lifecycle the foreign tags strictly increase, and the error tag lies after all of them. */
  lemma LifecycleTagsIncrease()
    ensures forall i, j :: 0 <= i < j < |Lifecycle| ==> IntoStatus(Lifecycle[i]) < IntoStatus(Lifecycle[j])
    ensures forall i :: 0 <= i < |Lifecycle| ==> IntoStatus(Lifecycle[i]) < IntoStatus(Error)
  {
    forall i | 0 <= i < |Lifecycle|
      ensures IntoStatus(Lifecycle[i]) == i
    {
      StatusTags(i);
    }
  }

  /** `get_status`: the safe image of the status the command buffer reports. */
  function GetStatus(reply: MTLCommandBufferStatus): (r: CommandBufferStatus)
    ensures IntoStatus(r) == reply
  {
    StatusRoundTrip(NotEnqueued, reply);
    FromStatus(reply)
  }

  /** A command buffer wraps the handle the command queue returned. */
  datatype CommandBuffer = CommandBuffer(raw: Id)

  /**
   * `new` and `with_unretained_references`: the handle the queue returned is
   * wrapped without `from_raw`; only a build with debug assertions checks it
   * is not nil, and panics when it is.
   */
  function New(reply: Id, debugAssertions: bool): (r: Outcome<CommandBuffer>)
    ensures r.Panicked? <==> debugAssertions && reply == Nil
    ensures r.Returned? ==> r.value.raw == reply
  {
    if debugAssertions && reply == Nil then Panicked else Returned(CommandBuffer(reply))
  }

  /** Without debug assertions a nil handle is wrapped as it is. */
  lemma ReleaseBuildWrapsNil()
    ensures New(Nil, false) == Returned(CommandBuffer(Nil))
  {
  }
}
