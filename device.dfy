/**
 * `Device`: obtaining devices from the runtime, classifying the result of
 * library creation, the `FeatureSet` bridge and `DeviceError`.
 */
module Device {
  import opened ObjC
  import opened Wrappers
  import opened Internal
  import Raw
  import Error
  import Library

  datatype DeviceError = ConstructionFailed | RawError(error: Raw.FromRawError)

  /** `From<FromRawError> for DeviceError`. */
  function FromRawError(e: Raw.FromRawError): (r: DeviceError)
    ensures r.RawError? && r.error == e
  {
    RawError(e)
  }

  /** `Error::cause`: only a conversion error has an underlying cause, and it is that conversion error. */
  function Cause(e: DeviceError): (r: Option<Raw.FromRawError>)
    ensures r.None? <==> e.ConstructionFailed?
    ensures e.RawError? ==> r == Some(e.error)
  {
    match e
    case ConstructionFailed => None
    case RawError(raw) => Some(raw)
  }

  /** `Error::description`. */
  function Description(e: DeviceError): string
  {
    match e
    case ConstructionFailed =>
      "Could not create a default device. Please ensure that you are using at least OSX 10.11 or iOS 8.0"
    case RawError(_) => "There was an error with the device pointer"
  }

  /** The description tells the two variants apart. */
  lemma DescriptionSeparatesVariants(e1: DeviceError, e2: DeviceError)
    ensures Description(e1) == Description(e2) <==> e1.ConstructionFailed? == e2.ConstructionFailed?
  {
    if e1.ConstructionFailed? != e2.ConstructionFailed? {
      assert |Description(e1)| != |Description(e2)|;
    }
  }

  /** `Display`, as written: both variants print the name of the first. */
  function Display(e: DeviceError): string
  {
    match e
    case ConstructionFailed => "DeviceError::ConstructionFailed"
    case RawError(_) => "DeviceError::ConstructionFailed"
  }

  /** A conversion error cannot be told from a construction failure by its `Display` text. */
  lemma DisplayConflatesVariants(e: Raw.FromRawError)
    ensures Display(RawError(e)) == Display(ConstructionFailed)
  {
  }

  /** `Display` naming the variant that occurred, as the `Display` of `FromRawError` does. */
  function DisplayIntended(e: DeviceError): string
  {
    match e
    case ConstructionFailed => "DeviceError::ConstructionFailed"
    case RawError(_) => "DeviceError::RawError"
  }

  lemma DisplayIntendedSeparatesVariants(e1: DeviceError, e2: DeviceError)
    ensures DisplayIntended(e1) == DisplayIntended(e2) <==> e1.ConstructionFailed? == e2.ConstructionFailed?
  {
    if e1.ConstructionFailed? != e2.ConstructionFailed? {
      assert |DisplayIntended(e1)| != |DisplayIntended(e2)|;
    }
  }

  /**
   * `system_default_device`, given the pointer `MTLCreateSystemDefaultDevice`
   * returned: any non-nil pointer is wrapped; no type check is made.
   */
  function SystemDefaultDevice(created: Id): (r: Result<Raw.Object, DeviceError>)
    ensures r.Ok? <==> created != Nil
    ensures r.Ok? ==> r.value == Raw.Object(Raw.Device, created)
    ensures r.Err? ==> r.error == ConstructionFailed
  {
    if created != Nil then Ok(Raw.Object(Raw.Device, created)) else Err(ConstructionFailed)
  }

  /** Without a type check, the default device is accepted even where `from_raw` would report the wrong type. */
  lemma SystemDefaultDeviceSkipsValidation(rt: Runtime, created: Id)
    ensures SystemDefaultDevice(created).Ok? <==> Raw.FromRaw(rt, Raw.Device, created) != Err(Raw.NilPointer)
    ensures Raw.FromRaw(rt, Raw.Device, created) == Err(Raw.WrongPointerType) ==> SystemDefaultDevice(created).Ok?
  {
  }

  /**
   * `enumerate_all_system_devices`, given the elements of the array
   * `MTLCopyAllDevices` returned: one entry per element, in array order.
   */
  method EnumerateAllSystemDevices(allDevices: seq<Id>) returns (devicesVec: seq<Result<Raw.Object, DeviceError>>)
    ensures |devicesVec| == |allDevices|
    ensures forall i | 0 <= i < |allDevices| :: devicesVec[i].Ok? <==> allDevices[i] != Nil
    ensures forall i | 0 <= i < |allDevices| :: devicesVec[i].Ok? ==> devicesVec[i].value == Raw.Object(Raw.Device, allDevices[i])
    ensures forall i | 0 <= i < |allDevices| :: devicesVec[i].Err? ==> devicesVec[i].error == ConstructionFailed
  {
    devicesVec := [];
    for i := 0 to |allDevices|
      invariant |devicesVec| == i
      invariant forall j | 0 <= j < i :: devicesVec[j].Ok? <==> allDevices[j] != Nil
      invariant forall j | 0 <= j < i :: devicesVec[j].Ok? ==> devicesVec[j].value == Raw.Object(Raw.Device, allDevices[j])
      invariant forall j | 0 <= j < i :: devicesVec[j].Err? ==> devicesVec[j].error == ConstructionFailed
    {
      var device := allDevices[i];
      if device != Nil {
        devicesVec := devicesVec + [Ok(Raw.Object(Raw.Device, device))];
      } else {
        devicesVec := devicesVec + [Err(ConstructionFailed)];
      }
    }
  }

  /** `new_default_library`: the `from_raw` result, its error converted with `LibraryError::from`. */
  function NewDefaultLibrary(rt: Runtime, library: Id): (r: Result<Raw.Object, Library.LibraryError>)
    ensures r.Ok? <==> Raw.FromRaw(rt, Raw.Library, library).Ok?
    ensures r.Ok? ==> r.value == Raw.Object(Raw.Library, library)
    ensures r.Err? ==> r.error == Library.FromRawError(Raw.FromRaw(rt, Raw.Library, library).error)
  {
    match Raw.FromRaw(rt, Raw.Library, library)
    case Ok(l) => Ok(l)
    case Err(e) => Err(Library.FromRawError(e))
  }

  /**
   * How `new_library_with_file`, `new_library_with_source` and the completion
   * block of `new_library_with_source_async` classify the library pointer and
   * the error pointer the runtime hands back.
   */
  function NewLibraryResult(rt: Runtime, library: Id, error: Id): (r: Result<Raw.Object, Library.LibraryError>)
    ensures library == Nil ==> r == Err(Library.FromNSError(Error.New(error)))
    ensures library != Nil ==> (r.Ok? <==> Raw.FromRaw(rt, Raw.Library, library).Ok?)
    ensures library != Nil && r.Ok? ==> r.value == Raw.Object(Raw.Library, library)
    ensures library != Nil && r.Err? ==> r.error == Library.FromRawError(Raw.FromRaw(rt, Raw.Library, library).error)
  {
    if library == Nil then
      Err(Library.FromNSError(Error.New(error)))
    else
      match Raw.FromRaw(rt, Raw.Library, library)
      case Ok(l) => Ok(l)
      case Err(e) => Err(Library.FromRawError(e))
  }

  /** A nil library is classified from the error pointer alone: `from_raw` and the runtime are not consulted. */
  lemma NilLibraryIgnoresRuntime(rt1: Runtime, rt2: Runtime, error: Id)
    ensures NewLibraryResult(rt1, Nil, error) == NewLibraryResult(rt2, Nil, error)
    ensures NewLibraryResult(rt1, Nil, error).Err? && NewLibraryResult(rt1, Nil, error).error.errorType == Library.SourceError
  {
  }

  /** A non-nil library is classified by `from_raw` alone, and the error pointer is ignored. */
  lemma NonNilLibraryIgnoresError(rt: Runtime, library: Id, e1: Id, e2: Id)
    requires library != Nil
    ensures NewLibraryResult(rt, library, e1) == NewLibraryResult(rt, library, e2) == NewDefaultLibrary(rt, library)
  {
  }

  /** The sending end of the channel the asynchronous library creation answers on. */
  class Sender {
    var sent: seq<Result<Raw.Object, Library.LibraryError>>

    constructor ()
      ensures sent == []
    {
      sent := [];
    }
  }

  /** The completion block of `new_library_with_source_async`: each invocation sends exactly one classified result. */
  method CompletionHandler(rt: Runtime, sender: Sender, lib: Id, err: Id)
    modifies sender
    ensures sender.sent == old(sender.sent) + [NewLibraryResult(rt, lib, err)]
  {
    if lib != Nil {
      match Raw.FromRaw(rt, Raw.Library, lib)
      case Ok(library) =>
        sender.sent := sender.sent + [Ok(library)];
      case Err(e) =>
        sender.sent := sender.sent + [Err(Library.FromRawError(e))];
    } else {
      sender.sent := sender.sent + [Err(Library.FromNSError(Error.New(err)))];
    }
  }

  // FeatureSet on macOS

  datatype MacOSFeatureSet = OsxGpuFamily1_v1 | NonUnaryCompileDummy

  /** `MTLFeatureSet` on macOS: `OSX_GPUFamily1_v1` is 10000 and the hidden dummy variant -1. */
  type MTLFeatureSetMacOS = t: int | t == 10000 || t == -1 witness 10000

  const MacOSArms: seq<Arm<MacOSFeatureSet>> := [Arm(OsxGpuFamily1_v1, 10000), Arm(NonUnaryCompileDummy, -1)]

  lemma MacOSArmsDistinct()
    ensures DistinctSafe(MacOSArms) && DistinctForeign(MacOSArms)
  {
  }

  lemma MacOSArmsListSafe(v: MacOSFeatureSet)
    ensures ListsSafe(MacOSArms, v)
  {
    match v
    case OsxGpuFamily1_v1 => assert MacOSArms[0].safe == v;
    case NonUnaryCompileDummy => assert MacOSArms[1].safe == v;
  }

  /** The generated `From` is exhaustive: its arms list exactly the foreign variants. */
  lemma MacOSArmsListForeign(t: int)
    ensures ListsForeign(MacOSArms, t) <==> t == 10000 || t == -1
  {
  }

  function IntoMacOS(v: MacOSFeatureSet): MTLFeatureSetMacOS
  {
    MacOSArmsListSafe(v);
    var t := Into(MacOSArms, v);
    MacOSArmsListForeign(t);
    t
  }

  function FromMacOS(t: MTLFeatureSetMacOS): MacOSFeatureSet
  {
    MacOSArmsListForeign(t);
    From(MacOSArms, t)
  }

  lemma MacOSFeatureSetTags()
    ensures IntoMacOS(OsxGpuFamily1_v1) == 10000 && FromMacOS(10000) == OsxGpuFamily1_v1
    ensures IntoMacOS(NonUnaryCompileDummy) == -1 && FromMacOS(-1) == NonUnaryCompileDummy
  {
    MacOSArmsDistinct();
    Table(MacOSArms);
  }

  lemma MacOSFeatureSetRoundTrip(v: MacOSFeatureSet, t: MTLFeatureSetMacOS)
    ensures FromMacOS(IntoMacOS(v)) == v
    ensures IntoMacOS(FromMacOS(t)) == t
  {
    MacOSArmsDistinct();
    MacOSArmsListSafe(v);
    RoundTripSafe(MacOSArms, v);
    RoundTripForeign(MacOSArms, t);
  }

  // FeatureSet on iOS

  datatype IOSFeatureSet = IOSGpuFamily1_v1 | IOSGpuFamily2_v1 | IOSGpuFamily1_v2 | IOSGpuFamily2_v2 | IOSGpuFamily3_v1

  /** `MTLFeatureSet` on iOS: five variants numbered 0 to 4. */
  type MTLFeatureSetIOS = t: int | 0 <= t <= 4

  const IOSArms: seq<Arm<IOSFeatureSet>> := [
    Arm(IOSGpuFamily1_v1, 0), Arm(IOSGpuFamily2_v1, 1), Arm(IOSGpuFamily1_v2, 2),
    Arm(IOSGpuFamily2_v2, 3), Arm(IOSGpuFamily3_v1, 4)
  ]

  lemma IOSArmsDistinct()
    ensures DistinctSafe(IOSArms) && DistinctForeign(IOSArms)
  {
  }

  lemma IOSArmsListSafe(v: IOSFeatureSet)
    ensures ListsSafe(IOSArms, v)
  {
    match v
    case IOSGpuFamily1_v1 => assert IOSArms[0].safe == v;
    case IOSGpuFamily2_v1 => assert IOSArms[1].safe == v;
    case IOSGpuFamily1_v2 => assert IOSArms[2].safe == v;
    case IOSGpuFamily2_v2 => assert IOSArms[3].safe == v;
    case IOSGpuFamily3_v1 => assert IOSArms[4].safe == v;
  }

  lemma IOSArmsListForeign(t: int)
    ensures ListsForeign(IOSArms, t) <==> 0 <= t <= 4
  {
    if 0 <= t <= 4 {
      assert IOSArms[t].foreign == t;
    }
  }

  function IntoIOS(v: IOSFeatureSet): MTLFeatureSetIOS
  {
    IOSArmsListSafe(v);
    var t := Into(IOSArms, v);
    IOSArmsListForeign(t);
    t
  }

  function FromIOS(t: MTLFeatureSetIOS): IOSFeatureSet
  {
    IOSArmsListForeign(t);
    From(IOSArms, t)
  }

  /** The i-th declared iOS feature set maps to tag i. */
  lemma IOSFeatureSetTags(i: nat)
    requires i < |IOSArms|
    ensures IntoIOS(IOSArms[i].safe) == i && FromIOS(i) == IOSArms[i].safe
  {
    IOSArmsDistinct();
    Table(IOSArms);
    assert IOSArms[i] in IOSArms;
  }

  lemma IOSFeatureSetRoundTrip(v: IOSFeatureSet, t: MTLFeatureSetIOS)
    ensures FromIOS(IntoIOS(v)) == v
    ensures IntoIOS(FromIOS(t)) == t
  {
    IOSArmsDistinct();
    IOSArmsListSafe(v);
    IOSArmsListForeign(t);
    RoundTripSafe(IOSArms, v);
    RoundTripForeign(IOSArms, t);
  }
}
