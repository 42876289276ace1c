/**
 * `Function`: the function type bridge, the `function_type` getter and the
 * protocol the wrapper validates with.
 */
module Function {
  import opened ObjC
  import opened Wrappers
  import opened Internal
  import Raw

  datatype FunctionType = Vertex | Fragment | Kernel

  /** `MTLFunctionType`: Vertex = 1, Fragment = 2, Kernel = 3; no variant has the value 0. */
  type MTLFunctionType = t: int | 1 <= t <= 3 witness 1

  const FunctionTypeArms: seq<Arm<FunctionType>> := [Arm(Vertex, 1), Arm(Fragment, 2), Arm(Kernel, 3)]

  lemma FunctionTypeArmsDistinct()
    ensures DistinctSafe(FunctionTypeArms) && DistinctForeign(FunctionTypeArms)
  {
  }

  lemma FunctionTypeArmsListSafe(v: FunctionType)
    ensures ListsSafe(FunctionTypeArms, v)
  {
    match v
    case Vertex => assert FunctionTypeArms[0].safe == v;
    case Fragment => assert FunctionTypeArms[1].safe == v;
    case Kernel => assert FunctionTypeArms[2].safe == v;
  }

  lemma FunctionTypeArmsListForeign(t: int)
    ensures ListsForeign(FunctionTypeArms, t) <==> 1 <= t <= 3
  {
    if 1 <= t <= 3 {
      assert FunctionTypeArms[t - 1].foreign == t;
    }
  }

  function IntoFunctionType(v: FunctionType): MTLFunctionType
  {
    FunctionTypeArmsListSafe(v);
    var t := Into(FunctionTypeArms, v);
    FunctionTypeArmsListForeign(t);
    t
  }

  function FromFunctionType(t: MTLFunctionType): FunctionType
  {
    FunctionTypeArmsListForeign(t);
    From(FunctionTypeArms, t)
  }

  /** Vertex, Fragment and Kernel map to 1, 2 and 3 in both directions, and tag 0 has no arm. */
  lemma FunctionTypeTags()
    ensures IntoFunctionType(Vertex) == 1 && IntoFunctionType(Fragment) == 2 && IntoFunctionType(Kernel) == 3
    ensures FromFunctionType(1) == Vertex && FromFunctionType(2) == Fragment && FromFunctionType(3) == Kernel
    ensures !ListsForeign(FunctionTypeArms, 0)
  {
    FunctionTypeArmsDistinct();
    Table(FunctionTypeArms);
    FunctionTypeArmsListForeign(0);
  }

  lemma FunctionTypeRoundTrip(v: FunctionType, t: MTLFunctionType)
    ensures FromFunctionType(IntoFunctionType(v)) == v
    ensures IntoFunctionType(FromFunctionType(t)) == t
  {
    FunctionTypeArmsDistinct();
    FunctionTypeArmsListSafe(v);
    FunctionTypeArmsListForeign(t);
    RoundTripSafe(FunctionTypeArms, v);
    RoundTripForeign(FunctionTypeArms, t);
  }

  /** `function_type`: the safe image of the type the function reports. */
  function GetFunctionType(reply: MTLFunctionType): (r: FunctionType)
    ensures IntoFunctionType(r) == reply
  {
    FunctionTypeRoundTrip(Vertex, reply);
    FromFunctionType(reply)
  }

  /** The wrapper validates through the protocol arm with "MTLFunction". */
  lemma FunctionProtocol(rt: Runtime, h: Id)
    ensures Raw.Declared(Raw.Function) == Raw.OfProtocol("MTLFunction")
    ensures h != Nil ==> (Raw.FromRaw(rt, Raw.Function, h).Ok? <==> rt.conformsTo(h, "MTLFunction"))
  {
    if h != Nil {
      Raw.ProtocolArm(rt, Raw.Function, h);
    }
  }
}
