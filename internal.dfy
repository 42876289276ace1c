/**
 * The crate's internal helpers: the `convertible_enum!` generator and the two
 * validators that `from_raw` consults.
 *
 * An instance of the generator declares a safe enum whose variants are listed
 * as arms `Safe => Foreign`; it generates `Into` (safe to foreign) and `From`
 * (foreign to safe) as `match` expressions over that list. Here an instance is
 * its list of arms, a foreign variant is its integer tag, and each generated
 * `match` picks the first arm that matches, as Rust's `match` does.
 */
module Internal {
  import opened ObjC

  /** One arm `safe => foreign` of a `convertible_enum!` instance. */
  datatype Arm<E> = Arm(safe: E, foreign: int)

  ghost predicate ListsSafe<E>(arms: seq<Arm<E>>, v: E)
  {
    exists a | a in arms :: a.safe == v
  }

  ghost predicate ListsForeign<E>(arms: seq<Arm<E>>, t: int)
  {
    exists a | a in arms :: a.foreign == t
  }

  /** No safe variant is listed in two arms. */
  ghost predicate DistinctSafe<E>(arms: seq<Arm<E>>)
  {
    forall a, b | a in arms && b in arms && a.safe == b.safe :: a == b
  }

  /** No foreign variant is listed in two arms. */
  ghost predicate DistinctForeign<E>(arms: seq<Arm<E>>)
  {
    forall a, b | a in arms && b in arms && a.foreign == b.foreign :: a == b
  }

  lemma InTail<E>(arms: seq<Arm<E>>, a: Arm<E>)
    requires a in arms && a != arms[0]
    ensures a in arms[1..]
  {
    var i :| 0 <= i < |arms| && arms[i] == a;
    assert arms[1..][i - 1] == a;
  }

  /** The generated `Into`: the foreign variant of the first arm that lists `v`. */
  function Into<E(==)>(arms: seq<Arm<E>>, v: E): (t: int)
    requires ListsSafe(arms, v)
    ensures Arm(v, t) in arms
  {
    if arms[0].safe == v then arms[0].foreign
    else
      var a :| a in arms && a.safe == v;
      InTail(arms, a);
      Into(arms[1..], v)
  }

  /** The generated `From`: the safe variant of the first arm that lists `t`. */
  function From<E(==)>(arms: seq<Arm<E>>, t: int): (v: E)
    requires ListsForeign(arms, t)
    ensures Arm(v, t) in arms
  {
    if arms[0].foreign == t then arms[0].safe
    else
      var a :| a in arms && a.foreign == t;
      InTail(arms, a);
      From(arms[1..], t)
  }

  /** `Into` takes the first arm that lists `v`; arms after it are unreachable for `v`. */
  lemma {:induction false} IntoFirstMatch<E>(arms: seq<Arm<E>>, v: E, i: nat)
    requires i < |arms| && arms[i].safe == v
    requires forall j | 0 <= j < i :: arms[j].safe != v
    ensures ListsSafe(arms, v) && Into(arms, v) == arms[i].foreign
  {
    assert arms[i] in arms;
    if i > 0 {
      assert arms[1..][i - 1] == arms[i];
      IntoFirstMatch(arms[1..], v, i - 1);
    }
  }

  /** `From` takes the first arm that lists `t`; arms after it are unreachable for `t`. */
  lemma {:induction false} FromFirstMatch<E>(arms: seq<Arm<E>>, t: int, i: nat)
    requires i < |arms| && arms[i].foreign == t
    requires forall j | 0 <= j < i :: arms[j].foreign != t
    ensures ListsForeign(arms, t) && From(arms, t) == arms[i].safe
  {
    assert arms[i] in arms;
    if i > 0 {
      assert arms[1..][i - 1] == arms[i];
      FromFirstMatch(arms[1..], t, i - 1);
    }
  }

  /** With pairwise distinct foreign variants, `From` undoes `Into`. */
  lemma RoundTripSafe<E>(arms: seq<Arm<E>>, v: E)
    requires DistinctForeign(arms) && ListsSafe(arms, v)
    ensures ListsForeign(arms, Into(arms, v)) && From(arms, Into(arms, v)) == v
  {
    var t := Into(arms, v);
    assert Arm(v, t) in arms;
    assert Arm(From(arms, t), t) in arms;
  }

  /** With pairwise distinct safe variants, `Into` undoes `From`. */
  lemma RoundTripForeign<E>(arms: seq<Arm<E>>, t: int)
    requires DistinctSafe(arms) && ListsForeign(arms, t)
    ensures ListsSafe(arms, From(arms, t)) && Into(arms, From(arms, t)) == t
  {
    var v := From(arms, t);
    assert Arm(v, t) in arms;
    assert Arm(v, Into(arms, v)) in arms;
  }

  /** `Into` is injective whenever the listed foreign variants are pairwise distinct. */
  lemma IntoInjective<E>(arms: seq<Arm<E>>, v: E, w: E)
    requires DistinctForeign(arms) && ListsSafe(arms, v) && ListsSafe(arms, w)
    requires Into(arms, v) == Into(arms, w)
    ensures v == w
  {
    RoundTripSafe(arms, v);
    RoundTripSafe(arms, w);
  }

  /** With both sides distinct, every arm is read the same way in both directions. */
  lemma Table<E>(arms: seq<Arm<E>>)
    requires DistinctSafe(arms) && DistinctForeign(arms)
    ensures forall a | a in arms :: ListsSafe(arms, a.safe) && Into(arms, a.safe) == a.foreign
    ensures forall a | a in arms :: ListsForeign(arms, a.foreign) && From(arms, a.foreign) == a.safe
  {
  }

  /**
   * `conforms_to_protocol`: compares the runtime's reply with NO, so it is
   * true exactly when the object does NOT conform (and for nil).
   */
  function ConformsToProtocol(rt: Runtime, obj: Id, protocol: string): (r: bool)
    ensures r <==> !(obj != Nil && rt.conformsTo(obj, protocol))
  {
    ConformsToProtocolReply(rt, obj, protocol) == NO
  }

  /** `is_kind_of_class`: compares the runtime's reply with YES, so it is true exactly when the object is of the class. */
  function IsKindOfClass(rt: Runtime, obj: Id, className: string): (r: bool)
    ensures r <==> obj != Nil && rt.IsInstanceOf(obj, className)
  {
    IsKindOfClassReply(rt, obj, className) == YES
  }
}
