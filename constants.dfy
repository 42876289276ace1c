/**
 * Shading language versions: the `SpecificLanguageVersion` bridge and the
 * default `LanguageVersion`.
 */
module Constants {
  import opened Wrappers

  /** `MTLLanguageVersion1_0` is one shifted left by sixteen. */
  const MTLLanguageVersion1_0: int := ((1 as bv64) << 16) as int

  /** `MTLLanguageVersion1_1` is one past `MTLLanguageVersion1_0`. */
  const MTLLanguageVersion1_1: int := ((1 as bv64) << 16) as int + 1

  /** `MTLLanguageVersion`: only the two declared tags. */
  type MTLLanguageVersion = t: int | t == MTLLanguageVersion1_0 || t == MTLLanguageVersion1_1
    witness MTLLanguageVersion1_0

  datatype SpecificLanguageVersion = Version_1_0 | Version_1_1

  /** A language version request: the newest the device supports, or a specific one. */
  datatype LanguageVersion = Latest | Specific(version: SpecificLanguageVersion)

  /** `LanguageVersion::default()`. */
  function Default(): (r: LanguageVersion)
    ensures r.Latest?
  {
    Latest
  }

  /** The declared tags are 65536 and 65537. */
  lemma LanguageVersionValues()
    ensures MTLLanguageVersion1_0 == 65536 && MTLLanguageVersion1_1 == 65537
  {
  }

  /** `From<MTLLanguageVersion>`. */
  function FromLanguageVersion(t: MTLLanguageVersion): SpecificLanguageVersion
  {
    if t == MTLLanguageVersion1_0 then Version_1_0 else Version_1_1
  }

  /** `Into<MTLLanguageVersion>`. */
  function IntoLanguageVersion(v: SpecificLanguageVersion): MTLLanguageVersion
  {
    match v
    case Version_1_0 => MTLLanguageVersion1_0
    case Version_1_1 => MTLLanguageVersion1_1
  }

  /** Version 1.0 maps to 65536 and version 1.1 to 65537, in both directions. */
  lemma LanguageVersionTags()
    ensures IntoLanguageVersion(Version_1_0) == 65536 && IntoLanguageVersion(Version_1_1) == 65537
    ensures FromLanguageVersion(65536) == Version_1_0 && FromLanguageVersion(65537) == Version_1_1
  {
    LanguageVersionValues();
  }

  /** The bridge is a bijection between the two versions and the two tags. */
  lemma LanguageVersionRoundTrip(v: SpecificLanguageVersion, t: MTLLanguageVersion)
    ensures FromLanguageVersion(IntoLanguageVersion(v)) == v
    ensures IntoLanguageVersion(FromLanguageVersion(t)) == t
  {
    LanguageVersionValues();
  }

  /**
   * Only a specific request carries a foreign tag; `Latest` has none. The tag
   * of a request, when it has one.
   */
  function RequestedTag(l: LanguageVersion): (r: Option<MTLLanguageVersion>)
    ensures r.Some? <==> l.Specific?
    ensures r.Some? ==> FromLanguageVersion(r.value) == l.version
  {
    match l
    case Latest => None
    case Specific(v) =>
      LanguageVersionRoundTrip(v, MTLLanguageVersion1_0);
      Some(IntoLanguageVersion(v))
  }
}
