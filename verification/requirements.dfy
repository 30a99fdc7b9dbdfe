/** Requirement resolution: the recipe's `requirements` hook pins one
    package for `core_geometry` and eight for `core_imaging`. */
module PackageRequirements {
  import opened Wrappers
  import opened VxlOptions

  /** A pinned dependency, written `name/version` in the recipe. */
  datatype Requirement = Requirement(name: string, version: string)

  const Clipper := Requirement("clipper", "6.4.2")

  /** The packages `core_imaging` pulls in, in the order the recipe asks
      for them. */
  const ImagingRequirements: seq<Requirement> := [
    Requirement("bzip2", "1.0.8"),
    Requirement("dcmtk", "3.6.6"),
    Requirement("libgeotiff", "1.6.0"),
    Requirement("libjpeg", "9d"),
    Requirement("libpng", "1.6.37"),
    Requirement("libtiff", "4.2.0"),
    Requirement("openjpeg", "2.4.0"),
    Requirement("zlib", "1.2.11")
  ]

  /** No package name occurs twice. */
  predicate DistinctNames(rs: seq<Requirement>) {
    forall i, j :: 0 <= i < j < |rs| ==> rs[i].name != rs[j].name
  }

  /** The `requires` calls of the hook, in the order it makes them. */
  function Requirements(o: Options): (rs: seq<Requirement>)
    ensures DistinctNames(rs)
    ensures |rs| == (if o.coreGeometry then 1 else 0) + (if o.coreImaging then 8 else 0)
    ensures rs == [] <==> !o.coreGeometry && !o.coreImaging
  {
    (if o.coreGeometry then [Clipper] else []) + (if o.coreImaging then ImagingRequirements else [])
  }

  /** The resolved requirements as a set. */
  function RequirementSet(o: Options): (r: set<Requirement>)
    ensures r == (if o.coreGeometry then {Clipper} else {})
               + (if o.coreImaging then set q | q in ImagingRequirements else {})
    ensures r == {} <==> !o.coreGeometry && !o.coreImaging
  {
    var rs := Requirements(o);
    var r := set q | q in rs;
    assert rs != [] ==> rs[0] in r;
    r
  }

  // ---------------------------------------------------------------------
  // Reference definition: which option pulls each package in, indexed by
  // package name.
  // ---------------------------------------------------------------------

  /** For each package the recipe can require: the option that requires it
      and the version it is pinned to. */
  function Pin(name: string): Option<(Flag, string)> {
    match name
    case "clipper" => Some((CoreGeometry, "6.4.2"))
    case "bzip2" => Some((CoreImaging, "1.0.8"))
    case "dcmtk" => Some((CoreImaging, "3.6.6"))
    case "libgeotiff" => Some((CoreImaging, "1.6.0"))
    case "libjpeg" => Some((CoreImaging, "9d"))
    case "libpng" => Some((CoreImaging, "1.6.37"))
    case "libtiff" => Some((CoreImaging, "4.2.0"))
    case "openjpeg" => Some((CoreImaging, "2.4.0"))
    case "zlib" => Some((CoreImaging, "1.2.11"))
    case _ => None
  }

  /** A package is required exactly when it has a pin, its option is on,
      and the version is the pinned one. */
  lemma RequirementsMatchPins(o: Options, q: Requirement)
    ensures q in Requirements(o) <==>
              Pin(q.name).Some? && Get(o, Pin(q.name).value.0) && q.version == Pin(q.name).value.1
  {
  }

  /** The hook depends on nothing but `core_geometry` and `core_imaging`. */
  lemma RequirementsDependOnlyOnGeometryAndImaging(o1: Options, o2: Options)
    requires o1.coreGeometry == o2.coreGeometry && o1.coreImaging == o2.coreImaging
    ensures Requirements(o1) == Requirements(o2)
  {
  }
}
