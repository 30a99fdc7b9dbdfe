/** One configuration pass, in the order Conan calls the recipe's hooks:
    `config_options`, `configure`, `requirements`, `validate`, and then,
    for a valid configuration only, the definitions for CMake. */
module Resolver {
  import opened Wrappers
  import opened VxlOptions
  import opened Pruning
  import opened Validation
  import opened PackageRequirements
  import opened CMakeDefinitions

  /** Everything a valid configuration hands to the build. */
  datatype Resolution = Resolution(
    options: Options,
    requirements: seq<Requirement>,
    definitions: map<Definition, bool>)

  /** The whole pass: an error before any build work, or the pruned
      options, the requirements and the CMake definitions. */
  function Resolve(s: Settings, requested: Options): (r: Result<Resolution, ConfigError>)
    ensures r.Success? <==> Validate(s, requested).Success?
    ensures r.Failure? ==> r.error == Validate(s, requested).error
    ensures r.Success? ==> r.value.options == Prune(s, requested)
    ensures r.Success? ==> r.value.requirements == Requirements(requested)
    ensures r.Success? ==> r.value.definitions == Definitions(s, r.value.options)
    ensures r.Success? ==> DistinctNames(r.value.requirements)
    ensures r.Success? && !IsWindows(s) ==>
              BuildPositionDependentCode in r.value.definitions
              && r.value.definitions[BuildPositionDependentCode] == (requested.shared || requested.fPIC.GetOr(true))
  {
    var o := Prune(s, requested);
    var requirements := Requirements(o);
    ValidateIgnoresLinkage(s, requested, o.shared, o.fPIC);
    var _ :- Validate(s, o);
    PlatformSwitchExclusive(s, o);
    Success(Resolution(o, requirements, Definitions(s, o)))
  }

  /** The default options resolve on every platform whose C++ standard is
      accepted; off Windows they ask for position-independent code and pull
      in all nine packages. */
  lemma DefaultsResolve(s: Settings)
    requires CppstdAccepted(s)
    ensures Resolve(s, DefaultOptions()).Success?
    ensures var res := Resolve(s, DefaultOptions()).value;
            && |res.requirements| == 9
            && (!IsWindows(s) ==> res.definitions[BuildPositionDependentCode])
  {
    DefaultsAreValid(s);
  }

  /** Every `core_*` option on, no GUI, a static build off Windows: valid,
      position-independent code requested, clipper and the eight imaging
      packages required. */
  lemma AllCoreStaticBuild(s: Settings)
    requires CppstdAccepted(s) && !IsWindows(s)
    ensures var requested := Options(false, Some(true), true, true, true, true, true, true, true, false);
            && Resolve(s, requested).Success?
            && Resolve(s, requested).value.definitions[BuildPositionDependentCode]
            && RequirementSet(Resolve(s, requested).value.options)
               == {Clipper} + set q | q in ImagingRequirements
  {
  }

  /** `core_probability` without `core_numerics` is rejected with the
      probability message, whatever the other options are. */
  lemma ProbabilityWithoutNumericsRejected(s: Settings, o: Options)
    requires CppstdAccepted(s)
    requires o.coreProbability && !o.coreNumerics
    ensures Resolve(s, o) == Failure(ProbabilityWithoutNumerics)
    ensures Message(Resolve(s, o).error) == "core_probability requires core_numerics"
  {
  }

  /** A GUI request with imaging off fails the GUI rule. */
  lemma GuiWithoutImagingRejected(s: Settings, shared: bool, fPIC: Option<bool>, probability: bool)
    requires CppstdAccepted(s)
    ensures var requested := Options(shared, fPIC, true, true, true, true, false, probability, false, true);
            && Resolve(s, requested) == Failure(GuiWithoutCore)
            && Message(Resolve(s, requested).error)
               == "gui requires core_numerics, core_geometry, core_serialisation, core_utilities and core_imaging"
  {
  }

  /** `core_video` without utilities or imaging is rejected with the video
      message once the first two rules pass. */
  lemma VideoWithoutUtilitiesOrImagingRejected(s: Settings, o: Options)
    requires CppstdAccepted(s)
    requires o.coreNumerics && !o.gui
    requires o.coreVideo && !(o.coreUtilities && o.coreImaging)
    ensures Resolve(s, o) == Failure(VideoWithoutCore)
    ensures Message(Resolve(s, o).error) == "core_video requires core_utilities and core_imaging"
  {
  }

  /** Neither geometry nor imaging: no requirement at all. */
  lemma NoGeometryNoImagingNoRequirements(o: Options)
    requires !o.coreGeometry && !o.coreImaging
    ensures Requirements(o) == []
    ensures RequirementSet(o) == {}
  {
  }
}
