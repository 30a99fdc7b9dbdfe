# VXL Conan recipe: option resolution

This project models the option-resolution layer of the Conan recipe that
packages VXL, a collection of C++ computer-vision libraries. The recipe
declares ten boolean options. It resolves them against the platform in four
steps:

- **Pruning.** It removes `fPIC` on Windows (`config_options`) and for shared
  builds (`configure`).
- **Requirements.** It pins `clipper` for `core_geometry` and eight packages
  for `core_imaging` (`requirements`).
- **Validation.** It rejects a C++ standard older than C++11 when one is set.
  It then checks three implication rules in a fixed order (`validate`).
- **Definitions.** It writes a dictionary of CMake definitions for VXL's build
  and memoises the configured CMake helper (`_configure_cmake`).

Modules, one per step:

- `Wrappers`: `Option` and `Result`.
- `VxlOptions`: the settings the recipe reads (`os`, optional `cppstd`), the
  option record with an optional `fPIC`, and `default_options`.
- `Pruning`: `config_options`, `configure` and their composition.
- `Validation`: `validate`. Its partner is a reference table of the three
  rules and a proof that `validate` reports the first violated rule.
- `PackageRequirements`: `requirements`, in call order. Its partner is a
  reference lookup that maps each package name to its pinned version and
  the option that pulls it in.
- `CMakeDefinitions`: the definition statements in source order, run as
  successive dictionary assignments. Its partner is a per-variable reference
  entry. This module also renders the dictionary with CMake variable names.
- `CMakeCache`: the `_cmake` cache shared by the `build` and `package` hooks.
- `Resolver`: one whole configuration pass, plus the end-to-end scenarios.

Details of the code the model keeps:

- `core_imaging` requires eight packages (bzip2, dcmtk, libgeotiff, libjpeg,
  libpng, libtiff, openjpeg, zlib).
- The rejection messages are the recipe's own strings, such as
  `core_probability requires core_numerics`.
- The `_cmake` cache is not keyed by the options. Once set, it is returned
  whatever the options are.

## Model

| member | source | states |
|---|---|---|
| VxlOptions.DefaultOptions | conanfile.py:29-40 | by default `shared` is off and `fPIC` is on; exactly the flags other than `shared`, `core_video` and `gui` are enabled |
| Pruning.ConfigOptions | conanfile.py:50-52 | on Windows `fPIC` is removed; elsewhere the record is unchanged; no other option ever changes |
| Pruning.Configure | conanfile.py:54-56 | a shared build removes `fPIC`; a static build keeps the record; no other option ever changes |
| Pruning.Prune | conanfile.py:50-56 | after both hooks `fPIC` is absent iff the OS is Windows, the build is shared, or it was absent already; otherwise it keeps its requested value; nothing else changes |
| Pruning.PruneKeepsFlags | conanfile.py:50-56 | pruning leaves every flag other than `fPIC` as requested |
| Pruning.PruneIdempotent | conanfile.py:50-56 | pruning twice is pruning once |
| Pruning.PruneHooksCommute | conanfile.py:50-56 | the OS hook and the shared hook give the same result in either order |
| PackageRequirements.Requirements | conanfile.py:58-69 | no package name occurs twice; the count is 1 for geometry plus 8 for imaging; none exactly when both flags are off |
| PackageRequirements.RequirementSet | conanfile.py:58-69 | the set is `{clipper/6.4.2}` if `core_geometry`, joined with the eight pinned imaging packages if `core_imaging`; it is empty iff both are off |
| PackageRequirements.RequirementsMatchPins | conanfile.py:58-69 | a package is required iff it has a pin, the pin's option is on, and the version is the pinned one |
| PackageRequirements.RequirementsDependOnlyOnGeometryAndImaging | conanfile.py:58-69 | two option records that agree on `core_geometry` and `core_imaging` get the same requirements |
| Validation.Validate | conanfile.py:71-81 | it fails with the C++-standard error iff a `cppstd` setting is present and older than C++11; that error carries the current and required standards |
| Validation.ValidateMatchesRules | conanfile.py:75-81 | once the standard is accepted, it succeeds iff no rule of the reference table is violated; a failure carries the error of the first violated rule, in the order probability, gui, video |
| Validation.ValidateRejectsExactly | conanfile.py:71-81 | it accepts iff the standard is accepted and none of the three conditions holds: `core_probability` without `core_numerics`; `gui` without all five core libraries; `core_video` without utilities and imaging |
| Validation.CppstdCheck | conanfile.py:72-73 | an absent `cppstd` is always accepted; a present one is accepted iff it is C++11 or newer (98 counts as 1998) |
| Validation.DefaultsAreValid | conanfile.py:75-81 | the default options pass every rule |
| Validation.ValidateIgnoresLinkage | conanfile.py:71-81 | `shared` and `fPIC` take no part in validation |
| CMakeDefinitions.NameInjective | conanfile.py:97-120 | distinct CMake variables have distinct names, so the name-keyed dictionary loses no entry |
| CMakeDefinitions.DefinitionsMatchEntries | conanfile.py:96-120 | running the source's assignments in order yields, for every variable, exactly the per-variable reference entry: present iff it has an entry, with that value |
| CMakeDefinitions.PlatformSwitchExclusive | conanfile.py:100-103 | `VXL_USE_WIN_WCHAR_T` (true) is set iff the OS is Windows; `VXL_BUILD_POSITION_DEPENDENT_CODE` is set iff it is not, and then equals `fPIC`, or true when `fPIC` was removed |
| CMakeDefinitions.CoreSwitchesVerbatim | conanfile.py:105-120 | each `VXL_BUILD_CORE_*` switch equals its option; `VXL_BUILD_VGUI` is present and false even when `gui` is on |
| CMakeDefinitions.OtherSwitchesConstant | conanfile.py:97-120 | every switch that does not follow an option has the same presence and value for any two option records |
| CMakeDefinitions.DefinitionsIgnoreSharedAndGui | conanfile.py:97-120 | `shared` and `gui` do not reach the recipe's own assignments except through the pruned `fPIC` |
| CMakeDefinitions.DefinitionKeys | conanfile.py:97-120 | every variable is set except the other platform's switch |
| CMakeDefinitions.ByName | conanfile.py:97-120 | the recipe's assignments rendered by name: each variable's value under its name, and no name the recipe does not assign |
| CMakeDefinitions.ByNamePlatformSwitch | conanfile.py:100-103 | by name, `VXL_USE_WIN_WCHAR_T` is a key iff the OS is Windows, and `VXL_BUILD_POSITION_DEPENDENT_CODE` is a key iff it is not |
| CMakeCache.ConfigureCMake | conanfile.py:91-123 | the helper returned is the one now cached; with a cached helper, the state and result are the cached ones; otherwise CMake's configure step runs once more |
| CMakeCache.ConfigureCMakeIdempotent | conanfile.py:92-94 | a second call returns the first call's helper and changes nothing |
| CMakeCache.FirstCallComputesDefinitions | conanfile.py:94-120 | an uncached call hands out the definitions of the recipe's settings and options |
| CMakeCache.CachedHelperReused | conanfile.py:92-93 | with a cached helper, any sequence of hooks leaves the state alone and every hook gets that helper |
| CMakeCache.ConfiguredOnce | conanfile.py:125-133 | from an empty cache, any non-empty sequence of `build`/`package` hooks configures CMake exactly once, and every hook sees the same freshly computed definitions |
| Resolver.Resolve | conanfile.py:50-120 | the pass succeeds iff `validate` accepts the requested options, and fails with `validate`'s error otherwise; on success the options are the pruned ones, the requirements are those of the requested options (distinct names), the definitions are those of the settings and pruned options, and off Windows the position-dependent-code switch is `shared` or the requested `fPIC` (true if unset) |
| Resolver.DefaultsResolve | conanfile.py:29-81 | the defaults resolve wherever the standard is accepted, with nine requirements; off Windows they set the position-dependent-code switch |
| Resolver.AllCoreStaticBuild | conanfile.py:58-120 | all `core_*` options on, no GUI, static, off Windows: valid, switch true, and clipper plus the eight imaging packages required |
| Resolver.ProbabilityWithoutNumericsRejected | conanfile.py:75-76 | `core_probability` without `core_numerics` is rejected with that rule's message, whatever the other options are |
| Resolver.GuiWithoutImagingRejected | conanfile.py:77-79 | `gui` with the other core options on but imaging off is rejected by the GUI rule, with the recipe's GUI message |
| Resolver.VideoWithoutUtilitiesOrImagingRejected | conanfile.py:80-81 | `core_video` without utilities or imaging, once the probability and GUI rules pass, is rejected with the recipe's video message |
| Resolver.NoGeometryNoImagingNoRequirements | conanfile.py:58-69 | with geometry and imaging off, nothing is required |

## Left out

- `source`, `_patch_sources`, `package` and `package_info` are left out. They download archives, apply patches, copy files and collect libraries, which is I/O through Conan's tools.
- The calls that construct CMake and run its `configure`, `build` and `install` steps are external tool invocations. The model only counts configure runs, in `CMakeCache.Recipe.configureRuns`.
- `tools.check_min_cppstd` is a foreign call. It is modelled as a year comparison on the `cppstd` setting with any `gnu` prefix dropped. 98 means 1998 and any other value `v` means 2000 + `v`.
- Validation.Validate: the text of Conan's C++-standard error is not reproduced. The model's message only summarises it, because the text comes from Conan, not from the recipe.
- Conan's dynamic option registry is represented as an optional `fPIC` field, not as attribute deletion. Removing `fPIC` when it is already gone (Windows and shared) is modelled as leaving it gone. Whether Conan tolerates that second deletion is outside the recipe.
- Conan asks for requirements before it validates. `Resolver.Resolve` returns no requirements for a rejected configuration. It still computes them the same way.
- The definitions dictionary is only the recipe's own assignments at conanfile.py:97-120. `CMake(self)` (conanfile.py:94) pre-fills the dictionary with Conan's own entries, for example `BUILD_SHARED_LIBS` from `shared`. Those entries are Conan's and are not modelled, so the statements about `CMakeDefinitions.Definitions` and `CMakeDefinitions.ByName` cover the recipe's entries only.
- The `arch` and `build_type` settings, the compiler identity, class metadata, `generators`, `exports_sources` and `required_conan_version` are left out. Nothing in the modelled logic reads them.
- The recipe passes `fPIC` to `VXL_BUILD_POSITION_DEPENDENT_CODE` unchanged, and the model does the same. Whether VXL's CMake files read that switch with the opposite sense is outside this model. VXL's CMake files are not part of it.
