/** `_configure_cmake` memoises the configured CMake helper on the recipe
    instance: the first call builds the definitions and runs CMake's
    configure step, every later call returns the same helper. `build` and
    `package` both go through it. */
module CMakeCache {
  import opened Wrappers
  import opened VxlOptions
  import opened CMakeDefinitions

  /** A configured CMake helper, reduced to the definitions it was given. */
  datatype CMakeHelper = CMakeHelper(definitions: map<Definition, bool>)

  /** The part of the recipe instance the cache touches. `configureRuns`
      counts how often CMake's configure step has been started. */
  datatype Recipe = Recipe(
    settings: Settings,
    options: Options,
    cmake: Option<CMakeHelper>,
    configureRuns: nat)

  /** `_configure_cmake`: the new recipe state and the helper returned. */
  function ConfigureCMake(r: Recipe): (res: (Recipe, CMakeHelper))
    ensures res.0.cmake == Some(res.1)
    ensures res.0.settings == r.settings && res.0.options == r.options
    ensures r.cmake.Some? ==> res.1 == r.cmake.value && res.0 == r
    ensures r.cmake.None? ==> res.0.configureRuns == r.configureRuns + 1
  {
    match r.cmake
    case Some(helper) => (r, helper)
    case None =>
      var helper := CMakeHelper(Definitions(r.settings, r.options));
      (r.(cmake := Some(helper), configureRuns := r.configureRuns + 1), helper)
  }

  /** The two hooks that ask for the helper. */
  datatype Hook = BuildHook | PackageHook

  /** Runs hooks in order; returns the final state and the helper each hook
      worked with. Both hooks reach the helper the same way. */
  function RunHooks(r: Recipe, hooks: seq<Hook>): (Recipe, seq<CMakeHelper>)
    decreases |hooks|
  {
    if hooks == [] then (r, [])
    else
      var (r1, helper) := ConfigureCMake(r);
      var (r2, rest) := RunHooks(r1, hooks[1..]);
      (r2, [helper] + rest)
  }

  /** A second call changes nothing and returns the helper of the first. */
  lemma ConfigureCMakeIdempotent(r: Recipe)
    ensures ConfigureCMake(ConfigureCMake(r).0) == ConfigureCMake(r)
  {
  }

  /** The first call hands out the definitions of the recipe's own settings
      and options. */
  lemma FirstCallComputesDefinitions(r: Recipe)
    requires r.cmake.None?
    ensures ConfigureCMake(r).1.definitions == Definitions(r.settings, r.options)
  {
  }

  /** Once cached, the helper is returned untouched by any number of hooks. */
  lemma {:induction false} CachedHelperReused(r: Recipe, hooks: seq<Hook>)
    requires r.cmake.Some?
    ensures RunHooks(r, hooks).0 == r
    ensures |RunHooks(r, hooks).1| == |hooks|
    ensures forall i :: 0 <= i < |hooks| ==> RunHooks(r, hooks).1[i] == r.cmake.value
    decreases |hooks|
  {
    if hooks != [] {
      CachedHelperReused(r, hooks[1..]);
    }
  }

  /** However many hooks run, CMake is configured once, and every hook works
      with the definitions computed from the recipe's settings and options. */
  lemma {:induction false} ConfiguredOnce(r: Recipe, hooks: seq<Hook>)
    requires r.cmake.None?
    requires |hooks| > 0
    ensures RunHooks(r, hooks).0.configureRuns == r.configureRuns + 1
    ensures |RunHooks(r, hooks).1| == |hooks|
    ensures forall i :: 0 <= i < |hooks| ==>
              RunHooks(r, hooks).1[i].definitions == Definitions(r.settings, r.options)
  {
    var (r1, helper) := ConfigureCMake(r);
    CachedHelperReused(r1, hooks[1..]);
  }
}
