/** The CMake definitions `_configure_cmake` hands to VXL's build: a few
    fixed policy switches, one platform-dependent switch and one switch per
    `core_*` option. */
module CMakeDefinitions {
  import opened Wrappers
  import opened VxlOptions

  /** The CMake cache variables the recipe sets. */
  datatype Definition =
    | LegacyFutureRemove
    | UseHistoricalImplicitConversions
    | UseHistoricalProtectedIvars
    | UseWinWcharT
    | BuildPositionDependentCode
    | UseLfs
    | BuildCoreNumericsOnly
    | BuildCoreNumerics
    | BuildCoreGeometry
    | BuildCoreSerialisation
    | BuildCoreUtilities
    | BuildCoreImaging
    | BuildExamples
    | BuildNondeprecatedOnly
    | BuildCoreProbability
    | UseGeotiff
    | BuildContrib
    | BuildObjectLibraries
    | BuildVgui
    | BuildCoreVideo

  /** The variable's name as VXL's CMake files spell it. */
  function Name(d: Definition): string {
    match d
    case LegacyFutureRemove => "VXL_LEGACY_FUTURE_REMOVE"
    case UseHistoricalImplicitConversions => "VXL_USE_HISTORICAL_IMPLICIT_CONVERSIONS"
    case UseHistoricalProtectedIvars => "VXL_USE_HISTORICAL_PROTECTED_IVARS"
    case UseWinWcharT => "VXL_USE_WIN_WCHAR_T"
    case BuildPositionDependentCode => "VXL_BUILD_POSITION_DEPENDENT_CODE"
    case UseLfs => "VXL_USE_LFS"
    case BuildCoreNumericsOnly => "VXL_BUILD_CORE_NUMERICS_ONLY"
    case BuildCoreNumerics => "VXL_BUILD_CORE_NUMERICS"
    case BuildCoreGeometry => "VXL_BUILD_CORE_GEOMETRY"
    case BuildCoreSerialisation => "VXL_BUILD_CORE_SERIALISATION"
    case BuildCoreUtilities => "VXL_BUILD_CORE_UTILITIES"
    case BuildCoreImaging => "VXL_BUILD_CORE_IMAGING"
    case BuildExamples => "VXL_BUILD_EXAMPLES"
    case BuildNondeprecatedOnly => "VXL_BUILD_NONDEPRECATED_ONLY"
    case BuildCoreProbability => "VXL_BUILD_CORE_PROBABILITY"
    case UseGeotiff => "VXL_USE_GEOTIFF"
    case BuildContrib => "VXL_BUILD_CONTRIB"
    case BuildObjectLibraries => "VXL_BUILD_OBJECT_LIBRARIES"
    case BuildVgui => "VXL_BUILD_VGUI"
    case BuildCoreVideo => "VXL_BUILD_CORE_VIDEO"
  }

  /** Distinct variables have distinct names, so the string-keyed
      dictionary loses nothing. */
  lemma NameInjective(d1: Definition, d2: Definition)
    requires Name(d1) == Name(d2)
    ensures d1 == d2
  {
  }

  // ---------------------------------------------------------------------
  // The assignments, as the recipe writes them.
  // ---------------------------------------------------------------------

  /** The `definitions[name] = value` statements, in source order. */
  function Assignments(s: Settings, o: Options): seq<(Definition, bool)> {
    [
      (LegacyFutureRemove, true),
      (UseHistoricalImplicitConversions, true),
      (UseHistoricalProtectedIvars, true),
      if IsWindows(s) then (UseWinWcharT, true) else (BuildPositionDependentCode, o.fPIC.GetOr(true)),
      (UseLfs, false),
      (BuildCoreNumericsOnly, false),
      (BuildCoreNumerics, o.coreNumerics),
      (BuildCoreGeometry, o.coreGeometry),
      (BuildCoreSerialisation, o.coreSerialisation),
      (BuildCoreUtilities, o.coreUtilities),
      (BuildCoreImaging, o.coreImaging),
      (BuildExamples, false),
      (BuildNondeprecatedOnly, true),
      (BuildCoreProbability, o.coreProbability),
      (UseGeotiff, true),
      (BuildContrib, false),
      (BuildObjectLibraries, false),
      (BuildVgui, false),
      (BuildCoreVideo, o.coreVideo)
    ]
  }

  /** No variable is assigned twice. */
  predicate DistinctKeys(xs: seq<(Definition, bool)>) {
    forall i, j :: 0 <= i < j < |xs| ==> xs[i].0 != xs[j].0
  }

  /** Runs the assignments one after another on dictionary `m`. */
  function Assign(m: map<Definition, bool>, xs: seq<(Definition, bool)>): map<Definition, bool>
    decreases |xs|
  {
    if xs == [] then m else Assign(m[xs[0].0 := xs[0].1], xs[1..])
  }

  /** The assigned keys join the dictionary's keys. */
  lemma {:induction false} AssignKeys(m: map<Definition, bool>, xs: seq<(Definition, bool)>, k: Definition)
    ensures k in Assign(m, xs) <==> k in m || exists i :: 0 <= i < |xs| && xs[i].0 == k
    decreases |xs|
  {
    if xs != [] {
      AssignKeys(m[xs[0].0 := xs[0].1], xs[1..], k);
      if exists i :: 0 <= i < |xs[1..]| && xs[1..][i].0 == k {
        var i :| 0 <= i < |xs[1..]| && xs[1..][i].0 == k;
        assert xs[i + 1].0 == k;
      }
      if exists i :: 0 <= i < |xs| && xs[i].0 == k {
        var i :| 0 <= i < |xs| && xs[i].0 == k;
        if i > 0 {
          assert xs[1..][i - 1].0 == k;
        }
      }
    }
  }

  /** Without repeated keys, each key ends up with the value it is assigned. */
  lemma {:induction false} AssignValue(m: map<Definition, bool>, xs: seq<(Definition, bool)>, i: int)
    requires DistinctKeys(xs)
    requires 0 <= i < |xs|
    ensures xs[i].0 in Assign(m, xs)
    ensures Assign(m, xs)[xs[i].0] == xs[i].1
    decreases |xs|
  {
    var m' := m[xs[0].0 := xs[0].1];
    var rest := xs[1..];
    assert DistinctKeys(rest) by {
      forall a, b | 0 <= a < b < |rest|
        ensures rest[a].0 != rest[b].0
      {
        assert rest[a] == xs[a + 1] && rest[b] == xs[b + 1];
      }
    }
    if i == 0 {
      AssignUntouched(m', rest, xs[0].0);
    } else {
      assert rest[i - 1] == xs[i];
      AssignValue(m', rest, i - 1);
    }
  }

  /** A key the assignments never mention keeps its value. */
  lemma {:induction false} AssignUntouched(m: map<Definition, bool>, xs: seq<(Definition, bool)>, k: Definition)
    requires k in m
    requires forall i :: 0 <= i < |xs| ==> xs[i].0 != k
    ensures k in Assign(m, xs) && Assign(m, xs)[k] == m[k]
    decreases |xs|
  {
    if xs != [] {
      var rest := xs[1..];
      forall i | 0 <= i < |rest|
        ensures rest[i].0 != k
      {
        assert rest[i] == xs[i + 1];
      }
      AssignUntouched(m[xs[0].0 := xs[0].1], rest, k);
    }
  }

  /** The `definitions` dictionary `_configure_cmake` fills in. */
  function Definitions(s: Settings, o: Options): map<Definition, bool> {
    Assign(map[], Assignments(s, o))
  }

  // ---------------------------------------------------------------------
  // Reference definition: the entry for each variable, key by key.
  // ---------------------------------------------------------------------

  /** The value each variable should have, or `None` when it must not be
      set at all. */
  function Entry(s: Settings, o: Options, d: Definition): Option<bool> {
    match d
    case UseWinWcharT => if IsWindows(s) then Some(true) else None
    case BuildPositionDependentCode => if IsWindows(s) then None else Some(o.fPIC.GetOr(true))
    case BuildCoreNumerics => Some(o.coreNumerics)
    case BuildCoreGeometry => Some(o.coreGeometry)
    case BuildCoreSerialisation => Some(o.coreSerialisation)
    case BuildCoreUtilities => Some(o.coreUtilities)
    case BuildCoreImaging => Some(o.coreImaging)
    case BuildCoreProbability => Some(o.coreProbability)
    case BuildCoreVideo => Some(o.coreVideo)
    case _ => Some(PolicyValue(d))
  }

  /** The fixed policy switches. */
  function PolicyValue(d: Definition): bool {
    d in {LegacyFutureRemove, UseHistoricalImplicitConversions, UseHistoricalProtectedIvars,
          BuildNondeprecatedOnly, UseGeotiff}
  }

  /** Each assignment sits at its variable's index, so no variable is
      assigned twice. */
  lemma AssignmentsDistinct(s: Settings, o: Options)
    ensures DistinctKeys(Assignments(s, o))
  {
    var xs := Assignments(s, o);
    forall i | 0 <= i < |xs|
      ensures IndexOf(s, xs[i].0) == i
    {
    }
  }

  /** Each assignment of the source survives in the dictionary. */
  lemma DefinitionsKeepAssignment(s: Settings, o: Options, i: int)
    requires 0 <= i < |Assignments(s, o)|
    ensures Assignments(s, o)[i].0 in Definitions(s, o)
    ensures Definitions(s, o)[Assignments(s, o)[i].0] == Assignments(s, o)[i].1
  {
    AssignmentsDistinct(s, o);
    AssignValue(map[], Assignments(s, o), i);
  }

  lemma IndexOfLocates(s: Settings, o: Options, d: Definition)
    requires IndexOf(s, d) >= 0
    ensures IndexOf(s, d) < |Assignments(s, o)|
    ensures Entry(s, o, d).Some?
    ensures Assignments(s, o)[IndexOf(s, d)] == (d, Entry(s, o, d).value)
  {
  }

  lemma IndexOfMissing(s: Settings, o: Options, d: Definition)
    requires IndexOf(s, d) < 0
    ensures Entry(s, o, d) == None
    ensures d !in Definitions(s, o)
  {
    var xs := Assignments(s, o);
    assert forall j :: 0 <= j < |xs| ==> xs[j].0 != d;
    AssignKeys(map[], xs, d);
  }

  /** Running the source's assignments produces, for every variable,
      exactly the reference entry. */
  lemma DefinitionsMatchEntries(s: Settings, o: Options, d: Definition)
    ensures d in Definitions(s, o) <==> Entry(s, o, d).Some?
    ensures d in Definitions(s, o) ==> Definitions(s, o)[d] == Entry(s, o, d).value
  {
    if IndexOf(s, d) < 0 {
      IndexOfMissing(s, o, d);
    } else {
      IndexOfLocates(s, o, d);
      DefinitionsKeepAssignment(s, o, IndexOf(s, d));
    }
  }

  /** Where `d` is assigned in the source, or -1 for the platform
      alternative that is not. */
  function IndexOf(s: Settings, d: Definition): int {
    match d
    case LegacyFutureRemove => 0
    case UseHistoricalImplicitConversions => 1
    case UseHistoricalProtectedIvars => 2
    case UseWinWcharT => if IsWindows(s) then 3 else -1
    case BuildPositionDependentCode => if IsWindows(s) then -1 else 3
    case UseLfs => 4
    case BuildCoreNumericsOnly => 5
    case BuildCoreNumerics => 6
    case BuildCoreGeometry => 7
    case BuildCoreSerialisation => 8
    case BuildCoreUtilities => 9
    case BuildCoreImaging => 10
    case BuildExamples => 11
    case BuildNondeprecatedOnly => 12
    case BuildCoreProbability => 13
    case UseGeotiff => 14
    case BuildContrib => 15
    case BuildObjectLibraries => 16
    case BuildVgui => 17
    case BuildCoreVideo => 18
  }

  // ---------------------------------------------------------------------
  // What the dictionary promises its consumer.
  // ---------------------------------------------------------------------

  /** Exactly one of the two platform switches is set: the wide-character
      switch on Windows, the position-dependent-code switch elsewhere,
      carrying `fPIC` or `True` when `fPIC` has been removed. */
  lemma PlatformSwitchExclusive(s: Settings, o: Options)
    ensures UseWinWcharT in Definitions(s, o) <==> IsWindows(s)
    ensures BuildPositionDependentCode in Definitions(s, o) <==> !IsWindows(s)
    ensures IsWindows(s) ==> Definitions(s, o)[UseWinWcharT]
    ensures !IsWindows(s) && o.fPIC.Some? ==> Definitions(s, o)[BuildPositionDependentCode] == o.fPIC.value
    ensures !IsWindows(s) && o.fPIC.None? ==> Definitions(s, o)[BuildPositionDependentCode]
  {
    DefinitionsMatchEntries(s, o, UseWinWcharT);
    DefinitionsMatchEntries(s, o, BuildPositionDependentCode);
  }

  /** The `core_*` switches carry their options verbatim; the GUI switch is
      off whatever `gui` says. */
  lemma CoreSwitchesVerbatim(s: Settings, o: Options)
    ensures BuildCoreNumerics in Definitions(s, o) && Definitions(s, o)[BuildCoreNumerics] == o.coreNumerics
    ensures BuildCoreGeometry in Definitions(s, o) && Definitions(s, o)[BuildCoreGeometry] == o.coreGeometry
    ensures BuildCoreSerialisation in Definitions(s, o) && Definitions(s, o)[BuildCoreSerialisation] == o.coreSerialisation
    ensures BuildCoreUtilities in Definitions(s, o) && Definitions(s, o)[BuildCoreUtilities] == o.coreUtilities
    ensures BuildCoreImaging in Definitions(s, o) && Definitions(s, o)[BuildCoreImaging] == o.coreImaging
    ensures BuildCoreProbability in Definitions(s, o) && Definitions(s, o)[BuildCoreProbability] == o.coreProbability
    ensures BuildCoreVideo in Definitions(s, o) && Definitions(s, o)[BuildCoreVideo] == o.coreVideo
    ensures BuildVgui in Definitions(s, o) && !Definitions(s, o)[BuildVgui]
  {
    DefinitionsMatchEntries(s, o, BuildCoreNumerics);
    DefinitionsMatchEntries(s, o, BuildCoreGeometry);
    DefinitionsMatchEntries(s, o, BuildCoreSerialisation);
    DefinitionsMatchEntries(s, o, BuildCoreUtilities);
    DefinitionsMatchEntries(s, o, BuildCoreImaging);
    DefinitionsMatchEntries(s, o, BuildCoreProbability);
    DefinitionsMatchEntries(s, o, BuildCoreVideo);
    DefinitionsMatchEntries(s, o, BuildVgui);
  }

  /** The switches that follow an option. */
  predicate FollowsOption(d: Definition) {
    d in {BuildPositionDependentCode, BuildCoreNumerics, BuildCoreGeometry, BuildCoreSerialisation,
          BuildCoreUtilities, BuildCoreImaging, BuildCoreProbability, BuildCoreVideo}
  }

  /** Every other switch is a constant: two option records give it the same
      entry. */
  lemma OtherSwitchesConstant(s: Settings, o1: Options, o2: Options, d: Definition)
    requires !FollowsOption(d)
    ensures d in Definitions(s, o1) <==> d in Definitions(s, o2)
    ensures d in Definitions(s, o1) ==> Definitions(s, o1)[d] == Definitions(s, o2)[d]
  {
    DefinitionsMatchEntries(s, o1, d);
    DefinitionsMatchEntries(s, o2, d);
  }

  /** `shared` and `gui` never reach the dictionary except through the
      pruned `fPIC`. */
  lemma DefinitionsIgnoreSharedAndGui(s: Settings, o: Options, shared: bool, gui: bool)
    ensures Definitions(s, o.(shared := shared, gui := gui)) == Definitions(s, o)
  {
  }

  /** The variables set on a platform: all but the other platform's
      switch. */
  lemma DefinitionKeys(s: Settings, o: Options)
    ensures forall d :: d in Definitions(s, o) <==>
                          d != (if IsWindows(s) then BuildPositionDependentCode else UseWinWcharT)
  {
    forall d: Definition
      ensures d in Definitions(s, o) <==> d != (if IsWindows(s) then BuildPositionDependentCode else UseWinWcharT)
    {
      DefinitionsMatchEntries(s, o, d);
    }
  }

  // ---------------------------------------------------------------------
  // The dictionary as CMake sees it: keyed by variable name.
  // ---------------------------------------------------------------------

  /** The dictionary with each variable written by name. */
  function ByName(defs: map<Definition, bool>): (r: map<string, bool>)
    ensures forall d :: d in defs ==> Name(d) in r && r[Name(d)] == defs[d]
    ensures forall n :: n in r ==> exists d :: d in defs && Name(d) == n
  {
    assert forall d1, d2 :: Name(d1) == Name(d2) ==> d1 == d2 by {
      forall d1, d2 | Name(d1) == Name(d2)
        ensures d1 == d2
      {
        NameInjective(d1, d2);
      }
    }
    map d | d in defs :: Name(d) := defs[d]
  }

  /** Exactly one of `VXL_USE_WIN_WCHAR_T` and
      `VXL_BUILD_POSITION_DEPENDENT_CODE` reaches CMake. */
  lemma ByNamePlatformSwitch(s: Settings, o: Options)
    ensures "VXL_USE_WIN_WCHAR_T" in ByName(Definitions(s, o)) <==> IsWindows(s)
    ensures "VXL_BUILD_POSITION_DEPENDENT_CODE" in ByName(Definitions(s, o)) <==> !IsWindows(s)
  {
    var defs := Definitions(s, o);
    var r := ByName(defs);
    PlatformSwitchExclusive(s, o);
    assert Name(UseWinWcharT) == "VXL_USE_WIN_WCHAR_T";
    assert Name(BuildPositionDependentCode) == "VXL_BUILD_POSITION_DEPENDENT_CODE";
    if "VXL_USE_WIN_WCHAR_T" in r {
      var d :| d in defs && Name(d) == "VXL_USE_WIN_WCHAR_T";
      NameInjective(d, UseWinWcharT);
    }
    if "VXL_BUILD_POSITION_DEPENDENT_CODE" in r {
      var d :| d in defs && Name(d) == "VXL_BUILD_POSITION_DEPENDENT_CODE";
      NameInjective(d, BuildPositionDependentCode);
    }
  }
}
