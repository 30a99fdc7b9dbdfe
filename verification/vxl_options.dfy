/** The recipe's configuration surface: the platform settings it reads and
    the ten options it declares, with their default values. */
module VxlOptions {
  import opened Wrappers

  /** The settings the recipe consults. `os` is Conan's operating-system
      setting; `cppstd` is the compiler's `cppstd` sub-setting when one is
      given, as the number left after dropping a `gnu` prefix (98, 11, 14,
      17, 20, ...). */
  datatype Settings = Settings(os: string, cppstd: Option<nat>)

  predicate IsWindows(s: Settings) {
    s.os == "Windows"
  }

  /** One value per declared option. `fPIC` is optional because pruning
      may remove it from the recipe; every other option always exists. */
  datatype Options = Options(
    shared: bool,
    fPIC: Option<bool>,
    coreNumerics: bool,
    coreGeometry: bool,
    coreSerialisation: bool,
    coreUtilities: bool,
    coreImaging: bool,
    coreProbability: bool,
    coreVideo: bool,
    gui: bool)

  /** The boolean options that are never removed, named so that rules can
      refer to them as data. */
  datatype Flag =
    | Shared
    | CoreNumerics
    | CoreGeometry
    | CoreSerialisation
    | CoreUtilities
    | CoreImaging
    | CoreProbability
    | CoreVideo
    | Gui

  /** The value of flag `f` in `o`. */
  function Get(o: Options, f: Flag): bool {
    match f
    case Shared => o.shared
    case CoreNumerics => o.coreNumerics
    case CoreGeometry => o.coreGeometry
    case CoreSerialisation => o.coreSerialisation
    case CoreUtilities => o.coreUtilities
    case CoreImaging => o.coreImaging
    case CoreProbability => o.coreProbability
    case CoreVideo => o.coreVideo
    case Gui => o.gui
  }

  /** The recipe's `default_options`. */
  function DefaultOptions(): (o: Options)
    ensures !o.shared && o.fPIC == Some(true)
    ensures forall f :: f != Shared && f != CoreVideo && f != Gui <==> Get(o, f)
  {
    Options(
      shared := false,
      fPIC := Some(true),
      coreNumerics := true,
      coreGeometry := true,
      coreSerialisation := true,
      coreUtilities := true,
      coreImaging := true,
      coreProbability := true,
      coreVideo := false,
      gui := false)
  }
}
