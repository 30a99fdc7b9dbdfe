/** Option pruning: the recipe removes `fPIC` where it does not apply,
    first by operating system (`config_options`) and then for shared
    builds (`configure`). Removing an option that is already gone leaves
    it gone. */
module Pruning {
  import opened Wrappers
  import opened VxlOptions

  /** `fPIC` has no meaning on Windows: `config_options` removes it there. */
  function ConfigOptions(s: Settings, o: Options): (r: Options)
    ensures IsWindows(s) ==> r.fPIC == None
    ensures !IsWindows(s) ==> r == o
    ensures r == o.(fPIC := r.fPIC)
  {
    if IsWindows(s) then o.(fPIC := None) else o
  }

  /** A shared library is position independent anyway: `configure` removes
      `fPIC` when `shared` is set. */
  function Configure(o: Options): (r: Options)
    ensures o.shared ==> r.fPIC == None
    ensures !o.shared ==> r == o
    ensures r == o.(fPIC := r.fPIC)
  {
    if o.shared then o.(fPIC := None) else o
  }

  /** Both pruning hooks, in the order Conan calls them. */
  function Prune(s: Settings, o: Options): (r: Options)
    ensures r.fPIC == None <==> IsWindows(s) || o.shared || o.fPIC == None
    ensures !IsWindows(s) && !o.shared ==> r.fPIC == o.fPIC
    ensures r == o.(fPIC := r.fPIC)
  {
    Configure(ConfigOptions(s, o))
  }

  /** Pruning never changes a flag other than `fPIC`. */
  lemma PruneKeepsFlags(s: Settings, o: Options, f: Flag)
    ensures Get(Prune(s, o), f) == Get(o, f)
  {
  }

  /** Pruning an already pruned record changes nothing more. */
  lemma PruneIdempotent(s: Settings, o: Options)
    ensures Prune(s, Prune(s, o)) == Prune(s, o)
  {
  }

  /** The order of the two hooks does not matter. */
  lemma PruneHooksCommute(s: Settings, o: Options)
    ensures Configure(ConfigOptions(s, o)) == ConfigOptions(s, Configure(o))
  {
  }
}
