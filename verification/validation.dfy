/** Cross-option validation: the recipe's `validate` hook. It first asks
    Conan to check the minimum C++ standard (only when a `cppstd` setting is
    present), then checks three implication rules in a fixed order and
    rejects with the message of the first one that fails. */
module Validation {
  import opened Wrappers
  import opened VxlOptions

  /** The minimum C++ standard the recipe asks for. */
  const MinCppstd: nat := 11

  /** Why a configuration is rejected. */
  datatype ConfigError =
    | CppstdTooLow(current: nat, required: nat)
    | ProbabilityWithoutNumerics
    | GuiWithoutCore
    | VideoWithoutCore

  /** The text the recipe raises for each of its own rules. The wording of
      Conan's C++-standard error is Conan's and is only summarised. */
  function Message(e: ConfigError): string {
    match e
    case CppstdTooLow(_, _) => "Current cppstd is lower than the required C++ standard"
    case ProbabilityWithoutNumerics => "core_probability requires core_numerics"
    case GuiWithoutCore => "gui requires core_numerics, core_geometry, core_serialisation, core_utilities and core_imaging"
    case VideoWithoutCore => "core_video requires core_utilities and core_imaging"
  }

  /** Conan orders C++ standards by year: the two-digit value 98 is 1998,
      every other value `v` is 2000 + `v`. */
  function StandardYear(v: nat): nat {
    if v == 98 then 1998 else 2000 + v
  }

  /** Conan's minimum-standard comparison. */
  predicate MeetsMinCppstd(current: nat, required: nat) {
    StandardYear(current) >= StandardYear(required)
  }

  /** The C++-standard part of `validate`: an absent setting is never
      checked. */
  predicate CppstdAccepted(s: Settings) {
    s.cppstd.Some? ==> MeetsMinCppstd(s.cppstd.value, MinCppstd)
  }

  /** `validate`, in source order. */
  function Validate(s: Settings, o: Options): (r: Result<(), ConfigError>)
    ensures r.Failure? && r.error.CppstdTooLow? <==> !CppstdAccepted(s)
    ensures r.Failure? && r.error.CppstdTooLow? ==> r.error == CppstdTooLow(s.cppstd.value, MinCppstd)
  {
    if s.cppstd.Some? && !MeetsMinCppstd(s.cppstd.value, MinCppstd) then
      Failure(CppstdTooLow(s.cppstd.value, MinCppstd))
    else if o.coreProbability && !o.coreNumerics then
      Failure(ProbabilityWithoutNumerics)
    else if o.gui && !(o.coreNumerics && o.coreGeometry && o.coreSerialisation && o.coreUtilities && o.coreImaging) then
      Failure(GuiWithoutCore)
    else if o.coreVideo && !(o.coreUtilities && o.coreImaging) then
      Failure(VideoWithoutCore)
    else
      Success(())
  }

  // ---------------------------------------------------------------------
  // Reference definition: the three implication rules as a table.
  // ---------------------------------------------------------------------

  /** "If `option` is on, every flag in `needs` must be on too; otherwise
      reject with `error`." */
  datatype Rule = Rule(option: Flag, needs: set<Flag>, error: ConfigError)

  /** The recipe's rules, in the order it checks them. */
  const Rules: seq<Rule> := [
    Rule(CoreProbability, {CoreNumerics}, ProbabilityWithoutNumerics),
    Rule(Gui, {CoreNumerics, CoreGeometry, CoreSerialisation, CoreUtilities, CoreImaging}, GuiWithoutCore),
    Rule(CoreVideo, {CoreUtilities, CoreImaging}, VideoWithoutCore)
  ]

  ghost predicate Violated(o: Options, rule: Rule) {
    Get(o, rule.option) && exists f :: f in rule.needs && !Get(o, f)
  }

  /** Rule `i` is violated and no earlier rule is. */
  ghost predicate FirstViolated(o: Options, i: int) {
    && 0 <= i < |Rules|
    && Violated(o, Rules[i])
    && forall j :: 0 <= j < i ==> !Violated(o, Rules[j])
  }

  lemma ViolatedProbability(o: Options)
    ensures Violated(o, Rules[0]) <==> o.coreProbability && !o.coreNumerics
  {
  }

  lemma ViolatedGui(o: Options)
    ensures Violated(o, Rules[1])
        <==> o.gui && !(o.coreNumerics && o.coreGeometry && o.coreSerialisation && o.coreUtilities && o.coreImaging)
  {
  }

  lemma ViolatedVideo(o: Options)
    ensures Violated(o, Rules[2]) <==> o.coreVideo && !(o.coreUtilities && o.coreImaging)
  {
  }

  /** Once the C++ standard is accepted, `validate` agrees with the rule
      table: it accepts exactly when no rule is violated, and otherwise
      reports the error of the first violated rule. */
  lemma ValidateMatchesRules(s: Settings, o: Options)
    requires CppstdAccepted(s)
    ensures Validate(s, o).Success? <==> forall i :: 0 <= i < |Rules| ==> !Violated(o, Rules[i])
    ensures Validate(s, o).Failure? ==>
              exists i :: FirstViolated(o, i) && Rules[i].error == Validate(s, o).error
  {
    ViolatedProbability(o);
    ViolatedGui(o);
    ViolatedVideo(o);
    var r := Validate(s, o);
    if r.Success? {
      forall i | 0 <= i < |Rules|
        ensures !Violated(o, Rules[i])
      {
        assert i == 0 || i == 1 || i == 2;
      }
    } else if r.error == ProbabilityWithoutNumerics {
      assert FirstViolated(o, 0);
    } else if r.error == GuiWithoutCore {
      assert FirstViolated(o, 1);
    } else {
      assert FirstViolated(o, 2);
    }
  }

  /** `validate` rejects exactly when the standard is too old or one of the
      three implications fails. */
  lemma ValidateRejectsExactly(s: Settings, o: Options)
    ensures Validate(s, o).Success? <==>
              && CppstdAccepted(s)
              && !(o.coreProbability && !o.coreNumerics)
              && !(o.gui && !(o.coreNumerics && o.coreGeometry && o.coreSerialisation && o.coreUtilities && o.coreImaging))
              && !(o.coreVideo && !(o.coreUtilities && o.coreImaging))
  {
  }

  /** An absent `cppstd` never causes a rejection, and a present one
      rejects exactly the standards older than C++11. */
  lemma CppstdCheck(s: Settings)
    ensures s.cppstd.None? ==> CppstdAccepted(s)
    ensures s.cppstd.Some? ==> (CppstdAccepted(s) <==> s.cppstd.value != 98 && s.cppstd.value >= 11)
  {
  }

  /** The defaults satisfy every rule. */
  lemma DefaultsAreValid(s: Settings)
    requires CppstdAccepted(s)
    ensures Validate(s, DefaultOptions()).Success?
  {
  }

  /** `shared` and `fPIC` take no part in validation. */
  lemma ValidateIgnoresLinkage(s: Settings, o: Options, shared: bool, fPIC: Option<bool>)
    ensures Validate(s, o.(shared := shared, fPIC := fPIC)) == Validate(s, o)
  {
  }
}
