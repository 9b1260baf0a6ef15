/**
 * The environment-name derivation of init (main.go:228-239): an option
 * without an envVar gets its name in constant case and is bound under it;
 * an option with an explicit envVar keeps it and is not bound.
 */
module EnvironmentProperties {
  import opened Options

  /** Constant case is a fixed point of itself: converting twice is converting once. */
  lemma KebabIdempotent(s: string)
    ensures KebabToConstantCase(KebabToConstantCase(s)) == KebabToConstantCase(s)
  {
    var r := KebabToConstantCase(s);
    assert forall i :: 0 <= i < |r| ==> UpperAscii(r[i]) == r[i];
  }

  /** Rewriting an option's envVar a second time, as a second init would, changes nothing. */
  lemma DerivedEnvVarStable(co: ConfigOption)
    requires co.name != ""
    ensures DerivedEnvVar(co.(envVar := DerivedEnvVar(co))) == DerivedEnvVar(co)
    ensures DerivedEnvVar(co) != ""
  {
  }

  /**
   * A binding is made exactly for each option whose envVar was empty, under
   * the option's name and its constant-case form.
   */
  lemma {:induction false} EnvBindingsMembership(opts: seq<ConfigOption>, b: EnvBinding)
    ensures b in EnvBindingsOf(opts) <==>
            exists i :: 0 <= i < |opts| && opts[i].envVar == "" && b == EnvBinding(opts[i].name, KebabToConstantCase(opts[i].name))
  {
    if opts != [] {
      var front := opts[..|opts| - 1];
      EnvBindingsMembership(front, b);
      assert forall i :: 0 <= i < |front| ==> front[i] == opts[i];
    }
  }

  /** Every binding names the envVar its option ends with after init. */
  lemma BindingsMatchEnvVars(opts: seq<ConfigOption>, b: EnvBinding)
    requires b in EnvBindingsOf(opts)
    ensures exists i :: 0 <= i < |opts| && b.name == opts[i].name && b.envVar == DerivedEnvVar(opts[i])
  {
    EnvBindingsMembership(opts, b);
  }

  /** An option name whose every option has an explicit envVar is never bound. */
  lemma ExplicitNotBound(opts: seq<ConfigOption>, name: string)
    requires forall i :: 0 <= i < |opts| && opts[i].name == name ==> opts[i].envVar != ""
    ensures forall b :: b in EnvBindingsOf(opts) ==> b.name != name
  {
    forall b | b in EnvBindingsOf(opts)
      ensures b.name != name
    {
      EnvBindingsMembership(opts, b);
    }
  }

  /** Running init's rewrite on its own result changes nothing, so long as no option has an empty name. */
  lemma DerivedTableStable(opts: seq<ConfigOption>)
    requires forall i :: 0 <= i < |opts| ==> opts[i].name != ""
    ensures WithDerivedEnvVars(WithDerivedEnvVars(opts)) == WithDerivedEnvVars(opts)
  {
    var once := WithDerivedEnvVars(opts);
    forall i | 0 <= i < |opts|
      ensures WithDerivedEnvVars(once)[i] == once[i]
    {
      DerivedEnvVarStable(opts[i]);
    }
  }

  /** Extending the table by one option adds that option's flag, with its help text, at the end. */
  lemma FlagsSnoc(opts: seq<ConfigOption>, usages: seq<string>, i: nat)
    requires i < |opts| == |usages|
    ensures FlagsOf(opts[..i + 1], usages[..i + 1]) == FlagsOf(opts[..i], usages[..i]) + [FlagOf(opts[i], usages[i])]
  {
  }

  lemma EnvBindingsSnoc(opts: seq<ConfigOption>, i: nat)
    requires i < |opts|
    ensures EnvBindingsOf(opts[..i + 1]) == EnvBindingsOf(opts[..i]) + BindingOf(opts[i])
  {
    assert opts[..i + 1][..i] == opts[..i];
  }

  /** init changes only the envVars of the table, and keeps every envVar already given. */
  lemma WithDerivedEnvVarsKeeps(opts: seq<ConfigOption>)
    ensures forall i :: 0 <= i < |opts| ==> WithDerivedEnvVars(opts)[i].(envVar := opts[i].envVar) == opts[i]
    ensures forall i :: 0 <= i < |opts| && opts[i].envVar != "" ==> WithDerivedEnvVars(opts)[i] == opts[i]
  {
  }

  /** init registers one flag per option, in table order, with the option's name, default and help text. */
  lemma FlagsOfOrder(opts: seq<ConfigOption>, usages: seq<string>)
    requires |usages| == |opts|
    ensures forall i :: 0 <= i < |opts| ==>
              FlagsOf(opts, usages)[i].name == opts[i].name && FlagsOf(opts, usages)[i].default == opts[i].flagDefault &&
              FlagsOf(opts, usages)[i].usage == usages[i]
  {
  }

  /** init binds an option exactly when its envVar is empty, once, to the derived name; a given envVar is kept. */
  lemma BindingOfShape(co: ConfigOption)
    ensures co.envVar != "" ==> DerivedEnvVar(co) == co.envVar
    ensures |BindingOf(co)| <= 1
    ensures BindingOf(co) != [] <==> co.envVar == ""
    ensures BindingOf(co) != [] ==> BindingOf(co)[0] == EnvBinding(co.name, DerivedEnvVar(co))
  {
  }

  /** init makes at most one binding per option. */
  lemma {:induction false} EnvBindingsBound(opts: seq<ConfigOption>)
    ensures |EnvBindingsOf(opts)| <= |opts|
  {
    if opts != [] {
      EnvBindingsBound(opts[..|opts| - 1]);
      BindingOfShape(opts[|opts| - 1]);
    }
  }
}
