/**
 * The package state of services/horizon/main.go and the functions that
 * change it, step by step: the option table `configOpts` (whose envVars init
 * rewrites in place), the config `c` the setters write through their
 * pointers, the assembled `config`, the counter `tlsProvided`, the default
 * logger's level and output, and what init registers with the flag and
 * environment layers. Each method is specified by the step function of
 * module Resolve it carries out, or by the Options function it builds; where
 * Go calls log.Fatal, os.Exit or panics, the method returns the failure and
 * its caller stops.
 */
module HorizonMain {
  import opened Wrappers
  import opened GoInt
  import opened Viper
  import opened HorizonConfig
  import opened Options
  import opened Resolve
  import opened ResolveProperties
  import opened Agreement
  import opened EnvironmentProperties
  import opened TableProperties

  /** The step a method took, from its error result and the state after it. */
  function AsStep(err: Option<Failure>, s: State): Step {
    if err.None? then Continue(s) else Exit(err.value, s)
  }

  /** How initConfig ended, from its error result, the state and the package variable config. */
  function AsOutcome(err: Option<Failure>, s: State, config: Fields): Outcome {
    if err.None? then Assembled(config, s) else Exited(err.value, s)
  }

  class Horizon {
    const configOpts: array<ConfigOption>
    const usages: seq<string>
    var c: Fields
    var config: Fields
    var tlsProvided: int
    var loggerLevel: Option<Level>
    var logOutput: Option<string>
    var flags: seq<Flag>
    var envBindings: seq<EnvBinding>

    /** The part of the package state resolution reads and writes. */
    function Snap(): State
      reads this
    {
      State(c, tlsProvided, loggerLevel, logOutput)
    }

    /** The assembled config and the init registrations are as they were. */
    twostate predicate KeepsRest()
      reads this
    {
      config == old(config) && flags == old(flags) && envBindings == old(envBindings)
    }

    /** The package variables at program start, before init runs. */
    constructor (table: seq<ConfigOption>, help: seq<string>)
      ensures fresh(configOpts) && configOpts[..] == table && usages == help
      ensures Snap() == Initial() && config == ZeroConfig()
      ensures flags == [] && envBindings == []
    {
      configOpts := new ConfigOption[|table|](i requires 0 <= i < |table| => table[i]);
      usages := help;
      c := ZeroConfig();
      config := ZeroConfig();
      tlsProvided := 0;
      loggerLevel := None;
      logOutput := None;
      flags := [];
      envBindings := [];
    }

    /** `*(co.configKey.(*T)) = v`: the type assertion panics unless the key is a field of type T. */
    method Assign(key: Option<Key>, v: Value) returns (err: Option<Failure>)
      modifies this
      ensures AsStep(err, Snap()) == Write(old(Snap()), key, v)
      ensures KeepsRest()
    {
      if key.Some? && FieldType(key.value) == TypeOf(v) {
        c := c[key.value := v];
        err := None;
      } else {
        err := Some(InterfaceConversion(key, TypeOf(v)));
      }
    }

    /** require (main.go:61-65). */
    method Require(co: ConfigOption, store: Store) returns (err: Option<Failure>)
      ensures err == Resolve.Require(co, store)
    {
      if co.required && GetString(store, co.name) == "" {
        err := Some(MissingRequired(co.name, co.envVar));
      } else {
        err := None;
      }
    }

    /** setSimpleValue (main.go:80-93). */
    method SetSimpleValue(co: ConfigOption, store: Store) returns (err: Option<Failure>)
      modifies this
      ensures AsStep(err, Snap()) == Resolve.SetSimpleValue(co, store, old(Snap()))
      ensures KeepsRest()
    {
      err := None;
      if co.configKey.Some? {
        match co.flagDefault
        case StringDefault(_) => err := Assign(co.configKey, StringVal(GetString(store, co.name)));
        case IntDefault(_) => err := Assign(co.configKey, IntVal(GetInt(store, co.name)));
        case BoolDefault(_) => err := Assign(co.configKey, BoolVal(GetBool(store, co.name)));
        case UintDefault(_) => err := Assign(co.configKey, UintVal(ToUint(GetInt(store, co.name))));
      }
    }

    /** setDuration (main.go:110-112). */
    method SetDuration(co: ConfigOption, store: Store) returns (err: Option<Failure>)
      modifies this
      ensures AsStep(err, Snap()) == Resolve.SetDuration(co, store, old(Snap()))
      ensures KeepsRest()
    {
      err := Assign(co.configKey, DurationVal(Seconds(GetInt(store, co.name))));
    }

    /** setURL (main.go:115-124), storing the parsed pointer into the *url.URL field. */
    method SetURL(co: ConfigOption, store: Store, ext: Externals) returns (err: Option<Failure>)
      modifies this
      ensures AsStep(err, Snap()) == Resolve.SetURL(co, store, ext, old(Snap()))
      ensures KeepsRest()
    {
      var urlString := GetString(store, co.name);
      err := None;
      if urlString != "" {
        var urlType := ext.parseURL(urlString);
        if urlType.None? {
          return Some(BadURL(urlString));
        }
        err := Assign(co.configKey, URLPtr(Some(urlType.value)));
      }
    }

    /** setLogLevel (main.go:127-134). */
    method SetLogLevel(co: ConfigOption, store: Store, ext: Externals) returns (err: Option<Failure>)
      modifies this
      ensures AsStep(err, Snap()) == Resolve.SetLogLevel(co, store, ext, old(Snap()))
      ensures KeepsRest()
    {
      var ll := ext.parseLevel(GetString(store, co.name));
      if ll.None? {
        return Some(BadLogLevel(GetString(store, co.name)));
      }
      loggerLevel := ll;
      err := Assign(co.configKey, LevelVal(ll.value));
    }

    /** setLogFile (main.go:137-148). */
    method SetLogFile(co: ConfigOption, store: Store, ext: Externals) returns (err: Option<Failure>)
      modifies this
      ensures AsStep(err, Snap()) == Resolve.SetLogFile(co, store, ext, old(Snap()))
      ensures KeepsRest()
    {
      var lf := GetString(store, "log-file");
      err := None;
      if lf != "" {
        if ext.canOpen(lf) {
          logOutput := Some(lf);
          err := Assign(co.configKey, StringVal(lf));
        } else {
          err := Some(LogFileFailed);
        }
      }
    }

    /** setRateLimit (main.go:151-161). */
    method SetRateLimit(co: ConfigOption, store: Store) returns (err: Option<Failure>)
      modifies this
      ensures AsStep(err, Snap()) == Resolve.SetRateLimit(co, store, old(Snap()))
      ensures KeepsRest()
    {
      var rateLimit: Option<RateQuota> := None;
      var perHourRateLimit := GetInt(store, co.name);
      err := None;
      if perHourRateLimit != 0 {
        rateLimit := Some(RateQuota(perHourRateLimit, RateLimitBurst));
        err := Assign(co.configKey, RateQuotaPtr(rateLimit));
      }
    }

    /** incrementTLSFlag (main.go:164-170). */
    method IncrementTLSFlag(co: ConfigOption, store: Store) returns (err: Option<Failure>)
      modifies this
      ensures AsStep(err, Snap()) == Resolve.IncrementTLSFlag(co, store, old(Snap()))
      ensures KeepsRest()
    {
      var tls := GetString(store, co.name);
      err := None;
      if tls != "" {
        tlsProvided := tlsProvided + 1;
        err := Assign(co.configKey, StringVal(tls));
      }
    }

    /** setValue (main.go:68-77). */
    method SetValue(co: ConfigOption, store: Store, ext: Externals) returns (err: Option<Failure>)
      modifies this
      ensures AsStep(err, Snap()) == Resolve.SetValue(co, store, ext, old(Snap()))
      ensures KeepsRest()
    {
      err := None;
      if co.customSetValue.Some? {
        match co.customSetValue.value
        case SetDuration => err := SetDuration(co, store);
        case SetURL => err := SetURL(co, store, ext);
        case SetLogLevel => err := SetLogLevel(co, store, ext);
        case SetLogFile => err := SetLogFile(co, store, ext);
        case SetRateLimit => err := SetRateLimit(co, store);
        case IncrementTLSFlag => err := IncrementTLSFlag(co, store);
      } else if co.configKey.Some? {
        err := SetSimpleValue(co, store);
      }
    }

    /** setFlag (main.go:96-107): registers one persistent flag of the default's kind. */
    method SetFlag(co: ConfigOption, usage: string)
      modifies this
      ensures flags == old(flags) + [FlagOf(co, usage)]
      ensures Snap() == old(Snap()) && config == old(config) && envBindings == old(envBindings)
    {
      var kind;
      match co.flagDefault {
        case StringDefault(_) => kind := StringFlag;
        case IntDefault(_) => kind := IntFlag;
        case BoolDefault(_) => kind := BoolFlag;
        case UintDefault(_) => kind := UintFlag;
      }
      flags := flags + [Flag(co.name, kind, co.flagDefault, usage)];
    }

    /** One pass of init's loop (main.go:229-238) for the option at position i. */
    method InitOption(i: nat)
      requires i < configOpts.Length == |usages|
      modifies this, configOpts
      ensures configOpts[i] == old(configOpts[i]).(envVar := DerivedEnvVar(old(configOpts[i])))
      ensures forall j :: 0 <= j < configOpts.Length && j != i ==> configOpts[j] == old(configOpts[j])
      ensures envBindings == old(envBindings) + BindingOf(old(configOpts[i]))
      ensures flags == old(flags) + [FlagOf(old(configOpts[i]), usages[i])]
      ensures Snap() == old(Snap()) && config == old(config)
    {
      var co := configOpts[i];
      if co.envVar == "" {
        co := co.(envVar := KebabToConstantCase(co.name));
        configOpts[i] := co;
        envBindings := envBindings + [EnvBinding(co.name, co.envVar)];
      }
      SetFlag(co, usages[i]);
    }

    /**
     * The loop of init (main.go:228-239): fill in each empty envVar from the
     * name and bind it, then register the option's flag with its help text.
     */
    method Init()
      requires configOpts.Length == |usages|
      modifies this, configOpts
      ensures configOpts[..] == WithDerivedEnvVars(old(configOpts[..]))
      ensures envBindings == old(envBindings) + EnvBindingsOf(old(configOpts[..]))
      ensures flags == old(flags) + FlagsOf(old(configOpts[..]), usages)
      ensures Snap() == old(Snap()) && config == old(config)
    {
      ghost var table := configOpts[..];
      ghost var flags0 := flags;
      ghost var binds0 := envBindings;
      for i := 0 to configOpts.Length
        invariant forall j :: 0 <= j < i ==> configOpts[j] == table[j].(envVar := DerivedEnvVar(table[j]))
        invariant forall j :: i <= j < configOpts.Length ==> configOpts[j] == table[j]
        invariant envBindings == binds0 + EnvBindingsOf(table[..i])
        invariant flags == flags0 + FlagsOf(table[..i], usages[..i])
        invariant Snap() == old(Snap()) && config == old(config)
      {
        EnvBindingsSnoc(table, i);
        FlagsSnoc(table, usages, i);
        InitOption(i);
      }
      assert table[..configOpts.Length] == table;
      assert usages[..configOpts.Length] == usages;
    }

    /** The loop of require calls (main.go:261-264): the first option that fails stops the process. */
    method RequireAll(store: Store) returns (err: Option<Failure>)
      ensures err == Resolve.RequireAll(configOpts[..], store)
    {
      ghost var opts := configOpts[..];
      for i := 0 to configOpts.Length
        invariant Resolve.RequireAll(opts, store) == Resolve.RequireAll(opts[i..], store)
      {
        assert opts[i..][0] == opts[i] && opts[i..][1..] == opts[i + 1..];
        err := Require(configOpts[i], store);
        if err.Some? {
          return;
        }
      }
      assert opts[configOpts.Length..] == [];
      err := None;
    }

    /** The loop of setValue calls (main.go:282-285): the first setter that exits stops the process. */
    method SetValues(store: Store, ext: Externals) returns (err: Option<Failure>)
      modifies this
      ensures AsStep(err, Snap()) == Resolve.SetValues(configOpts[..], store, ext, old(Snap()))
      ensures KeepsRest()
    {
      ghost var opts := configOpts[..];
      for i := 0 to configOpts.Length
        invariant Resolve.SetValues(opts, store, ext, old(Snap())) == Resolve.SetValues(opts[i..], store, ext, Snap())
        invariant KeepsRest()
      {
        assert opts[i..][0] == opts[i] && opts[i..][1..] == opts[i + 1..];
        err := SetValue(configOpts[i], store, ext);
        if err.Some? {
          return;
        }
      }
      assert opts[configOpts.Length..] == [];
      err := None;
    }

    /**
     * The checks after the setters and the assembly of config (main.go:286-361):
     * log level, validateTLS, log file, the cert/key pair, the friendbot URL
     * and the rate limit, in that order.
     */
    method Finish(store: Store, ext: Externals) returns (err: Option<Failure>)
      modifies this
      ensures AsOutcome(err, Snap(), config) == Resolve.Finish(store, ext, old(Snap()))
      ensures err.Some? ==> config == old(config)
      ensures flags == old(flags) && envBindings == old(envBindings)
    {
      var levelText := GetString(store, "log-level");
      var ll := ext.parseLevel(levelText);
      if ll.None? {
        return Some(BadLogLevel(levelText));
      }
      loggerLevel := ll;
      err := ValidateTLS(tlsProvided);
      if err.Some? {
        return;
      }
      var lf := GetString(store, "log-file");
      if lf != "" {
        if ext.canOpen(lf) {
          logOutput := Some(lf);
        } else {
          return Some(LogFileFailed);
        }
      }
      var cert, key := GetString(store, "tls-cert"), GetString(store, "tls-key");
      if cert != "" && key == "" {
        return Some(TLSKeyNotConfigured);
      } else if cert == "" && key != "" {
        return Some(TLSCertNotConfigured);
      }
      var friendbotURL: Option<URL> := None;
      var friendbotURLString := GetString(store, "friendbot-url");
      if friendbotURLString != "" {
        friendbotURL := ext.parseURL(friendbotURLString);
        if friendbotURL.None? {
          return Some(BadURL(friendbotURLString));
        }
      }
      var rateLimit: Option<RateQuota> := None;
      var perHourRateLimit := GetInt(store, "per-hour-rate-limit");
      if perHourRateLimit != 0 {
        rateLimit := Some(RateQuota(perHourRateLimit, RateLimitBurst));
      }
      config := Assemble(store, ll.value, lf, cert, key, friendbotURL, rateLimit);
    }

    /**
     * initConfig (main.go:259-361): the required checks, the pending-up and
     * pending-down migration gates (up and down are what the schema queries
     * report), every setter, then the staged checks and the assembly.
     */
    method InitConfig(store: Store, ext: Externals, up: nat, down: nat) returns (err: Option<Failure>)
      modifies this
      ensures AsOutcome(err, Snap(), config) == Resolve.InitConfig(configOpts[..], store, ext, up, down, old(Snap()))
      ensures err.Some? ==> config == old(config)
      ensures flags == old(flags) && envBindings == old(envBindings)
    {
      err := RequireAll(store);
      if err.Some? {
        return;
      }
      if up > 0 {
        return Some(PendingUpMigrations(up));
      }
      if down > 0 {
        return Some(PendingDownMigrations(down));
      }
      err := SetValues(store, ext);
      if err.Some? {
        return;
      }
      err := Finish(store, ext);
    }

    /** setURL exactly as written (main.go:115-124): it stores the URL value through configKey.(*url.URL). */
    method SetURLAsWritten(co: ConfigOption, store: Store, ext: Externals) returns (err: Option<Failure>)
      modifies this
      ensures AsStep(err, Snap()) == Resolve.SetURLAsWritten(co, store, ext, old(Snap()))
      ensures KeepsRest()
    {
      var urlString := GetString(store, co.name);
      err := None;
      if urlString != "" {
        var urlType := ext.parseURL(urlString);
        if urlType.None? {
          return Some(BadURL(urlString));
        }
        err := Assign(co.configKey, URLVal(urlType.value));
      }
    }

    /** setValue as written (main.go:68-77), with setURL as written. */
    method SetValueAsWritten(co: ConfigOption, store: Store, ext: Externals) returns (err: Option<Failure>)
      modifies this
      ensures AsStep(err, Snap()) == Resolve.SetValueAsWritten(co, store, ext, old(Snap()))
      ensures KeepsRest()
    {
      if co.customSetValue == Some(Setter.SetURL) {
        err := SetURLAsWritten(co, store, ext);
      } else {
        err := SetValue(co, store, ext);
      }
    }

    /** The loop of setValue calls as written (main.go:282-285). */
    method SetValuesAsWritten(store: Store, ext: Externals) returns (err: Option<Failure>)
      modifies this
      ensures AsStep(err, Snap()) == Resolve.SetValuesAsWritten(configOpts[..], store, ext, old(Snap()))
      ensures KeepsRest()
    {
      ghost var opts := configOpts[..];
      for i := 0 to configOpts.Length
        invariant Resolve.SetValuesAsWritten(opts, store, ext, old(Snap())) == Resolve.SetValuesAsWritten(opts[i..], store, ext, Snap())
        invariant KeepsRest()
      {
        assert opts[i..][0] == opts[i] && opts[i..][1..] == opts[i + 1..];
        err := SetValueAsWritten(configOpts[i], store, ext);
        if err.Some? {
          return;
        }
      }
      assert opts[configOpts.Length..] == [];
      err := None;
    }

    /**
     * initConfig as written (main.go:259-391): its setter loop uses setURL as
     * written, and it ends in log.Fatal("Died here") once the config is assembled.
     */
    method InitConfigAsWritten(store: Store, ext: Externals, up: nat, down: nat) returns (err: Option<Failure>)
      modifies this
      ensures err.Some? && AsOutcome(err, Snap(), config) == Resolve.InitConfigAsWritten(configOpts[..], store, ext, up, down, old(Snap()))
      ensures flags == old(flags) && envBindings == old(envBindings)
    {
      err := RequireAll(store);
      if err.Some? {
        return;
      }
      if up > 0 {
        return Some(PendingUpMigrations(up));
      }
      if down > 0 {
        return Some(PendingDownMigrations(down));
      }
      err := SetValuesAsWritten(store, ext);
      if err.Some? {
        return;
      }
      err := Finish(store, ext);
      if err.None? {
        err := Some(DiedHere);
      }
    }
  }

  /**
   * The process from start to the end of initConfig over a table that agrees
   * with horizon.Config: the package variables, init, then initConfig with
   * the migration counts the schema reports. The flags and bindings are
   * init's; the outcome is initConfig's over the rewritten table; every exit
   * is one such a table can reach, with status 1; and a completed run leaves
   * `c` equal to the assembled `config`.
   */
  method Start(table: seq<ConfigOption>, help: seq<string>, store: Store, ext: Externals, up: nat, down: nat)
    returns (h: Horizon, err: Option<Failure>)
    requires Agrees(table) && |help| == |table|
    ensures fresh(h) && h.configOpts[..] == WithDerivedEnvVars(table)
    ensures h.envBindings == EnvBindingsOf(table) && h.flags == FlagsOf(table, help)
    ensures AsOutcome(err, h.Snap(), h.config) == Resolve.InitConfig(WithDerivedEnvVars(table), store, ext, up, down, Initial())
    ensures err.Some? ==> ExitCode(err.value) == 1 && ReachableExit(err.value, SetValues(WithDerivedEnvVars(table), store, ext, Initial()).Exit?)
    ensures err.None? ==> h.config == h.c
  {
    h := new Horizon(table, help);
    h.Init();
    err := h.InitConfig(store, ext, up, down);
    AgreesAfterInit(table);
    AgreeingOutcomes(WithDerivedEnvVars(table), store, ext, up, down, Initial());
    SettersBuildAssembledConfig(WithDerivedEnvVars(table), store, ext, up, down, Initial());
  }

  /** Start over the table of main.go:182-208; help holds the flags' help texts, one per option (Options.Usages). */
  method Boot(help: seq<string>, store: Store, ext: Externals, up: nat, down: nat) returns (h: Horizon, err: Option<Failure>)
    requires |help| == |ConfigOpts|
    ensures fresh(h) && h.configOpts[..] == InitializedOpts()
    ensures h.envBindings == EnvBindingsOf(ConfigOpts) && h.flags == FlagsOf(ConfigOpts, help)
    ensures AsOutcome(err, h.Snap(), h.config) == Resolve.InitConfig(InitializedOpts(), store, ext, up, down, Initial())
    ensures err.Some? ==> ExitCode(err.value) == 1 && ReachableExit(err.value, SetValues(InitializedOpts(), store, ext, Initial()).Exit?)
    ensures err.None? ==> h.config == h.c
  {
    TableAgrees();
    h, err := Start(ConfigOpts, help, store, ext, up, down);
  }
}
