/**
 * Properties of the concrete option table (main.go:182-208) under the
 * resolution pipeline: every option points to its own field of the right
 * type, the two TLS options make a pair the validators treat consistently,
 * and the config the setters build is the config the assembly builds.
 */
module TableProperties {
  import opened Wrappers
  import opened GoInt
  import opened Viper
  import opened HorizonConfig
  import opened Options
  import opened Resolve
  import opened ResolveProperties
  import opened Agreement

  /**
   * With the table's two TLS options and a counter starting at 0, validateTLS
   * rejects exactly the half-configured pair: both empty and both set pass.
   */
  lemma TableTLSValidation(store: Store, ext: Externals, s: State)
    requires WellTyped(s.c) && s.tlsProvided == 0
    requires SetValues(InitializedOpts(), store, ext, s).Continue?
    ensures ValidateTLS(SetValues(InitializedOpts(), store, ext, s).state.tlsProvided).Some? <==>
              ((GetString(store, "tls-cert") == "") != (GetString(store, "tls-key") == ""))
  {
    InitializedAgrees();
    AgreeingTLSPair(InitializedOpts());
    TLSValidation(InitializedOpts(), store, ext, s, KeyIndex(TLSCert));
  }

  /**
   * The second cert/key check (main.go:307-313) never decides the outcome: a
   * half-configured pair has already stopped the process at validateTLS.
   */
  lemma TablePairCheckUnreachable(store: Store, ext: Externals, up: nat, down: nat, s: State)
    requires WellTyped(s.c) && s.tlsProvided == 0
    ensures !InitConfig(InitializedOpts(), store, ext, up, down, s).Exited? ||
            InitConfig(InitializedOpts(), store, ext, up, down, s).failure !in {TLSKeyNotConfigured, TLSCertNotConfigured}
  {
    InitializedAgrees();
    AgreeingTLSPair(InitializedOpts());
    PairCheckUnreachable(InitializedOpts(), store, ext, up, down, s, KeyIndex(TLSCert));
  }

  /** Every option of the table agrees with the horizon.Config literal. */
  lemma TableAgrees()
    ensures Agrees(ConfigOpts)
  {
    TableAgreesFrom0();
    TableAgreesFrom5();
    TableAgreesFrom10();
    TableAgreesFrom15();
    TableAgreesFrom20();
    TableAgreesFrom23();
  }

  // The agreement of the table, a few rows at a time.

  lemma TableAgreesFrom0()
    ensures forall i :: 0 <= i < 5 ==> Configures(ConfigOpts[i], AllKeys[i])
  {
  }

  lemma TableAgreesFrom5()
    ensures forall i :: 5 <= i < 10 ==> Configures(ConfigOpts[i], AllKeys[i])
  {
  }

  lemma TableAgreesFrom10()
    ensures forall i :: 10 <= i < 15 ==> Configures(ConfigOpts[i], AllKeys[i])
  {
  }

  lemma TableAgreesFrom15()
    ensures forall i :: 15 <= i < 20 ==> Configures(ConfigOpts[i], AllKeys[i])
  {
  }

  lemma TableAgreesFrom20()
    ensures forall i :: 20 <= i < 23 ==> Configures(ConfigOpts[i], AllKeys[i])
  {
  }

  lemma TableAgreesFrom23()
    ensures forall i :: 23 <= i < 25 ==> Configures(ConfigOpts[i], AllKeys[i])
  {
  }

  /** The table as initConfig reads it: after init has filled in the empty envVars. */
  function InitializedOpts(): (r: seq<ConfigOption>)
    ensures |r| == |ConfigOpts|
  {
    WithDerivedEnvVars(ConfigOpts)
  }

  /** The table still agrees with horizon.Config once init has rewritten its envVars. */
  lemma InitializedAgrees()
    ensures Agrees(InitializedOpts())
  {
    TableAgrees();
    AgreesAfterInit(ConfigOpts);
  }

  /**
   * The config the setters build in `c` is the config the literal assigns to
   * `config` whenever initConfig completes from the process's initial state.
   */
  lemma TableSettersBuildConfig(store: Store, ext: Externals, up: nat, down: nat)
    ensures InitConfig(InitializedOpts(), store, ext, up, down, Initial()).Assembled? ==>
              InitConfig(InitializedOpts(), store, ext, up, down, Initial()).config ==
              InitConfig(InitializedOpts(), store, ext, up, down, Initial()).state.c
  {
    InitializedAgrees();
    SettersBuildAssembledConfig(InitializedOpts(), store, ext, up, down, Initial());
  }

  /**
   * initConfig over the table, from the process's initial state, stops only
   * for a missing required option, a pending migration, a half-configured
   * TLS pair or a setter's own validation; every exit has status 1.
   */
  lemma TableOutcomes(store: Store, ext: Externals, up: nat, down: nat)
    ensures InitConfig(InitializedOpts(), store, ext, up, down, Initial()).Exited? ==>
              ReachableExit(InitConfig(InitializedOpts(), store, ext, up, down, Initial()).failure,
                            SetValues(InitializedOpts(), store, ext, Initial()).Exit?)
    ensures InitConfig(InitializedOpts(), store, ext, up, down, Initial()).Exited? ==>
              ExitCode(InitConfig(InitializedOpts(), store, ext, up, down, Initial()).failure) == 1
  {
    InitializedAgrees();
    AgreeingOutcomes(InitializedOpts(), store, ext, up, down, Initial());
  }

  /**
   * With setURL as written, the friendbot-url option panics for every
   * non-empty value that parses: its field is a *url.URL, not a url.URL.
   */
  lemma TableFriendbotAsWrittenPanics(store: Store, ext: Externals, s: State)
    requires GetString(store, "friendbot-url") != "" && ext.parseURL(GetString(store, "friendbot-url")).Some?
    ensures SetURLAsWritten(ConfigOpts[KeyIndex(FriendbotURL)], store, ext, s) ==
            Exit(InterfaceConversion(Some(FriendbotURL), URLT), s)
  {
    TableAgrees();
    SetURLAsWrittenPanics(ConfigOpts[KeyIndex(FriendbotURL)], store, ext, s, FriendbotURL);
  }

  /** With the corrected setURL, the same option stores the parsed URL in FriendbotURL. */
  lemma TableFriendbotStores(store: Store, ext: Externals, s: State)
    requires GetString(store, "friendbot-url") != "" && ext.parseURL(GetString(store, "friendbot-url")).Some?
    ensures SetValue(ConfigOpts[KeyIndex(FriendbotURL)], store, ext, s) ==
            Continue(s.(c := s.c[FriendbotURL := URLPtr(ext.parseURL(GetString(store, "friendbot-url")))]))
  {
    TableAgrees();
    SetURLStores(ConfigOpts[KeyIndex(FriendbotURL)], store, ext, s, FriendbotURL);
  }

  /**
   * Only db-url and stellar-core-db-url carry an explicit envVar; init
   * derives every other one.
   */
  lemma TableEnvVars()
    ensures ConfigOpts[0].envVar == "DATABASE_URL" && ConfigOpts[1].envVar == "STELLAR_CORE_DATABASE_URL"
    ensures forall i :: 2 <= i < |ConfigOpts| ==> ConfigOpts[i].envVar == ""
  {
  }

  /** friendbot-url is given and url.Parse accepts it. */
  predicate FriendbotParses(store: Store, ext: Externals) {
    GetString(store, "friendbot-url") != "" && ext.parseURL(GetString(store, "friendbot-url")).Some?
  }

  /**
   * As written, once the required checks and both migration gates pass, a
   * friendbot-url that parses ends the process in the panic of main.go:122,
   * with status 2.
   */
  lemma TableAsWrittenPanics(store: Store, ext: Externals, up: nat, down: nat)
    requires FriendbotParses(store, ext)
    requires RequireAll(InitializedOpts(), store).None? && up == 0 && down == 0
    ensures InitConfigAsWritten(InitializedOpts(), store, ext, up, down, Initial()).failure ==
            InterfaceConversion(Some(FriendbotURL), URLT)
  {
    InitializedAgrees();
    AgreeingAsWrittenPanics(InitializedOpts(), store, ext, Initial());
  }

  /**
   * Without a friendbot-url that parses, initConfig as written over the table
   * ends as the corrected one, except that a run that assembles the config
   * ends at the unconditional log.Fatal of main.go:391.
   */
  lemma TableAsWrittenHalts(store: Store, ext: Externals, up: nat, down: nat)
    requires !FriendbotParses(store, ext)
    ensures InitConfig(InitializedOpts(), store, ext, up, down, Initial()).Assembled? ==>
              InitConfigAsWritten(InitializedOpts(), store, ext, up, down, Initial()).failure == DiedHere
    ensures InitConfig(InitializedOpts(), store, ext, up, down, Initial()).Exited? ==>
              InitConfigAsWritten(InitializedOpts(), store, ext, up, down, Initial()) ==
              InitConfig(InitializedOpts(), store, ext, up, down, Initial())
  {
    var opts := InitializedOpts();
    InitializedAgrees();
    AgreeingURLOwner(opts);
    InitConfigAsWrittenHalts(opts, store, ext, up, down, Initial());
  }

  /**
   * As written, initConfig over the table never returns: it panics with
   * status 2 exactly when it gets past the gates with a friendbot-url that
   * parses, and every other run ends the process with status 1.
   */
  lemma TableAsWrittenNeverServes(store: Store, ext: Externals, up: nat, down: nat)
    ensures ExitCode(InitConfigAsWritten(InitializedOpts(), store, ext, up, down, Initial()).failure) == 2 <==>
              FriendbotParses(store, ext) && RequireAll(InitializedOpts(), store).None? && up == 0 && down == 0
  {
    if FriendbotParses(store, ext) {
      if RequireAll(InitializedOpts(), store).None? && up == 0 && down == 0 {
        TableAsWrittenPanics(store, ext, up, down);
      } else {
        RequireAllPasses(InitializedOpts(), store);
      }
    } else {
      TableOutcomes(store, ext, up, down);
      TableAsWrittenHalts(store, ext, up, down);
    }
  }
}
