/**
 * The option table and the horizon.Config literal at the end of initConfig
 * describe the same fields twice: once as a setter writing through a pointer
 * (main.go:182-208, 282-285), once as a field read from viper
 * (main.go:335-361). This module states when an option agrees with the
 * literal, and proves that for agreeing tables the setters never panic, their
 * validations run before the staged re-checks, and the config they build is
 * the config the literal builds.
 */
module Agreement {
  import opened Wrappers
  import opened GoInt
  import opened Viper
  import opened HorizonConfig
  import opened Options
  import opened Resolve
  import opened ResolveProperties

  /** The viper key the horizon.Config literal reads for each field (main.go:336-360). */
  function AssemblyName(k: Key): string {
    match k
    case DatabaseURL => "db-url"
    case StellarCoreDatabaseURL => "stellar-core-db-url"
    case StellarCoreURL => "stellar-core-url"
    case Port => "port"
    case MaxDBConnections => "max-db-connections"
    case SSEUpdateFrequency => "sse-update-frequency"
    case ConnectionTimeout => "connection-timeout"
    case RateLimit => "per-hour-rate-limit"
    case RateLimitRedisKey => "rate-limit-redis-key"
    case RedisURL => "redis-url"
    case FriendbotURL => "friendbot-url"
    case LogLevel => "log-level"
    case LogFile => "log-file"
    case MaxPathLength => "max-path-length"
    case NetworkPassphrase => "network-passphrase"
    case SentryDSN => "sentry-dsn"
    case LogglyToken => "loggly-token"
    case LogglyTag => "loggly-tag"
    case TLSCert => "tls-cert"
    case TLSKey => "tls-key"
    case Ingest => "ingest"
    case HistoryRetentionCount => "history-retention-count"
    case StaleThreshold => "history-stale-threshold"
    case SkipCursorUpdate => "skip-cursor-update"
    case EnableAssetStats => "enable-asset-stats"
  }

  /** The type of the value each custom setter stores. */
  function SetterType(f: Setter): GoType {
    match f
    case SetDuration => DurationT
    case SetURL => URLPtrT
    case SetLogLevel => LevelT
    case SetLogFile => StringT
    case SetRateLimit => RateQuotaPtrT
    case IncrementTLSFlag => StringT
  }

  /**
   * The custom setter a field needs so that it ends as the literal makes it:
   * a conversion for durations, the rate quota, the URL, the level, the log
   * file and the counted TLS pair; none for the plain fields.
   */
  function SetterFor(k: Key): (r: Option<Setter>)
    ensures r.Some? ==> SetterType(r.value) == FieldType(k)
    ensures r.None? <==> (FieldType(k) == StringT || FieldType(k) == IntT || FieldType(k) == UintT || FieldType(k) == BoolT) &&
                         k != LogFile && k != TLSCert && k != TLSKey
  {
    match k
    case SSEUpdateFrequency => Some(SetDuration)
    case ConnectionTimeout => Some(SetDuration)
    case RateLimit => Some(SetRateLimit)
    case FriendbotURL => Some(SetURL)
    case LogLevel => Some(SetLogLevel)
    case LogFile => Some(SetLogFile)
    case TLSCert => Some(IncrementTLSFlag)
    case TLSKey => Some(IncrementTLSFlag)
    case _ => None
  }

  /** An option that agrees with the literal's treatment of field k. */
  predicate Configures(co: ConfigOption, k: Key) {
    && co.configKey == Some(k)
    && co.name == AssemblyName(k)
    && co.customSetValue == SetterFor(k)
    && (co.customSetValue.None? ==> SimpleType(co.flagDefault) == FieldType(k))
  }

  /** A table with one option per field, in the field order, each agreeing with the literal. */
  predicate Agrees(opts: seq<ConfigOption>) {
    && |opts| == |AllKeys|
    && forall i :: 0 <= i < |opts| ==> Configures(opts[i], AllKeys[i])
  }

  /** A setter panics only when its configKey is not a field of the type the setter stores. */
  lemma SetterPanics(f: Setter, co: ConfigOption, store: Store, ext: Externals, s: State)
    requires RunSetter(f, co, store, ext, s).Exit? && RunSetter(f, co, store, ext, s).failure.InterfaceConversion?
    ensures co.configKey.None? || FieldType(co.configKey.value) != SetterType(f)
  {
    match f
    case SetDuration =>
    case SetURL =>
    case SetLogLevel =>
    case SetLogFile =>
    case SetRateLimit =>
    case IncrementTLSFlag =>
  }

  /** An option that agrees with the literal never panics in setValue. */
  lemma ConfiguredNeverPanics(co: ConfigOption, k: Key, store: Store, ext: Externals, s: State)
    requires Configures(co, k)
    ensures SetValue(co, store, ext, s).Exit? ==> !SetValue(co, store, ext, s).failure.InterfaceConversion?
  {
    if co.customSetValue.Some? && SetValue(co, store, ext, s).Exit? && SetValue(co, store, ext, s).failure.InterfaceConversion? {
      SetterPanics(co.customSetValue.value, co, store, ext, s);
    }
  }

  /** The setter loop over an agreeing table stops only for a bad URL, a bad level or an unopenable log file. */
  lemma {:induction false} AgreeingNeverPanics(opts: seq<ConfigOption>, store: Store, ext: Externals, s: State)
    requires forall i :: 0 <= i < |opts| ==> opts[i].configKey.Some? && Configures(opts[i], opts[i].configKey.value)
    ensures SetValues(opts, store, ext, s).Exit? ==>
              SetValues(opts, store, ext, s).failure in {LogFileFailed} ||
              SetValues(opts, store, ext, s).failure.BadURL? || SetValues(opts, store, ext, s).failure.BadLogLevel?
  {
    SetValuesFailures(opts, store, ext, s);
    if opts != [] {
      ConfiguredNeverPanics(opts[0], opts[0].configKey.value, store, ext, s);
      var step := SetValue(opts[0], store, ext, s);
      if step.Continue? {
        var rest := opts[1..];
        assert forall i :: 0 <= i < |rest| ==> rest[i] == opts[i + 1];
        AgreeingNeverPanics(rest, store, ext, step.state);
      }
    }
  }

  /** The first option of each agreeing table, and every other, is configured by its own key. */
  lemma AgreesConfigured(opts: seq<ConfigOption>)
    requires Agrees(opts)
    ensures forall i :: 0 <= i < |opts| ==> opts[i].configKey.Some? && Configures(opts[i], opts[i].configKey.value)
  {
  }

  /**
   * Field k as an agreeing setter leaves it (starting from Go's zero value)
   * is field k as the literal builds it, once the staged checks have passed.
   */
  lemma WrittenMatchesAssembly(co: ConfigOption, k: Key, store: Store, ext: Externals, ll: Level)
    requires Configures(co, k)
    requires ext.parseLevel(GetString(store, "log-level")) == Some(ll)
    ensures WrittenOr(co, store, ext, ZeroValue(FieldType(k))) ==
            AssembledField(k, store, ll, GetString(store, "log-file"), GetString(store, "tls-cert"),
                           GetString(store, "tls-key"), FriendbotFrom(store, ext),
                           RateQuotaFor(GetInt(store, "per-hour-rate-limit")))
  {
    if SetterFor(k).None? {
      PlainFieldRead(k, store, ll, GetString(store, "log-file"), GetString(store, "tls-cert"),
                     GetString(store, "tls-key"), FriendbotFrom(store, ext),
                     RateQuotaFor(GetInt(store, "per-hour-rate-limit")));
      PlainDefaultRead(co.flagDefault, store, co.name);
    } else {
      match k
      case SSEUpdateFrequency =>
      case ConnectionTimeout =>
      case RateLimit =>
      case FriendbotURL =>
      case LogLevel =>
      case LogFile =>
      case TLSCert =>
      case TLSKey =>
      case _ =>
    }
  }

  /** How setSimpleValue reads an option into a field of type t (main.go:82-91). */
  function PlainRead(t: GoType, store: Store, name: string): Value {
    match t
    case IntT => IntVal(GetInt(store, name))
    case UintT => UintVal(ToUint(GetInt(store, name)))
    case BoolT => BoolVal(GetBool(store, name))
    case _ => StringVal(GetString(store, name))
  }

  /** The simple path reads a default of each type as PlainRead reads that type. */
  lemma PlainDefaultRead(d: Default, store: Store, name: string)
    ensures SimpleValue(d, store, name) == PlainRead(SimpleType(d), store, name)
  {
  }

  /** The literal reads every field without a custom setter exactly as setSimpleValue would. */
  lemma PlainFieldRead(k: Key, store: Store, ll: Level, lf: string, cert: string, key: string,
                       friendbotURL: Option<URL>, rateLimit: Option<RateQuota>)
    requires SetterFor(k).None?
    ensures AssembledField(k, store, ll, lf, cert, key, friendbotURL, rateLimit) == PlainRead(FieldType(k), store, AssemblyName(k))
  {
  }

  /** In an agreeing table, option KeyIndex(k) is the only one pointing to field k. */
  lemma AgreeingOwner(opts: seq<ConfigOption>, k: Key)
    requires Agrees(opts)
    ensures KeyIndex(k) < |opts| && Configures(opts[KeyIndex(k)], k)
    ensures forall j :: 0 <= j < |opts| && j != KeyIndex(k) ==> opts[j].configKey != Some(k)
  {
    forall j | 0 <= j < |opts| && opts[j].configKey == Some(k)
      ensures j == KeyIndex(k)
    {
      assert AllKeys[j] == k;
      KeyIndexOf(j);
    }
  }

  /** One field after the setter loop over an agreeing table, from the zero config. */
  lemma FieldBuilt(opts: seq<ConfigOption>, store: Store, ext: Externals, s: State, ll: Level, k: Key)
    requires Agrees(opts)
    requires s.c == ZeroConfig()
    requires SetValues(opts, store, ext, s).Continue?
    requires ext.parseLevel(GetString(store, "log-level")) == Some(ll)
    ensures k in SetValues(opts, store, ext, s).state.c
    ensures SetValues(opts, store, ext, s).state.c[k] ==
            AssembledField(k, store, ll, GetString(store, "log-file"), GetString(store, "tls-cert"),
                           GetString(store, "tls-key"), FriendbotFrom(store, ext),
                           RateQuotaFor(GetInt(store, "per-hour-rate-limit")))
  {
    SetValuesEffect(opts, store, ext, s, k);
    AgreeingOwner(opts, k);
    FieldAfterOwner(opts, store, ext, k, s.c[k], KeyIndex(k));
    WrittenMatchesAssembly(opts[KeyIndex(k)], k, store, ext, ll);
  }

  /** The whole config after the setter loop over an agreeing table is the literal's config. */
  lemma SetValuesBuildAssembly(opts: seq<ConfigOption>, store: Store, ext: Externals, s: State, ll: Level)
    requires Agrees(opts)
    requires s.c == ZeroConfig()
    requires SetValues(opts, store, ext, s).Continue?
    requires ext.parseLevel(GetString(store, "log-level")) == Some(ll)
    ensures SetValues(opts, store, ext, s).state.c ==
            Assemble(store, ll, GetString(store, "log-file"), GetString(store, "tls-cert"),
                     GetString(store, "tls-key"), FriendbotFrom(store, ext),
                     RateQuotaFor(GetInt(store, "per-hour-rate-limit")))
  {
    var c' := SetValues(opts, store, ext, s).state.c;
    var cfg := Assemble(store, ll, GetString(store, "log-file"), GetString(store, "tls-cert"),
                        GetString(store, "tls-key"), FriendbotFrom(store, ext),
                        RateQuotaFor(GetInt(store, "per-hour-rate-limit")));
    forall k: Key
      ensures k in c' && k in cfg && c'[k] == cfg[k]
    {
      FieldBuilt(opts, store, ext, s, ll, k);
    }
    SameFields(c', cfg);
  }

  lemma SameFields(a: Fields, b: Fields)
    requires forall k: Key :: k in a && k in b && a[k] == b[k]
    ensures a == b
  {
    assert a.Keys == b.Keys;
  }

  /** When the staged checks pass, the config is the literal's, at the level that was parsed. */
  lemma FinishAssembles(store: Store, ext: Externals, s: State)
    requires Finish(store, ext, s).Assembled?
    ensures ext.parseLevel(GetString(store, "log-level")).Some?
    ensures Finish(store, ext, s).config ==
            Assemble(store, ext.parseLevel(GetString(store, "log-level")).value, GetString(store, "log-file"),
                     GetString(store, "tls-cert"), GetString(store, "tls-key"), FriendbotFrom(store, ext),
                     RateQuotaFor(GetInt(store, "per-hour-rate-limit")))
  {
  }

  /**
   * The config the setters build in `c` is the config the literal assigns to
   * `config`: when initConfig over an agreeing table completes from the zero
   * config, the two are equal field by field.
   */
  lemma SettersBuildAssembledConfig(opts: seq<ConfigOption>, store: Store, ext: Externals, up: nat, down: nat, s: State)
    requires Agrees(opts)
    requires s.c == ZeroConfig()
    ensures InitConfig(opts, store, ext, up, down, s).Assembled? ==>
              InitConfig(opts, store, ext, up, down, s).config == InitConfig(opts, store, ext, up, down, s).state.c
  {
    var out := InitConfig(opts, store, ext, up, down, s);
    if out.Assembled? {
      var step := SetValues(opts, store, ext, s);
      assert step.Continue? && out == Finish(store, ext, step.state);
      FinishAssembles(store, ext, step.state);
      SetValuesBuildAssembly(opts, store, ext, s, ext.parseLevel(GetString(store, "log-level")).value);
    }
  }

  /** An agreeing table has its TLS pair at the positions of TLSCert and TLSKey, and no other TLS setter. */
  lemma AgreeingTLSPair(opts: seq<ConfigOption>)
    requires Agrees(opts)
    ensures TLSPairAt(opts, KeyIndex(TLSCert))
  {
    forall j | 0 <= j < |opts| && opts[j].customSetValue == Some(IncrementTLSFlag)
      ensures j == KeyIndex(TLSCert) || j == KeyIndex(TLSKey)
    {
      KeyIndexOf(j);
    }
  }

  /** After the setter loop over an agreeing table, the option owning field k has passed its own validation. */
  lemma OwnerAccepted(opts: seq<ConfigOption>, store: Store, ext: Externals, s: State, k: Key)
    requires Agrees(opts)
    requires SetValues(opts, store, ext, s).Continue?
    ensures Configures(opts[KeyIndex(k)], k) && SetterAccepts(opts[KeyIndex(k)], store, ext)
  {
    AgreeingOwner(opts, k);
    SetValuesAccepted(opts, store, ext, s, KeyIndex(k));
  }

  /** After the setter loop over an agreeing table, the log level parses (main.go:287-290). */
  lemma LevelRecheckPasses(opts: seq<ConfigOption>, store: Store, ext: Externals, s: State)
    requires Agrees(opts)
    requires SetValues(opts, store, ext, s).Continue?
    ensures ext.parseLevel(GetString(store, "log-level")).Some?
  {
    OwnerAccepted(opts, store, ext, s, LogLevel);
    var level := opts[KeyIndex(LogLevel)];
    assert level.customSetValue == Some(SetLogLevel) && level.name == "log-level";
  }

  /** After the setter loop over an agreeing table, the log file, if given, opens (main.go:296-304). */
  lemma LogFileRecheckPasses(opts: seq<ConfigOption>, store: Store, ext: Externals, s: State)
    requires Agrees(opts)
    requires SetValues(opts, store, ext, s).Continue?
    ensures GetString(store, "log-file") == "" || ext.canOpen(GetString(store, "log-file"))
  {
    OwnerAccepted(opts, store, ext, s, LogFile);
    assert opts[KeyIndex(LogFile)].customSetValue == Some(SetLogFile);
  }

  /** After the setter loop over an agreeing table, the friendbot URL, if given, parses (main.go:316-323). */
  lemma FriendbotRecheckPasses(opts: seq<ConfigOption>, store: Store, ext: Externals, s: State)
    requires Agrees(opts)
    requires SetValues(opts, store, ext, s).Continue?
    ensures GetString(store, "friendbot-url") == "" || ext.parseURL(GetString(store, "friendbot-url")).Some?
  {
    OwnerAccepted(opts, store, ext, s, FriendbotURL);
    var friendbot := opts[KeyIndex(FriendbotURL)];
    assert friendbot.customSetValue == Some(SetURL) && friendbot.name == "friendbot-url";
  }

  /** In an agreeing table only the friendbot-url option uses setURL. */
  lemma AgreeingURLOwner(opts: seq<ConfigOption>)
    requires Agrees(opts)
    ensures opts[KeyIndex(FriendbotURL)].customSetValue == Some(Setter.SetURL)
    ensures opts[KeyIndex(FriendbotURL)].name == "friendbot-url"
    ensures forall j :: 0 <= j < |opts| && j != KeyIndex(FriendbotURL) ==> opts[j].customSetValue != Some(Setter.SetURL)
  {
    forall j | 0 <= j < |opts| && opts[j].customSetValue == Some(Setter.SetURL)
      ensures j == KeyIndex(FriendbotURL)
    {
      KeyIndexOf(j);
    }
  }

  /** The setters that can stop the process for a reason of their own. */
  predicate Validating(f: Option<Setter>) {
    f == Some(Setter.SetURL) || f == Some(Setter.SetLogLevel) || f == Some(Setter.SetLogFile)
  }

  /** An agreeing option whose setter validates nothing never stops the setter loop. */
  lemma QuietOptionContinues(co: ConfigOption, k: Key, store: Store, ext: Externals, s: State)
    requires Configures(co, k) && !Validating(co.customSetValue)
    ensures SetValue(co, store, ext, s).Continue?
  {
    ConfiguredNeverPanics(co, k, store, ext, s);
    QuietExitPanics(co, store, ext, s);
  }

  /** A setter that validates nothing can only stop the process by panicking. */
  lemma QuietExitPanics(co: ConfigOption, store: Store, ext: Externals, s: State)
    requires !Validating(co.customSetValue)
    ensures SetValue(co, store, ext, s).Exit? ==> SetValue(co, store, ext, s).failure.InterfaceConversion?
  {
    if co.customSetValue.Some? {
      match co.customSetValue.value
      case SetDuration =>
      case SetURL =>
      case SetLogLevel =>
      case SetLogFile =>
      case SetRateLimit =>
      case IncrementTLSFlag =>
    }
  }

  /** A run of agreeing options whose setters validate nothing never stops the process. */
  lemma {:induction false} QuietContinues(opts: seq<ConfigOption>, store: Store, ext: Externals, s: State)
    requires forall j :: 0 <= j < |opts| ==>
               opts[j].configKey.Some? && Configures(opts[j], opts[j].configKey.value) && !Validating(opts[j].customSetValue)
    ensures SetValues(opts, store, ext, s).Continue?
  {
    if opts != [] {
      QuietOptionContinues(opts[0], opts[0].configKey.value, store, ext, s);
      var rest := opts[1..];
      assert forall j :: 0 <= j < |rest| ==> rest[j] == opts[j + 1];
      QuietContinues(rest, store, ext, SetValue(opts[0], store, ext, s).state);
    }
  }

  /** In an agreeing table, no option before friendbot-url stops the setter loop. */
  lemma AgreeingBeforeFriendbot(opts: seq<ConfigOption>, store: Store, ext: Externals, s: State)
    requires Agrees(opts)
    ensures SetValues(opts[..KeyIndex(FriendbotURL)], store, ext, s).Continue?
  {
    var front := opts[..KeyIndex(FriendbotURL)];
    forall j | 0 <= j < |front|
      ensures front[j].configKey.Some? && Configures(front[j], front[j].configKey.value) && !Validating(front[j].customSetValue)
    {
      KeyIndexOf(j);
      assert front[j] == opts[j];
      assert Configures(front[j], AllKeys[j]);
    }
    QuietContinues(front, store, ext, s);
  }

  /**
   * As written, the setter loop over an agreeing table, with a friendbot-url
   * that parses, runs the options before friendbot-url and then panics in
   * setURL.
   */
  lemma AgreeingAsWrittenPanics(opts: seq<ConfigOption>, store: Store, ext: Externals, s: State)
    requires Agrees(opts)
    requires GetString(store, "friendbot-url") != "" && ext.parseURL(GetString(store, "friendbot-url")).Some?
    ensures SetValuesAsWritten(opts, store, ext, s).Exit?
    ensures SetValuesAsWritten(opts, store, ext, s).failure == InterfaceConversion(Some(FriendbotURL), URLT)
  {
    AgreeingURLOwner(opts);
    AgreeingOwner(opts, FriendbotURL);
    AgreeingBeforeFriendbot(opts, store, ext, s);
    SetValuesAsWrittenPanicsAt(opts, store, ext, s, KeyIndex(FriendbotURL), FriendbotURL);
  }

  /** The exits initConfig can reach on an agreeing table. */
  predicate ReachableExit(f: Failure, setterExit: bool) {
    || f.MissingRequired? || f.PendingUpMigrations? || f.PendingDownMigrations? || f == TLSHalfConfigured
    || (setterExit && (f.BadURL? || f.BadLogLevel? || f == LogFileFailed))
  }

  /**
   * On an agreeing table, from a well-typed state with no TLS option counted,
   * initConfig stops only for a missing required option, a pending
   * migration, a half-configured TLS pair, or a setter's own validation
   * failure; the re-checks after the setters never stop it and no interface
   * conversion panics, so every exit has status 1.
   */
  lemma AgreeingOutcomes(opts: seq<ConfigOption>, store: Store, ext: Externals, up: nat, down: nat, s: State)
    requires Agrees(opts)
    requires WellTyped(s.c) && s.tlsProvided == 0
    ensures InitConfig(opts, store, ext, up, down, s).Exited? ==>
              ReachableExit(InitConfig(opts, store, ext, up, down, s).failure, SetValues(opts, store, ext, s).Exit?)
    ensures InitConfig(opts, store, ext, up, down, s).Exited? ==> ExitCode(InitConfig(opts, store, ext, up, down, s).failure) == 1
  {
    AgreesConfigured(opts);
    AgreeingNeverPanics(opts, store, ext, s);
    AgreeingTLSPair(opts);
    RequireAllPasses(opts, store);
    if RequireAll(opts, store).None? && up == 0 && down == 0 && SetValues(opts, store, ext, s).Continue? {
      var s' := SetValues(opts, store, ext, s).state;
      LevelRecheckPasses(opts, store, ext, s);
      LogFileRecheckPasses(opts, store, ext, s);
      FriendbotRecheckPasses(opts, store, ext, s);
      TLSValidation(opts, store, ext, s, KeyIndex(TLSCert));
      assert InitConfig(opts, store, ext, up, down, s) == Finish(store, ext, s');
    }
  }

  /** init's envVar rewrite keeps a table agreeing: agreement does not look at envVars. */
  lemma AgreesAfterInit(opts: seq<ConfigOption>)
    requires Agrees(opts)
    ensures Agrees(WithDerivedEnvVars(opts))
  {
    var r := WithDerivedEnvVars(opts);
    assert forall i :: 0 <= i < |opts| ==> r[i].(envVar := opts[i].envVar) == opts[i];
  }
}
