/**
 * What each step of option resolution in services/horizon/main.go does, as
 * functions from the process state before the step to the state after it.
 * A step either continues or exits the process; every `log.Fatal`, every
 * `os.Exit(1)` and every runtime panic of a failed interface conversion is an
 * `Exit` carrying its cause and the state at that moment.
 */
module Resolve {
  import opened Wrappers
  import opened GoInt
  import opened Viper
  import opened HorizonConfig
  import opened Options

  /** Why the process stops. */
  datatype Failure =
    | MissingRequired(name: string, envVar: string)
    | PendingUpMigrations(count: nat)
    | PendingDownMigrations(count: nat)
    | BadURL(text: string)
    | BadLogLevel(text: string)
    | LogFileFailed
    | TLSHalfConfigured
    | TLSKeyNotConfigured
    | TLSCertNotConfigured
    | InterfaceConversion(key: Option<Key>, asserted: GoType)
    | DiedHere

  /** log.Fatal and os.Exit(1) end the process with status 1; an unrecovered panic with status 2. */
  function ExitCode(f: Failure): (code: int)
    ensures code == 1 || code == 2
    ensures code == 2 <==> f.InterfaceConversion?
  {
    if f.InterfaceConversion? then 2 else 1
  }

  /** The foreign parsers and the file system, as the resolver consults them. */
  datatype Externals = Externals(
    parseURL: string -> Option<URL>,     // url.Parse
    parseLevel: string -> Option<Level>, // logrus.ParseLevel
    canOpen: string -> bool)             // os.OpenFile(name, O_APPEND|O_CREATE|O_WRONLY, 0644) succeeds

  /**
   * The package state resolution changes: the config `c`, the counter
   * `tlsProvided`, and the level and output file of the default logger
   * (None while the resolver has not set them).
   */
  datatype State = State(c: Fields, tlsProvided: int, loggerLevel: Option<Level>, logOutput: Option<string>)

  /** The state at process start: `var c horizon.Config`, `var tlsProvided = 0`. */
  function Initial(): (s: State)
    ensures WellTyped(s.c) && s.tlsProvided == 0
    ensures s.c == ZeroConfig() && s.loggerLevel.None? && s.logOutput.None?
  {
    State(ZeroConfig(), 0, None, None)
  }

  datatype Step = Continue(state: State) | Exit(failure: Failure, state: State)

  /** The end of initConfig: either the assembled config or the exit. */
  datatype Outcome = Assembled(config: Fields, state: State) | Exited(failure: Failure, state: State)

  /** require (main.go:61-65). */
  function Require(co: ConfigOption, store: Store): (r: Option<Failure>)
    ensures r.Some? <==> co.required && GetString(store, co.name) == ""
    ensures r.Some? ==> r.value == MissingRequired(co.name, co.envVar)
  {
    if co.required && GetString(store, co.name) == "" then Some(MissingRequired(co.name, co.envVar)) else None
  }

  /**
   * `*(co.configKey.(*T)) = v`: the assertion panics unless configKey points
   * to a field of type T (a nil configKey points to nothing).
   */
  function Write(s: State, key: Option<Key>, v: Value): (r: Step)
    ensures r.Continue? <==> key.Some? && FieldType(key.value) == TypeOf(v)
    ensures r.Continue? ==> r.state == s.(c := s.c[key.value := v])
    ensures r.Exit? ==> r == Exit(InterfaceConversion(key, TypeOf(v)), s)
  {
    if key.Some? && FieldType(key.value) == TypeOf(v) then Continue(s.(c := s.c[key.value := v]))
    else Exit(InterfaceConversion(key, TypeOf(v)), s)
  }

  /** The value setSimpleValue reads for a default of each dynamic type (main.go:82-91). */
  function SimpleValue(d: Default, store: Store, name: string): (v: Value)
    ensures d.StringDefault? ==> v == StringVal(GetString(store, name))
    ensures d.IntDefault? ==> v == IntVal(GetInt(store, name))
    ensures d.BoolDefault? ==> v == BoolVal(GetBool(store, name))
    ensures d.UintDefault? ==> v == UintVal(ToUint(GetInt(store, name)))
  {
    match d
    case StringDefault(_) => StringVal(GetString(store, name))
    case IntDefault(_) => IntVal(GetInt(store, name))
    case BoolDefault(_) => BoolVal(GetBool(store, name))
    case UintDefault(_) => UintVal(ToUint(GetInt(store, name)))
  }

  /** The type of the value the simple path writes: the flag kind's own type. */
  function SimpleType(d: Default): GoType {
    match d
    case StringDefault(_) => StringT
    case IntDefault(_) => IntT
    case BoolDefault(_) => BoolT
    case UintDefault(_) => UintT
  }

  /** setSimpleValue (main.go:80-93). */
  function SetSimpleValue(co: ConfigOption, store: Store, s: State): (r: Step)
    ensures co.configKey.None? ==> r == Continue(s)
    ensures TypeOf(SimpleValue(co.flagDefault, store, co.name)) == SimpleType(co.flagDefault)
    ensures r.Continue? <==> co.configKey.None? || FieldType(co.configKey.value) == SimpleType(co.flagDefault)
    ensures r.Continue? && co.configKey.Some? ==>
              r.state == s.(c := s.c[co.configKey.value := SimpleValue(co.flagDefault, store, co.name)])
    ensures r.Exit? ==> r == Exit(InterfaceConversion(co.configKey, SimpleType(co.flagDefault)), s)
  {
    if co.configKey.None? then Continue(s) else Write(s, co.configKey, SimpleValue(co.flagDefault, store, co.name))
  }

  /** setDuration (main.go:110-112). */
  function SetDuration(co: ConfigOption, store: Store, s: State): (r: Step)
    ensures r.Continue? <==> co.configKey.Some? && FieldType(co.configKey.value) == DurationT
  {
    Write(s, co.configKey, DurationVal(Seconds(GetInt(store, co.name))))
  }

  /** setURL (main.go:115-124), with the pointer stored into the *url.URL field. */
  function SetURL(co: ConfigOption, store: Store, ext: Externals, s: State): (r: Step)
    ensures GetString(store, co.name) == "" ==> r == Continue(s)
    ensures GetString(store, co.name) != "" && ext.parseURL(GetString(store, co.name)).None? ==>
              r == Exit(BadURL(GetString(store, co.name)), s)
  {
    var text := GetString(store, co.name);
    if text == "" then Continue(s)
    else match ext.parseURL(text)
      case None => Exit(BadURL(text), s)
      case Some(u) => Write(s, co.configKey, URLPtr(Some(u)))
  }

  /** setURL exactly as written: it asserts configKey.(*url.URL), a pointer to a URL value. */
  function SetURLAsWritten(co: ConfigOption, store: Store, ext: Externals, s: State): (r: Step)
    ensures GetString(store, co.name) == "" ==> r == Continue(s)
    ensures GetString(store, co.name) != "" && ext.parseURL(GetString(store, co.name)).None? ==>
              r == Exit(BadURL(GetString(store, co.name)), s)
  {
    var text := GetString(store, co.name);
    if text == "" then Continue(s)
    else match ext.parseURL(text)
      case None => Exit(BadURL(text), s)
      case Some(u) => Write(s, co.configKey, URLVal(u))
  }

  /** setLogLevel (main.go:127-134): the logger's level is set before the config field. */
  function SetLogLevel(co: ConfigOption, store: Store, ext: Externals, s: State): (r: Step)
    ensures ext.parseLevel(GetString(store, co.name)).None? ==> r == Exit(BadLogLevel(GetString(store, co.name)), s)
    ensures ext.parseLevel(GetString(store, co.name)).Some? ==>
              r.state.loggerLevel == ext.parseLevel(GetString(store, co.name))
  {
    var text := GetString(store, co.name);
    match ext.parseLevel(text)
    case None => Exit(BadLogLevel(text), s)
    case Some(ll) => Write(s.(loggerLevel := Some(ll)), co.configKey, LevelVal(ll))
  }

  /** setLogFile (main.go:137-148); it reads "log-file" whatever the option's name. */
  function SetLogFile(co: ConfigOption, store: Store, ext: Externals, s: State): (r: Step)
    ensures GetString(store, "log-file") == "" ==> r == Continue(s)
    ensures GetString(store, "log-file") != "" && !ext.canOpen(GetString(store, "log-file")) ==>
              r == Exit(LogFileFailed, s)
    ensures GetString(store, "log-file") != "" && ext.canOpen(GetString(store, "log-file")) ==>
              r.state.logOutput == Some(GetString(store, "log-file"))
  {
    var lf := GetString(store, "log-file");
    if lf == "" then Continue(s)
    else if ext.canOpen(lf) then Write(s.(logOutput := Some(lf)), co.configKey, StringVal(lf))
    else Exit(LogFileFailed, s)
  }

  /** setRateLimit (main.go:151-161). */
  function SetRateLimit(co: ConfigOption, store: Store, s: State): (r: Step)
    ensures GetInt(store, co.name) == 0 ==> r == Continue(s)
  {
    var quota := RateQuotaFor(GetInt(store, co.name));
    if quota.None? then Continue(s) else Write(s, co.configKey, RateQuotaPtr(quota))
  }

  /** incrementTLSFlag (main.go:164-170): the counter goes up before the field is written. */
  function IncrementTLSFlag(co: ConfigOption, store: Store, s: State): (r: Step)
    ensures GetString(store, co.name) == "" ==> r == Continue(s)
    ensures GetString(store, co.name) != "" ==> r.state.tlsProvided == s.tlsProvided + 1
  {
    var tls := GetString(store, co.name);
    if tls == "" then Continue(s)
    else Write(s.(tlsProvided := s.tlsProvided + 1), co.configKey, StringVal(tls))
  }

  /** validateTLS (main.go:173-177). */
  function ValidateTLS(tlsProvided: int): (r: Option<Failure>)
    ensures r.Some? <==> tlsProvided == 1
    ensures r.Some? ==> r.value == TLSHalfConfigured
  {
    if tlsProvided == 1 then Some(TLSHalfConfigured) else None
  }

  function RunSetter(f: Setter, co: ConfigOption, store: Store, ext: Externals, s: State): Step {
    match f
    case SetDuration => SetDuration(co, store, s)
    case SetURL => SetURL(co, store, ext, s)
    case SetLogLevel => SetLogLevel(co, store, ext, s)
    case SetLogFile => SetLogFile(co, store, ext, s)
    case SetRateLimit => SetRateLimit(co, store, s)
    case IncrementTLSFlag => IncrementTLSFlag(co, store, s)
  }

  /** setValue (main.go:68-77): the custom setter if there is one, else the simple path if there is a key. */
  function SetValue(co: ConfigOption, store: Store, ext: Externals, s: State): (r: Step)
    ensures co.customSetValue.Some? ==> r == RunSetter(co.customSetValue.value, co, store, ext, s)
    ensures co.customSetValue.None? && co.configKey.Some? ==> r == SetSimpleValue(co, store, s)
    ensures co.customSetValue.None? && co.configKey.None? ==> r == Continue(s)
  {
    if co.customSetValue.Some? then RunSetter(co.customSetValue.value, co, store, ext, s)
    else if co.configKey.Some? then SetSimpleValue(co, store, s)
    else Continue(s)
  }

  /** The loop of require calls (main.go:261-264): the first failing option stops the process. */
  function RequireAll(opts: seq<ConfigOption>, store: Store): (r: Option<Failure>)
    ensures r.Some? ==> r.value.MissingRequired?
  {
    if opts == [] then None
    else if Require(opts[0], store).Some? then Require(opts[0], store)
    else RequireAll(opts[1..], store)
  }

  /** The loop of setValue calls (main.go:282-285). */
  function SetValues(opts: seq<ConfigOption>, store: Store, ext: Externals, s: State): Step {
    if opts == [] then Continue(s)
    else match SetValue(opts[0], store, ext, s)
      case Exit(f, s') => Exit(f, s')
      case Continue(s') => SetValues(opts[1..], store, ext, s')
  }

  /** The second cert/key pair check (main.go:307-313). */
  function CheckTLSPair(cert: string, key: string): (r: Option<Failure>)
    ensures r.None? <==> (cert == "" <==> key == "")
    ensures r == Some(TLSKeyNotConfigured) <==> cert != "" && key == ""
  {
    if cert != "" && key == "" then Some(TLSKeyNotConfigured)
    else if cert == "" && key != "" then Some(TLSCertNotConfigured)
    else None
  }

  /** One field of the horizon.Config literal of main.go:335-361. */
  function AssembledField(k: Key, store: Store, ll: Level, lf: string, cert: string, key: string,
                          friendbotURL: Option<URL>, rateLimit: Option<RateQuota>): (v: Value)
    ensures TypeOf(v) == FieldType(k)
  {
    match k
    case DatabaseURL => StringVal(GetString(store, "db-url"))
    case StellarCoreDatabaseURL => StringVal(GetString(store, "stellar-core-db-url"))
    case StellarCoreURL => StringVal(GetString(store, "stellar-core-url"))
    case Port => IntVal(GetInt(store, "port"))
    case MaxDBConnections => IntVal(GetInt(store, "max-db-connections"))
    case SSEUpdateFrequency => DurationVal(Seconds(GetInt(store, "sse-update-frequency")))
    case ConnectionTimeout => DurationVal(Seconds(GetInt(store, "connection-timeout")))
    case RateLimit => RateQuotaPtr(rateLimit)
    case RateLimitRedisKey => StringVal(GetString(store, "rate-limit-redis-key"))
    case RedisURL => StringVal(GetString(store, "redis-url"))
    case FriendbotURL => URLPtr(friendbotURL)
    case LogLevel => LevelVal(ll)
    case LogFile => StringVal(lf)
    case MaxPathLength => UintVal(ToUint(GetInt(store, "max-path-length")))
    case NetworkPassphrase => StringVal(GetString(store, "network-passphrase"))
    case SentryDSN => StringVal(GetString(store, "sentry-dsn"))
    case LogglyToken => StringVal(GetString(store, "loggly-token"))
    case LogglyTag => StringVal(GetString(store, "loggly-tag"))
    case TLSCert => StringVal(cert)
    case TLSKey => StringVal(key)
    case Ingest => BoolVal(GetBool(store, "ingest"))
    case HistoryRetentionCount => UintVal(ToUint(GetInt(store, "history-retention-count")))
    case StaleThreshold => UintVal(ToUint(GetInt(store, "history-stale-threshold")))
    case SkipCursorUpdate => BoolVal(GetBool(store, "skip-cursor-update"))
    case EnableAssetStats => BoolVal(GetBool(store, "enable-asset-stats"))
  }

  /** The horizon.Config literal of main.go:335-361: every field set, each of its declared type. */
  function Assemble(store: Store, ll: Level, lf: string, cert: string, key: string,
                    friendbotURL: Option<URL>, rateLimit: Option<RateQuota>): (config: Fields)
    ensures WellTyped(config)
    ensures forall k :: k in config && config[k] == AssembledField(k, store, ll, lf, cert, key, friendbotURL, rateLimit)
  {
    AllKeysComplete();
    map k | k in AllKeys :: AssembledField(k, store, ll, lf, cert, key, friendbotURL, rateLimit)
  }

  /** The friendbot URL as the assembly sees it: None when not given, else the parse. */
  function FriendbotFrom(store: Store, ext: Externals): Option<URL> {
    var text := GetString(store, "friendbot-url");
    if text == "" then None else ext.parseURL(text)
  }

  /** The staged checks after the setters and the assembly (main.go:286-361). */
  function Finish(store: Store, ext: Externals, s: State): (r: Outcome)
    ensures r.state.c == s.c && r.state.tlsProvided == s.tlsProvided
    ensures r.Assembled? ==> WellTyped(r.config)
  {
    var levelText := GetString(store, "log-level");
    match ext.parseLevel(levelText)
    case None => Exited(BadLogLevel(levelText), s)
    case Some(ll) =>
      var s1 := s.(loggerLevel := Some(ll));
      if ValidateTLS(s1.tlsProvided).Some? then Exited(TLSHalfConfigured, s1)
      else
        var lf := GetString(store, "log-file");
        if lf != "" && !ext.canOpen(lf) then Exited(LogFileFailed, s1)
        else
          var s2 := if lf != "" then s1.(logOutput := Some(lf)) else s1;
          var cert, key := GetString(store, "tls-cert"), GetString(store, "tls-key");
          if CheckTLSPair(cert, key).Some? then Exited(CheckTLSPair(cert, key).value, s2)
          else
            var fbText := GetString(store, "friendbot-url");
            if fbText != "" && ext.parseURL(fbText).None? then Exited(BadURL(fbText), s2)
            else
              var rateLimit := RateQuotaFor(GetInt(store, "per-hour-rate-limit"));
              Assembled(Assemble(store, ll, lf, cert, key, FriendbotFrom(store, ext), rateLimit), s2)
  }

  /**
   * initConfig (main.go:259-361): required checks, then the pending-up gate,
   * then the pending-down gate, then every setter, then the staged checks and
   * the assembly. The migration counts are what the schema queries report.
   */
  function InitConfig(opts: seq<ConfigOption>, store: Store, ext: Externals, up: nat, down: nat, s: State): (r: Outcome)
    ensures r.Assembled? ==> RequireAll(opts, store).None? && up == 0 && down == 0
    ensures r.Assembled? ==> WellTyped(r.config)
  {
    match RequireAll(opts, store)
    case Some(f) => Exited(f, s)
    case None =>
      if up > 0 then Exited(PendingUpMigrations(up), s)
      else if down > 0 then Exited(PendingDownMigrations(down), s)
      else match SetValues(opts, store, ext, s)
        case Exit(f, s') => Exited(f, s')
        case Continue(s') => Finish(store, ext, s')
  }

  /**
   * setValue as written: the only difference from SetValue is that the
   * friendbot setter is setURL as written, which differs from the corrected
   * one only when the text is non-empty and parses.
   */
  function SetValueAsWritten(co: ConfigOption, store: Store, ext: Externals, s: State): (r: Step)
    ensures !StoresParsedURL(co, store, ext) ==> r == SetValue(co, store, ext, s)
  {
    if co.customSetValue == Some(Setter.SetURL) then SetURLAsWritten(co, store, ext, s) else SetValue(co, store, ext, s)
  }

  /** The option's setter is setURL and its text is a URL that parses. */
  predicate StoresParsedURL(co: ConfigOption, store: Store, ext: Externals) {
    && co.customSetValue == Some(Setter.SetURL)
    && GetString(store, co.name) != ""
    && ext.parseURL(GetString(store, co.name)).Some?
  }

  /** The loop of setValue calls as written (main.go:282-285). */
  function SetValuesAsWritten(opts: seq<ConfigOption>, store: Store, ext: Externals, s: State): Step {
    if opts == [] then Continue(s)
    else match SetValueAsWritten(opts[0], store, ext, s)
      case Exit(f, s') => Exit(f, s')
      case Continue(s') => SetValuesAsWritten(opts[1..], store, ext, s')
  }

  /**
   * initConfig as written (main.go:259-391): its setter loop uses setURL as
   * written, and after the assembly it prints each field of `c` and `config`
   * and then calls log.Fatal unconditionally, so a run that gets that far
   * still ends the process.
   */
  function InitConfigAsWritten(opts: seq<ConfigOption>, store: Store, ext: Externals, up: nat, down: nat, s: State): (r: Outcome)
    ensures r.Exited?
  {
    match RequireAll(opts, store)
    case Some(f) => Exited(f, s)
    case None =>
      if up > 0 then Exited(PendingUpMigrations(up), s)
      else if down > 0 then Exited(PendingDownMigrations(down), s)
      else match SetValuesAsWritten(opts, store, ext, s)
        case Exit(f, s') => Exited(f, s')
        case Continue(s') =>
          match Finish(store, ext, s')
          case Assembled(_, s'') => Exited(DiedHere, s'')
          case Exited(f, s'') => Exited(f, s'')
  }
}
