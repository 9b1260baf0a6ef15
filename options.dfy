/**
 * The option descriptors (configOption, main.go:49-58) and the table of all
 * options (main.go:182-208), with the two derivations the rest of the code
 * makes from a descriptor: the kind of flag to register, and the environment
 * variable name.
 */
module Options {
  import opened Wrappers
  import opened GoInt
  import opened HorizonConfig

  /** The default's dynamic type drives both flag registration and the simple setter. */
  datatype Default =
    | StringDefault(s: string)
    | IntDefault(i: Int64)
    | BoolDefault(b: bool)
    | UintDefault(u: Uint64)

  /** The custom setters the table uses (customSetValue). */
  datatype Setter = SetDuration | SetURL | SetLogLevel | SetLogFile | SetRateLimit | IncrementTLSFlag

  /**
   * One configOption. The Go struct's `flagType` field is not set by any
   * table entry and never read, so it is not part of the model; its `usage`
   * help text is kept beside the table, in `Usages`, since only flag
   * registration reads it.
   */
  datatype ConfigOption = ConfigOption(
    name: string,
    envVar: string,
    flagDefault: Default,
    required: bool,
    customSetValue: Option<Setter>,
    configKey: Option<Key>)

  /** network.TestNetworkPassphrase, the default network passphrase. */
  const TestNetworkPassphrase: string := "Test SDF Network ; September 2015"

  /**
   * configOpts, in the order of the source table. The help texts are the
   * separate column `Usages`, row for row.
   */
  const ConfigOpts: seq<ConfigOption> := [
    ConfigOption("db-url", "DATABASE_URL", StringDefault(""), true, None, Some(DatabaseURL)),
    ConfigOption("stellar-core-db-url", "STELLAR_CORE_DATABASE_URL", StringDefault(""), true, None, Some(StellarCoreDatabaseURL)),
    ConfigOption("stellar-core-url", "", StringDefault(""), true, None, Some(StellarCoreURL)),
    ConfigOption("port", "", IntDefault(8000), false, None, Some(Port)),
    ConfigOption("max-db-connections", "", IntDefault(20), false, None, Some(MaxDBConnections)),
    ConfigOption("sse-update-frequency", "", IntDefault(5), false, Some(SetDuration), Some(SSEUpdateFrequency)),
    ConfigOption("connection-timeout", "", IntDefault(55), false, Some(SetDuration), Some(ConnectionTimeout)),
    ConfigOption("per-hour-rate-limit", "", IntDefault(3600), false, Some(SetRateLimit), Some(RateLimit)),
    ConfigOption("rate-limit-redis-key", "", StringDefault(""), false, None, Some(RateLimitRedisKey)),
    ConfigOption("redis-url", "", StringDefault(""), false, None, Some(RedisURL)),
    ConfigOption("friendbot-url", "", StringDefault(""), false, Some(SetURL), Some(FriendbotURL)),
    ConfigOption("log-level", "", StringDefault("info"), false, Some(SetLogLevel), Some(LogLevel)),
    ConfigOption("log-file", "", StringDefault(""), false, Some(SetLogFile), Some(LogFile)),
    ConfigOption("max-path-length", "", UintDefault(4), false, None, Some(MaxPathLength)),
    ConfigOption("network-passphrase", "", StringDefault(TestNetworkPassphrase), true, None, Some(NetworkPassphrase)),
    ConfigOption("sentry-dsn", "", StringDefault(""), false, None, Some(SentryDSN)),
    ConfigOption("loggly-token", "", StringDefault(""), false, None, Some(LogglyToken)),
    ConfigOption("loggly-tag", "", StringDefault("horizon"), false, None, Some(LogglyTag)),
    ConfigOption("tls-cert", "", StringDefault(""), false, Some(IncrementTLSFlag), Some(TLSCert)),
    ConfigOption("tls-key", "", StringDefault(""), false, Some(IncrementTLSFlag), Some(TLSKey)),
    ConfigOption("ingest", "", BoolDefault(false), false, None, Some(Ingest)),
    ConfigOption("history-retention-count", "", UintDefault(0), false, None, Some(HistoryRetentionCount)),
    ConfigOption("history-stale-threshold", "", UintDefault(0), false, None, Some(StaleThreshold)),
    ConfigOption("skip-cursor-update", "", BoolDefault(false), false, None, Some(SkipCursorUpdate)),
    ConfigOption("enable-asset-stats", "", BoolDefault(false), false, None, Some(EnableAssetStats))]

  /** The usage column of configOpts: Usages[i] is the help text of ConfigOpts[i]. */
  const Usages: seq<string> := [
    "horizon postgres database to connect with",
    "stellar-core postgres database to connect with",
    "stellar-core to connect with (for http commands)",
    "tcp port to listen on for http requests",
    "max db connections (per DB), may need to be increased when responses are slow but DB CPU is normal",
    "defines how often streams should check if there's a new ledger (in seconds), may need to increase in case of big number of streams",
    "defines the timeout of connection after which 504 response will be sent or stream will be closed, if Horizon is behind a load balancer with idle connection timeout, this should be set to a few seconds less that idle timeout",
    "max count of requests allowed in a one hour period, by remote ip address",
    "redis key for storing rate limit data, useful when deploying a cluster of Horizons, ignored when redis-url is empty",
    "redis to connect with, for rate limiting",
    "friendbot service to redirect to",
    "minimum log severity (debug, info, warn, error) to log",
    "Name of the file where logs will be saved (leave empty to send logs to stdout)",
    "the maximum number of assets on the path in `/paths` endpoint",
    "Override the network passphrase",
    "Sentry URL to which panics and errors should be reported",
    "Loggly token, used to configure log forwarding to loggly",
    "Tag to be added to every loggly log event",
    "TLS certificate file to use for securing connections to horizon",
    "TLS private key file to use for securing connections to horizon",
    "causes this horizon process to ingest data from stellar-core into horizon's db",
    "the minimum number of ledgers to maintain within horizon's history tables.  0 signifies an unlimited number of ledgers will be retained",
    "the maximum number of ledgers the history db is allowed to be out of date from the connected stellar-core db before horizon considers history stale",
    "causes the ingester to skip reporting the last imported ledger state to stellar-core",
    "enables asset stats during the ingestion and expose `/assets` endpoint,  Enabling it has a negative impact on CPU"]

  /** The kinds of persistent flag the flag layer offers (stringFlag, intFlag, boolFlag, uintFlag). */
  datatype FlagKind = StringFlag | IntFlag | BoolFlag | UintFlag

  /** A registered flag: its name, kind, default and help text. */
  datatype Flag = Flag(name: string, kind: FlagKind, default: Default, usage: string)

  /** setFlag's choice of flag kind, by the default's dynamic type. */
  function FlagKindOf(d: Default): FlagKind {
    match d
    case StringDefault(_) => StringFlag
    case IntDefault(_) => IntFlag
    case BoolDefault(_) => BoolFlag
    case UintDefault(_) => UintFlag
  }

  /** An environment binding made with viper.BindEnv(name, envVar). */
  datatype EnvBinding = EnvBinding(name: string, envVar: string)

  function UpperAscii(ch: char): char {
    if 'a' <= ch <= 'z' then (ch as int - 'a' as int + 'A' as int) as char else ch
  }

  /**
   * strutils.KebabToConstantCase: upper-case the name and turn every '-'
   * into '_' ("stellar-core-url" becomes "STELLAR_CORE_URL"). Only ASCII
   * letters are upper-cased here.
   */
  function KebabToConstantCase(s: string): (r: string)
    ensures |r| == |s|
    ensures forall i :: 0 <= i < |s| ==> r[i] == (if s[i] == '-' then '_' else UpperAscii(s[i]))
    ensures forall i :: 0 <= i < |r| ==> r[i] != '-' && !('a' <= r[i] <= 'z')
  {
    if s == [] then [] else [if s[0] == '-' then '_' else UpperAscii(s[0])] + KebabToConstantCase(s[1..])
  }

  /** The envVar an option has once init has run: the given one, else the name in constant case. */
  function DerivedEnvVar(co: ConfigOption): (r: string)
  {
    if co.envVar == "" then KebabToConstantCase(co.name) else co.envVar
  }

  /** The binding init makes for one option: only for an option whose envVar it derived. */
  function BindingOf(co: ConfigOption): (r: seq<EnvBinding>)
  {
    if co.envVar == "" then [EnvBinding(co.name, KebabToConstantCase(co.name))] else []
  }

  /** The bindings init makes, in table order. */
  function EnvBindingsOf(opts: seq<ConfigOption>): (r: seq<EnvBinding>)
  {
    if opts == [] then [] else EnvBindingsOf(opts[..|opts| - 1]) + BindingOf(opts[|opts| - 1])
  }

  /** The flag setFlag registers for an option with help text `usage`. */
  function FlagOf(co: ConfigOption, usage: string): Flag {
    Flag(co.name, FlagKindOf(co.flagDefault), co.flagDefault, usage)
  }

  /** The table once init has filled in every empty envVar (main.go:232-235). */
  function WithDerivedEnvVars(opts: seq<ConfigOption>): (r: seq<ConfigOption>)
    ensures |r| == |opts|
  {
    seq(|opts|, i requires 0 <= i < |opts| => opts[i].(envVar := DerivedEnvVar(opts[i])))
  }

  /** The flags init registers, one per option, in table order (main.go:238). */
  function FlagsOf(opts: seq<ConfigOption>, usages: seq<string>): (r: seq<Flag>)
    requires |usages| == |opts|
    ensures |r| == |opts|
  {
    seq(|opts|, i requires 0 <= i < |opts| => FlagOf(opts[i], usages[i]))
  }
}
