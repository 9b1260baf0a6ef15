/**
 * horizon.Config, the aggregate the resolver writes. Each field is named by
 * a `Key`; an option's `configKey` is a pointer to one field, so it is
 * modelled as an optional `Key`. The Go types of the fields are those the
 * assembly at the end of initConfig gives them (main.go:335-361), and a write
 * through `configKey.(*T)` succeeds only when `T` is the field's type.
 */
module HorizonConfig {
  import opened Wrappers
  import opened GoInt

  datatype Key =
    | DatabaseURL | StellarCoreDatabaseURL | StellarCoreURL | Port | MaxDBConnections
    | SSEUpdateFrequency | ConnectionTimeout | RateLimit | RateLimitRedisKey | RedisURL
    | FriendbotURL | LogLevel | LogFile | MaxPathLength | NetworkPassphrase
    | SentryDSN | LogglyToken | LogglyTag | TLSCert | TLSKey
    | Ingest | HistoryRetentionCount | StaleThreshold | SkipCursorUpdate | EnableAssetStats

  /** A parsed URL; its structure belongs to net/url. */
  datatype URL = URL(text: string)

  /** logrus severities, in logrus's own order (PanicLevel is the zero value). */
  datatype Level = PanicLevel | FatalLevel | ErrorLevel | WarnLevel | InfoLevel | DebugLevel

  /** throttled.RateQuota: a maximum rate, in requests per hour, and a burst allowance. */
  datatype RateQuota = RateQuota(perHour: Int64, maxBurst: nat)

  /** The burst allowance every configured rate limit gets. */
  const RateLimitBurst: nat := 100

  /** The Go types that occur as field types or as asserted pointer targets. */
  datatype GoType =
    | StringT | IntT | UintT | BoolT | DurationT | RateQuotaPtrT | URLT | URLPtrT | LevelT

  /** A value of one of those types; a `time.Duration` is a count of nanoseconds. */
  datatype Value =
    | StringVal(s: string)
    | IntVal(i: Int64)
    | UintVal(u: Uint64)
    | BoolVal(b: bool)
    | DurationVal(nanos: Int64)
    | RateQuotaPtr(quota: Option<RateQuota>)
    | URLVal(url: URL)
    | URLPtr(ptr: Option<URL>)
    | LevelVal(level: Level)

  function TypeOf(v: Value): GoType {
    match v
    case StringVal(_) => StringT
    case IntVal(_) => IntT
    case UintVal(_) => UintT
    case BoolVal(_) => BoolT
    case DurationVal(_) => DurationT
    case RateQuotaPtr(_) => RateQuotaPtrT
    case URLVal(_) => URLT
    case URLPtr(_) => URLPtrT
    case LevelVal(_) => LevelT
  }

  /** The declared type of each field of horizon.Config. */
  function FieldType(k: Key): GoType {
    match k
    case DatabaseURL => StringT
    case StellarCoreDatabaseURL => StringT
    case StellarCoreURL => StringT
    case Port => IntT
    case MaxDBConnections => IntT
    case SSEUpdateFrequency => DurationT
    case ConnectionTimeout => DurationT
    case RateLimit => RateQuotaPtrT
    case RateLimitRedisKey => StringT
    case RedisURL => StringT
    case FriendbotURL => URLPtrT
    case LogLevel => LevelT
    case LogFile => StringT
    case MaxPathLength => UintT
    case NetworkPassphrase => StringT
    case SentryDSN => StringT
    case LogglyToken => StringT
    case LogglyTag => StringT
    case TLSCert => StringT
    case TLSKey => StringT
    case Ingest => BoolT
    case HistoryRetentionCount => UintT
    case StaleThreshold => UintT
    case SkipCursorUpdate => BoolT
    case EnableAssetStats => BoolT
  }

  /** Go's zero value of a type. */
  function ZeroValue(t: GoType): (v: Value)
    ensures TypeOf(v) == t
  {
    match t
    case StringT => StringVal("")
    case IntT => IntVal(0)
    case UintT => UintVal(0)
    case BoolT => BoolVal(false)
    case DurationT => DurationVal(0)
    case RateQuotaPtrT => RateQuotaPtr(None)
    case URLT => URLVal(URL(""))
    case URLPtrT => URLPtr(None)
    case LevelT => LevelVal(PanicLevel)
  }

  type Fields = map<Key, Value>

  const AllKeys: seq<Key> := [
    DatabaseURL, StellarCoreDatabaseURL, StellarCoreURL, Port, MaxDBConnections,
    SSEUpdateFrequency, ConnectionTimeout, RateLimit, RateLimitRedisKey, RedisURL,
    FriendbotURL, LogLevel, LogFile, MaxPathLength, NetworkPassphrase,
    SentryDSN, LogglyToken, LogglyTag, TLSCert, TLSKey,
    Ingest, HistoryRetentionCount, StaleThreshold, SkipCursorUpdate, EnableAssetStats]

  /** The position of each key in AllKeys. */
  function KeyIndex(k: Key): (i: nat)
    ensures i < |AllKeys| && AllKeys[i] == k
  {
    match k
    case DatabaseURL => 0
    case StellarCoreDatabaseURL => 1
    case StellarCoreURL => 2
    case Port => 3
    case MaxDBConnections => 4
    case SSEUpdateFrequency => 5
    case ConnectionTimeout => 6
    case RateLimit => 7
    case RateLimitRedisKey => 8
    case RedisURL => 9
    case FriendbotURL => 10
    case LogLevel => 11
    case LogFile => 12
    case MaxPathLength => 13
    case NetworkPassphrase => 14
    case SentryDSN => 15
    case LogglyToken => 16
    case LogglyTag => 17
    case TLSCert => 18
    case TLSKey => 19
    case Ingest => 20
    case HistoryRetentionCount => 21
    case StaleThreshold => 22
    case SkipCursorUpdate => 23
    case EnableAssetStats => 24
  }

  /** Every field is present and holds a value of its declared type. */
  predicate WellTyped(c: Fields) {
    forall k: Key :: k in c && TypeOf(c[k]) == FieldType(k)
  }

  /** No key is listed twice in AllKeys. */
  lemma KeyIndexOf(i: nat)
    requires i < |AllKeys|
    ensures KeyIndex(AllKeys[i]) == i
  {
    if i < 5 {
    } else if i < 10 {
    } else if i < 15 {
    } else if i < 20 {
    } else {
    }
  }

  /** Every field of horizon.Config is listed in AllKeys. */
  lemma AllKeysComplete()
    ensures forall k: Key :: k in AllKeys
  {
    forall k: Key
      ensures k in AllKeys
    {
      assert AllKeys[KeyIndex(k)] == k;
    }
  }

  /** The zero horizon.Config: the state of the package variable before any option is set. */
  function ZeroConfig(): (c: Fields)
    ensures WellTyped(c)
    ensures forall k :: k in c && c[k] == ZeroValue(FieldType(k))
  {
    AllKeysComplete();
    map k | k in AllKeys :: ZeroValue(FieldType(k))
  }

  /** The largest whole number of seconds a time.Duration can hold. */
  const MaxSeconds: int := 9_223_372_036

  /** `time.Duration(n) * time.Second`: n seconds in nanoseconds, wrapping as int64 does. */
  function Seconds(n: Int64): (d: Int64)
    ensures -MaxSeconds <= n <= MaxSeconds ==> d == n * 1_000_000_000
    ensures n == 0 ==> d == 0
    ensures (d - n * 1_000_000_000) % TwoTo64 == 0
  {
    Wrap64(n * 1_000_000_000)
  }

  /** The rate limit rule: 0 means no limit; any other n is n requests per hour with burst 100. */
  function RateQuotaFor(perHour: Int64): (q: Option<RateQuota>)
    ensures q.None? <==> perHour == 0
    ensures q.Some? ==> q.value.perHour == perHour && q.value.maxBurst == RateLimitBurst
  {
    if perHour != 0 then Some(RateQuota(perHour, RateLimitBurst)) else None
  }
}
