# Horizon start-up configuration, modelled in Dafny

This project models how the Horizon server of stellar-go resolves its configuration at
process start (`services/horizon/main.go`). It also models the account-thresholds adapter
(`services/horizon/internal/resourceadapter/account_thresholds.go`).

The configuration core is a small interpreter over a table of option descriptors
(`configOption`). It has two phases:

- **init.** For every option, init fills in a missing environment-variable name from the
  option's name and binds the two. Then it registers a persistent flag of the kind the
  option's default calls for.
- **initConfig.** First it checks that every required option has a value. Next it refuses
  to start while schema migrations are pending, up or down. Then it runs each option's
  setter, a plain type-directed store or a custom transform, which writes through the
  option's pointer into the package config `c`. After that it re-checks the log level,
  validates the TLS pair and opens the log file. Last it re-checks the cert/key pair and the
  friendbot URL, rebuilds the rate-limit quota, and assembles the final `horizon.Config` literal.

Every `log.Fatal` is modelled as an exit with its cause. So are `os.Exit(1)` and the
runtime panic of a failed interface conversion.

Layout:

- `Resolve` gives the semantics. It is pure: each Go function is a step from the package
  state to the next state or to an exit.
- `HorizonMain.Horizon` is the package state as a class. Its methods change `c`,
  `tlsProvided`, the logger, the option array, the registered flags and the environment
  bindings, step by step. Each method is proved to carry out the matching `Resolve`
  function, or the `Options` function for init.
- `ResolveProperties`, `Agreement`, `TableProperties` and `EnvironmentProperties` prove
  what the pipeline promises:
  - the failure order;
  - which failures can happen;
  - no panics over the real table with the corrected setURL;
  - that the config the setters build equals the assembled literal;
  - the TLS pair logic;
  - the environment-name derivation.
- `HorizonConfig` models `horizon.Config` as a map from field keys to typed values. An
  option's `configKey` is the key of the field it points to. A Go assertion
  `configKey.(*T)` succeeds exactly when `T` is that field's type.
- `Viper`, `Strconv` and `GoInt` stand in for the flag/environment store, its text
  coercions, and Go's 64-bit integers.

Four facts about the code that the model keeps as they are:

- The `uint` conversion of `max-path-length`, `history-retention-count` and
  `history-stale-threshold` (main.go:90, 349, 357-358) is a plain `uint(...)` cast with no
  range check. A negative value wraps modulo 2^64. `GoInt.ToUint` models that.
- The `require` loop runs first (main.go:261-264) and the migration gates after it
  (main.go:266-279). `ResolveProperties.FailureOrder` states this order.
- `viper.BindEnv` is called only for options whose `envVar` init derives (main.go:232-235).
  So `DATABASE_URL` and `STELLAR_CORE_DATABASE_URL`, which the table gives explicitly, are
  never bound (`EnvironmentProperties.ExplicitNotBound`). The `Viper.Store` a caller passes
  in must reflect that.
- `initConfig` ends in an unconditional `log.Fatal` (see Findings).

## Model

| member | source | states |
|---|---|---|
| GoInt.Wrap64 | services/horizon/main.go:341-342 | the result is the int64 congruent to x modulo 2^64, and x itself when x fits |
| GoInt.ToUint | services/horizon/main.go:90 | `uint(i)` on 64 bits: non-negative values are kept, negative ones wrap to i + 2^64 |
| GoInt.ToInt | services/horizon/main.go:90 | the inverse conversion, wrapping values above MaxInt64 |
| GoInt.ToUintToInt | services/horizon/main.go:90 | converting int64 to uint64 and back gives the original value |
| GoInt.ToIntToUint | services/horizon/main.go:90 | converting uint64 to int64 and back gives the original value |
| Strconv.NatDigitsRoundTrip | services/horizon/main.go:86 | decimal digits of n read back as n (by induction) |
| Strconv.FormatIntRoundTrip | services/horizon/main.go:86 | an integer written as decimal text parses back to itself |
| Strconv.ParseBool | services/horizon/main.go:88 | exactly "1", "t", "T", "TRUE", "true", "True" are true and "0", "f", "F", "FALSE", "false", "False" are false |
| Strconv.FormatBoolRoundTrip | services/horizon/main.go:88 | a boolean written as text parses back to itself |
| Viper.GetString | services/horizon/main.go:62 | an unset name reads as ""; a string value reads as itself; any other set value reads as non-empty text |
| Viper.GetInt | services/horizon/main.go:86 | an unset name reads as 0; an int value reads as itself |
| Viper.GetBool | services/horizon/main.go:88 | an unset name reads as false; a bool value reads as itself |
| Viper.IntFromText | services/horizon/main.go:86 | an environment text holding a formatted int64 reads back as that int64 |
| Viper.BoolFromText | services/horizon/main.go:88 | an environment text holding a formatted bool reads back as that bool |
| HorizonConfig.ZeroConfig | services/horizon/main.go:22-23 | the zero horizon.Config: every field present, holding its type's zero value |
| HorizonConfig.Seconds | services/horizon/main.go:111 | n seconds as a time.Duration: exactly n * 10^9 when that fits in int64, and congruent to it modulo 2^64 otherwise |
| HorizonConfig.RateQuotaFor | services/horizon/main.go:326-333 | 0 means no limit; any other n is n per hour with burst 100 |
| Options.KebabToConstantCase | services/horizon/main.go:233 | same length; each '-' becomes '_' and each ASCII letter is upper-cased; the result has no '-' and no lower-case letter |
| Options.FlagKindOf | services/horizon/main.go:96-107 | no contract of its own: setFlag's choice of stringFlag, intFlag, boolFlag or uintFlag by the default's type; Horizon.SetFlag carries it out |
| Options.FlagOf | services/horizon/main.go:96-107 | no contract of its own: the flag setFlag registers, with the option's name, default and help text; Horizon.SetFlag appends it |
| Options.DerivedEnvVar | services/horizon/main.go:232-233 | no contract of its own: a given envVar, else the constant-case name; BindingOfShape and DerivedEnvVarStable state its properties |
| Options.BindingOf | services/horizon/main.go:232-235 | no contract of its own: the BindEnv call of one pass; BindingOfShape states that it binds exactly an empty envVar, once, to the derived name |
| Options.EnvBindingsOf | services/horizon/main.go:228-239 | no contract of its own: init's bindings in table order; EnvBindingsBound and EnvBindingsMembership state which ones there are |
| Options.WithDerivedEnvVars | services/horizon/main.go:228-239 | the table keeps its length (what changes is WithDerivedEnvVarsKeeps) |
| Options.FlagsOf | services/horizon/main.go:228-239 | one flag per option (their order and contents are FlagsOfOrder) |
| Resolve.ExitCode | services/horizon/main.go:119-122 | log.Fatal and os.Exit(1) end with status 1; a failed interface conversion panics with status 2 |
| Resolve.Initial | services/horizon/main.go:22-27 | the process starts with the zero config (`ZeroConfig()`, well typed), tlsProvided = 0, and the logger's level and output not yet set |
| Resolve.Require | services/horizon/main.go:61-65 | fails exactly for a required option whose value reads as "", reporting its name and envVar |
| Resolve.Write | services/horizon/main.go:84 | a store through `configKey.(*T)` succeeds exactly when the key names a field of type T, and changes only that field; otherwise it panics with that key and T |
| Resolve.SimpleValue | services/horizon/main.go:82-91 | the value read for each default type: string, int, bool, and the unchecked uint cast |
| Resolve.SetSimpleValue | services/horizon/main.go:80-93 | no key means no change; with a key it continues exactly when the field has the default's type, and then writes SimpleValue into that field and nothing else; otherwise it panics asserting the default's type |
| Resolve.SetDuration | services/horizon/main.go:110-112 | continues exactly when the key names a Duration field |
| Resolve.SetURL | services/horizon/main.go:115-124 | the corrected setURL: "" leaves the state unchanged; text that does not parse exits with BadURL (the store of the parsed pointer is SetURLStores) |
| Resolve.SetURLAsWritten | services/horizon/main.go:115-124 | setURL as written: "" leaves the state unchanged (the panic on a parsed URL is SetURLAsWrittenPanics) |
| Resolve.SetLogLevel | services/horizon/main.go:127-134 | an unparsable level exits with BadLogLevel; a parsed one becomes the default logger's level |
| Resolve.SetLogFile | services/horizon/main.go:137-148 | it reads "log-file": "" leaves the state unchanged; a file that cannot be opened exits with LogFileFailed; an opened one becomes the logger output |
| Resolve.SetRateLimit | services/horizon/main.go:151-161 | 0 leaves the state unchanged (the stored quota is SetRateLimitStores) |
| Resolve.IncrementTLSFlag | services/horizon/main.go:164-170 | "" leaves the state unchanged; a set value adds one to tlsProvided |
| Resolve.ValidateTLS | services/horizon/main.go:173-177 | fails exactly when the counter is 1 |
| Resolve.SetValue | services/horizon/main.go:68-77 | a custom setter wins; otherwise a configKey gets a simple store; otherwise nothing happens |
| Resolve.RunSetter | services/horizon/main.go:70-72 | no contract of its own: the custom setter's call, dispatching to the setter the option names; SetterPanics and SetValueWrites state what it does |
| Resolve.RequireAll | services/horizon/main.go:261-264 | a failure of the require loop is always MissingRequired (which option it reports is RequireAllReportsFirst) |
| Resolve.SetValues | services/horizon/main.go:282-285 | no contract of its own: the setter loop, stopping at the first exit; SetValuesFailures, SetValuesEffect and SetValuesAccepted state its properties |
| Resolve.CheckTLSPair | services/horizon/main.go:307-313 | passes exactly when cert and key are both set or both empty; reports the key missing exactly when only the cert is set |
| Resolve.AssembledField | services/horizon/main.go:335-361 | each field of the literal has its declared type |
| Resolve.Assemble | services/horizon/main.go:335-361 | the literal is well typed and holds every field as AssembledField gives it |
| Resolve.Finish | services/horizon/main.go:286-361 | the staged checks leave `c` and the counter unchanged; a completed assembly is well typed (their order is FinishOrder) |
| Resolve.InitConfig | services/horizon/main.go:259-361 | an assembled config is well typed and was reached only past the required checks and both migration gates; the order of the exits is FailureOrder and FinishOrder |
| Resolve.SetValueAsWritten | services/horizon/main.go:68-77 | setValue as written: it is the corrected SetValue except for a setURL option whose text is non-empty and parses |
| Resolve.SetValuesAsWritten | services/horizon/main.go:282-285 | no contract of its own: the setter loop with setURL as written; SetValuesAsWrittenAgrees and SetValuesAsWrittenPanicsAt state its properties |
| Resolve.InitConfigAsWritten | services/horizon/main.go:259-391 | initConfig as written, with setURL as written in its setter loop and log.Fatal after the assembly, always ends in an exit |
| ResolveProperties.RequireAllPasses | services/horizon/main.go:261-264 | the require loop passes exactly when every option passes, and fails only with MissingRequired |
| ResolveProperties.RequireAllReportsFirst | services/horizon/main.go:261-264 | the loop reports the first missing option |
| ResolveProperties.FailureOrder | services/horizon/main.go:259-285 | required checks, then the up gate (whatever the down count), then the down gate, then the setters' exits |
| ResolveProperties.SetValuesFailures | services/horizon/main.go:282-285 | the setter loop exits only for BadURL, BadLogLevel, LogFileFailed or a panic |
| ResolveProperties.SetValueWrites | services/horizon/main.go:68-170 | a setter that continues changes only its own field, to a value independent of the prior state, and only a TLS setter moves the counter |
| ResolveProperties.SetValuesEffect | services/horizon/main.go:282-285 | after the setter loop, each field is FieldAfter of its start value and the counter has grown by TLSCount |
| ResolveProperties.FieldAfterUntouched | services/horizon/main.go:282-285 | a field no option points to keeps its value |
| ResolveProperties.FieldAfterOwner | services/horizon/main.go:282-285 | a field exactly one option points to ends with what that setter wrote, or its start value |
| ResolveProperties.TLSCountNone | services/horizon/main.go:164-170 | without TLS setters the counter does not move |
| ResolveProperties.TLSCountSplit | services/horizon/main.go:164-170 | TLS counts add up over concatenated tables |
| ResolveProperties.TLSCountPair | services/horizon/main.go:164-170 | with one adjacent pair of TLS setters, only that pair counts |
| ResolveProperties.TLSValidation | services/horizon/main.go:173-177 | with the pair, validateTLS fails exactly when one of tls-cert and tls-key is set and the other is empty |
| ResolveProperties.PairCheckUnreachable | services/horizon/main.go:307-313 | the second cert/key check never fires |
| ResolveProperties.SetValueAccepts | services/horizon/main.go:115-148 | a setter that continued passed its own URL, level or file validation |
| ResolveProperties.SetValuesAccepted | services/horizon/main.go:282-285 | after the loop, every option passed its own validation |
| ResolveProperties.SetURLAsWrittenPanics | services/horizon/main.go:122 | as written, a URL field and a parsable non-empty value always panic, with status 2 |
| ResolveProperties.SetURLStores | services/horizon/main.go:115-124 | corrected, the same input stores the parsed pointer and continues |
| ResolveProperties.SetDurationStores | services/horizon/main.go:110-112 | a Duration field gets n seconds, exactly n * 10^9 ns in range |
| ResolveProperties.SetRateLimitStores | services/horizon/main.go:151-161 | a quota field is left alone for 0 and otherwise gets n per hour with burst 100 |
| ResolveProperties.SetValuesAsWrittenAgrees | services/horizon/main.go:282-285 | over options none of which stores a parsed URL, the setter loop as written is the corrected one (by induction) |
| ResolveProperties.SetValuesAsWrittenPanicsAt | services/horizon/main.go:122 | as written, the first option storing a parsed URL into a `*url.URL` field panics with that key, unless an option before it has already stopped the loop |
| ResolveProperties.InitConfigAsWrittenHalts | services/horizon/main.go:259-391 | as written, over options none of which stores a parsed URL, every run that assembles the config exits with DiedHere and every other run ends as the corrected pipeline does |
| ResolveProperties.FinishOrder | services/horizon/main.go:286-361 | the staged checks in order: a bad log level, then a half TLS pair at validateTLS, then a log file that does not open, then the cert/key pair, then a bad friendbot URL; the config is assembled exactly when all pass, with the parsed level and the log file as output |
| Agreement.SetterFor | services/horizon/main.go:188-202 | the custom setters store values of the field's type; plain fields need no setter |
| Agreement.SetterPanics | services/horizon/main.go:110-170 | a custom setter panics only when its key is not a field of the type it stores |
| Agreement.ConfiguredNeverPanics | services/horizon/main.go:68-77 | an option that agrees with the literal never panics |
| Agreement.AgreeingNeverPanics | services/horizon/main.go:282-285 | over agreeing options the setter loop exits only for BadURL, BadLogLevel or LogFileFailed (by induction) |
| Agreement.AgreesConfigured | services/horizon/main.go:182-208 | every option of an agreeing table configures its own key |
| Agreement.WrittenMatchesAssembly | services/horizon/main.go:335-361 | an agreeing option writes exactly the literal's value for its field |
| Agreement.PlainDefaultRead | services/horizon/main.go:82-91 | a simple store reads the value by the default's type |
| Agreement.PlainFieldRead | services/horizon/main.go:335-361 | the literal reads a plain field by its type, under the option name |
| Agreement.AgreeingOwner | services/horizon/main.go:182-208 | in an agreeing table, field k is owned by the option at KeyIndex(k) and by no other |
| Agreement.FieldBuilt | services/horizon/main.go:282-285 | after the setters, each field holds the literal's value |
| Agreement.SetValuesBuildAssembly | services/horizon/main.go:282-361 | after the setters, `c` equals the assembled literal |
| Agreement.FinishAssembles | services/horizon/main.go:286-361 | a completed Finish parsed the level and assembled from the store |
| Agreement.SettersBuildAssembledConfig | services/horizon/main.go:259-361 | when initConfig completes from the zero config, `config` equals `c` |
| Agreement.AgreeingTLSPair | services/horizon/main.go:201-202 | an agreeing table's only TLS setters are tls-cert and tls-key, adjacent |
| Agreement.OwnerAccepted | services/horizon/main.go:282-285 | after the loop, the owner of field k agrees and passed its validation |
| Agreement.LevelRecheckPasses | services/horizon/main.go:287-291 | after the setters, the log level always parses |
| Agreement.LogFileRecheckPasses | services/horizon/main.go:296-304 | after the setters, a given log file always opens |
| Agreement.FriendbotRecheckPasses | services/horizon/main.go:316-323 | after the setters, a given friendbot URL always parses |
| Agreement.AgreeingOutcomes | services/horizon/main.go:259-361 | an agreeing table exits only for missing options, migrations, a half TLS pair or a setter's validation, always with status 1 |
| Agreement.AgreeingURLOwner | services/horizon/main.go:193 | in an agreeing table, the friendbot-url option is the only one that uses setURL |
| Agreement.QuietOptionContinues | services/horizon/main.go:68-170 | an agreeing option whose setter is not setURL, setLogLevel or setLogFile always continues |
| Agreement.QuietExitPanics | services/horizon/main.go:68-170 | a setter other than setURL, setLogLevel and setLogFile can stop the process only by a panic |
| Agreement.QuietContinues | services/horizon/main.go:282-285 | a run of such options never stops the setter loop (by induction) |
| Agreement.AgreeingBeforeFriendbot | services/horizon/main.go:183-192 | in an agreeing table, the options before friendbot-url never stop the setter loop |
| Agreement.AgreeingAsWrittenPanics | services/horizon/main.go:122 | as written, the setter loop over an agreeing table with a friendbot-url that parses always ends in the panic of `InterfaceConversion(Some(FriendbotURL), URLT)` |
| Agreement.AgreesAfterInit | services/horizon/main.go:232-235 | init's envVar rewrite keeps a table agreeing |
| TableProperties.TableAgrees | services/horizon/main.go:182-208 | the real table, the constant `Options.ConfigOpts`, agrees with the literal: one option per field, in order |
| TableProperties.TableAgreesFrom0 | services/horizon/main.go:183-187 | rows 0-4 agree |
| TableProperties.TableAgreesFrom5 | services/horizon/main.go:188-192 | rows 5-9 agree |
| TableProperties.TableAgreesFrom10 | services/horizon/main.go:193-197 | rows 10-14 agree |
| TableProperties.TableAgreesFrom15 | services/horizon/main.go:198-202 | rows 15-19 agree |
| TableProperties.TableAgreesFrom20 | services/horizon/main.go:203-205 | rows 20-22 agree |
| TableProperties.TableAgreesFrom23 | services/horizon/main.go:206-207 | rows 23-24 agree |
| TableProperties.InitializedAgrees | services/horizon/main.go:228-235 | the table after init still agrees |
| TableProperties.TableTLSValidation | services/horizon/main.go:173-177 | with the real table, validateTLS fails exactly for a half-configured pair |
| TableProperties.TablePairCheckUnreachable | services/horizon/main.go:307-313 | with the real table, the second pair check never fires |
| TableProperties.TableSettersBuildConfig | services/horizon/main.go:335-361 | with the real table, a completed initConfig has `config` equal to `c` |
| TableProperties.TableOutcomes | services/horizon/main.go:259-361 | with the real table, every exit is a reachable one, with status 1 |
| TableProperties.TableFriendbotAsWrittenPanics | services/horizon/main.go:193 | as written, friendbot-url panics for every parsable non-empty value |
| TableProperties.TableFriendbotStores | services/horizon/main.go:193 | corrected, friendbot-url stores the parsed pointer |
| TableProperties.TableEnvVars | services/horizon/main.go:183-207 | only db-url and stellar-core-db-url give an envVar, DATABASE_URL and STELLAR_CORE_DATABASE_URL |
| TableProperties.TableAsWrittenPanics | services/horizon/main.go:259-285 | as written, past the required checks and both gates, a friendbot-url that parses ends in the panic of `InterfaceConversion(Some(FriendbotURL), URLT)` |
| TableProperties.TableAsWrittenHalts | services/horizon/main.go:259-391 | as written, without a friendbot-url that parses, a run that assembles the config ends with DiedHere and every other run ends as the corrected one |
| TableProperties.TableAsWrittenNeverServes | services/horizon/main.go:259-391 | as written, initConfig over the table never returns: it exits with status 2 exactly when it gets past the gates with a friendbot-url that parses, and with status 1 otherwise |
| EnvironmentProperties.KebabIdempotent | services/horizon/main.go:233 | constant case of constant case changes nothing |
| EnvironmentProperties.DerivedEnvVarStable | services/horizon/main.go:232-235 | a derived envVar is non-empty and deriving again keeps it |
| EnvironmentProperties.EnvBindingsMembership | services/horizon/main.go:232-235 | a binding is made exactly for each option with an empty envVar, to its constant-case name (by induction) |
| EnvironmentProperties.BindingsMatchEnvVars | services/horizon/main.go:234 | each binding pairs an option's name with its envVar after init |
| EnvironmentProperties.ExplicitNotBound | services/horizon/main.go:232-235 | an option given an explicit envVar is never bound |
| EnvironmentProperties.DerivedTableStable | services/horizon/main.go:228-239 | running the rewrite twice is the same as once |
| EnvironmentProperties.FlagsSnoc | services/horizon/main.go:238 | the flags of a longer prefix add that option's flag |
| EnvironmentProperties.EnvBindingsSnoc | services/horizon/main.go:234 | the bindings of a longer prefix add that option's binding |
| EnvironmentProperties.WithDerivedEnvVarsKeeps | services/horizon/main.go:228-239 | init changes only the envVars of the table, and keeps every envVar already given |
| EnvironmentProperties.FlagsOfOrder | services/horizon/main.go:228-239 | one flag per option, in table order, with the option's name, default and help text |
| EnvironmentProperties.BindingOfShape | services/horizon/main.go:232-235 | a given envVar is kept; an option is bound exactly when its envVar is empty, once, to its name and the derived envVar |
| EnvironmentProperties.EnvBindingsBound | services/horizon/main.go:228-239 | init makes at most one binding per option (by induction) |
| HorizonMain.Horizon.constructor | services/horizon/main.go:22-27 | the package variables at start: the option table, zero configs, counter 0, nothing registered |
| HorizonMain.Horizon.Assign | services/horizon/main.go:84 | the store through a configKey is Resolve.Write |
| HorizonMain.Horizon.Require | services/horizon/main.go:61-65 | carries out Resolve.Require |
| HorizonMain.Horizon.SetSimpleValue | services/horizon/main.go:80-93 | carries out Resolve.SetSimpleValue; config, flags and bindings unchanged |
| HorizonMain.Horizon.SetDuration | services/horizon/main.go:110-112 | carries out Resolve.SetDuration |
| HorizonMain.Horizon.SetURL | services/horizon/main.go:115-124 | carries out the corrected Resolve.SetURL |
| HorizonMain.Horizon.SetLogLevel | services/horizon/main.go:127-134 | carries out Resolve.SetLogLevel |
| HorizonMain.Horizon.SetLogFile | services/horizon/main.go:137-148 | carries out Resolve.SetLogFile |
| HorizonMain.Horizon.SetRateLimit | services/horizon/main.go:151-161 | carries out Resolve.SetRateLimit |
| HorizonMain.Horizon.IncrementTLSFlag | services/horizon/main.go:164-170 | carries out Resolve.IncrementTLSFlag |
| HorizonMain.Horizon.SetValue | services/horizon/main.go:68-77 | carries out Resolve.SetValue |
| HorizonMain.Horizon.SetFlag | services/horizon/main.go:96-107 | appends the option's flag, of its default's kind, with its help text; nothing else changes |
| HorizonMain.Horizon.InitOption | services/horizon/main.go:229-238 | one pass of init's loop: only this option's envVar is derived, its binding and its flag are appended |
| HorizonMain.Horizon.Init | services/horizon/main.go:228-239 | the table becomes WithDerivedEnvVars of the old one; the bindings are EnvBindingsOf it; the flags are FlagsOf it; the config state is unchanged |
| HorizonMain.Horizon.RequireAll | services/horizon/main.go:261-264 | the loop returns Resolve.RequireAll of the table, the first failure |
| HorizonMain.Horizon.SetValues | services/horizon/main.go:282-285 | the loop carries out Resolve.SetValues of the table |
| HorizonMain.Horizon.Finish | services/horizon/main.go:286-361 | the staged checks and the assembly carry out Resolve.Finish; on an exit, config is unchanged |
| HorizonMain.Horizon.InitConfig | services/horizon/main.go:259-361 | carries out Resolve.InitConfig up to the assembly |
| HorizonMain.Horizon.SetURLAsWritten | services/horizon/main.go:115-124 | carries out Resolve.SetURLAsWritten |
| HorizonMain.Horizon.SetValueAsWritten | services/horizon/main.go:68-77 | carries out Resolve.SetValueAsWritten |
| HorizonMain.Horizon.SetValuesAsWritten | services/horizon/main.go:282-285 | the loop carries out Resolve.SetValuesAsWritten of the table |
| HorizonMain.Horizon.InitConfigAsWritten | services/horizon/main.go:259-391 | always exits, carrying out Resolve.InitConfigAsWritten |
| HorizonMain.Start | services/horizon/main.go:228-361 | init and then initConfig over an agreeing table: the flags and bindings are init's; reachable exits only, with status 1; on success `config` equals `c` |
| HorizonMain.Boot | services/horizon/main.go:182-208 | Start over the real table |
| ResourceAdapter.Populated | services/horizon/internal/resourceadapter/account_thresholds.go:9-11 | the master weight followed by the three levels rebuilds the row's threshold array |
| ResourceAdapter.PopulateAccountThresholds | services/horizon/internal/resourceadapter/account_thresholds.go:8-12 | dest's low, med and high become bytes 1, 2 and 3, whatever dest held before |
| ResourceAdapter.PopulatedIgnoresMasterWeight | services/horizon/internal/resourceadapter/account_thresholds.go:8-12 | byte 0 and the row's other fields do not affect the result |
| ResourceAdapter.PopulatedInjective | services/horizon/internal/resourceadapter/account_thresholds.go:9-11 | two rows give the same result exactly when bytes 1-3 agree |
| ResourceAdapter.PopulateTwice | services/horizon/internal/resourceadapter/account_thresholds.go:8-12 | populating twice from a row equals populating once |

## Left out

- The flag/environment precedence of cobra/pflag/viper is not modelled. A caller supplies the resolved `Viper.Store`. The getters model spf13/cast's coercion for decimal integers and for `strconv.ParseBool` text only.
- `viper.SetDefault` for port and history-retention-count (main.go:215-216), and `viper.BindPFlags` (main.go:243), are folded into that store.
- url.Parse, logrus.ParseLevel and os.OpenFile are foreign calls. They are parameters in `Resolve.Externals`. The open file itself is not modelled; only its name becomes the logger output.
- The schema-migration queries are foreign calls. `up` and `down` stand for their results. Only the migration count goes into the failure; the list of migrations does not.
- All diagnostic text: the stdLog messages, the debug Printf dumps of main.go:364-389, and the version string. A failure is a `Resolve.Failure` value.
- The cobra root command, `dbCmd`, `initApp` and `app.Serve`: these are server start-up code, not configuration.
- `configOption.flagType` is not stored; `Options.FlagKindOf` derives the flag kind from the default's type. The help text is kept in a parallel column, `Options.Usages`, instead of a `usage` field of each option.
- Agreement.LogFileRecheckPasses: the file system does not change between the two opens of the log file (main.go:140 and main.go:298). `Externals.canOpen` is one fixed predicate, so a file that opened in setLogFile opens again, and the lemma holds only under that assumption. The same holds for `AgreeingOutcomes`, `TableOutcomes`, `Start` and `Boot`, which use it.
- Agreement.SettersBuildAssembledConfig: `*url.URL` and `*throttled.RateQuota` fields are modelled as the values they point to (`URLPtr`, `RateQuotaPtr`). So "`config` equals `c`" means equal field by field, with pointees compared by value. Go's `==` on the two structs would compare the pointers, which are distinct. The same holds for `TableSettersBuildConfig`, `Start` and `Boot`.
- HorizonMain.Boot: takes the help texts as a parameter of matching length, not as `Options.Usages` itself.
- A default of a type other than string, int, bool or uint cannot be written (`Options.Default` has four cases). So the fall-through of the type switches at main.go:82-91 and main.go:97-106 is not modelled.
- Options.KebabToConstantCase: strutils is not part of this model. The stand-in turns each `-` into `_` and upper-cases ASCII letters only.
- The default logger is reduced to its level and the name of its output file (`loggerLevel`, `logOutput`).
- `throttled.PerHour` is kept as the per-hour count inside `RateQuota`. Its conversion to a rate is not modelled.
- services/horizon/internal/actions_not_implemented.go is not part of this model.
- ResourceAdapter.PopulateAccountThresholds: protocols/horizon is not part of this model. `AccountThresholds` is taken to have exactly these three byte fields. The core account row is reduced to an account ID, a balance and the threshold array.

## Findings

| source | as written | input that shows it | evidently intended | confidence | as-written member | corrected member |
|---|---|---|---|---|---|---|
| services/horizon/main.go:122 | `*(co.configKey.(*url.URL)) = *urlType` | friendbot-url set to any text that url.Parse accepts. The option's key is `&c.FriendbotURL`, a `**url.URL`, so the assertion panics with exit status 2. | store the parsed `*url.URL` in the field, as the assembly at main.go:346 does | high, not executed | ResolveProperties.SetURLAsWrittenPanics | ResolveProperties.SetURLStores |
| services/horizon/main.go:391 | `stdLog.Fatal("Died here")` after the assembly | any store that passes every check and has no friendbot-url that parses; the process still exits with status 1 and never serves | return after assigning `config`; main.go:363 marks the dump as "for testing purposes only" | high, not executed | TableProperties.TableAsWrittenHalts | TableProperties.TableSettersBuildConfig |

The pipeline (`Resolve.InitConfig`, `HorizonMain.Horizon.InitConfig`, `HorizonMain.Start`)
uses the corrected setURL and stops at the assembly. `Resolve.InitConfigAsWritten` and
`HorizonMain.Horizon.InitConfigAsWritten` keep the code as written: their setter loop uses
`Resolve.SetURLAsWritten`, and they end at the `log.Fatal` of main.go:391.
`TableProperties.TableAsWrittenNeverServes` combines the two findings: as written, a
friendbot-url that parses ends the run in the panic once the required checks and both
migration gates pass; every other run ends with status 1.
