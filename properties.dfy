/**
 * Properties of the resolution steps that hold for any option table: the
 * first failing required option is the one reported, the migration gates come
 * before every setter, and each setter changes only its own field.
 */
module ResolveProperties {
  import opened Wrappers
  import opened GoInt
  import opened Viper
  import opened HorizonConfig
  import opened Options
  import opened Resolve

  /** All required checks pass exactly when no single option fails its check. */
  lemma {:induction false} RequireAllPasses(opts: seq<ConfigOption>, store: Store)
    ensures RequireAll(opts, store).None? <==> forall i :: 0 <= i < |opts| ==> Require(opts[i], store).None?
    ensures RequireAll(opts, store).Some? ==> RequireAll(opts, store).value.MissingRequired?
  {
    if opts != [] {
      var rest := opts[1..];
      RequireAllPasses(rest, store);
      assert forall i :: 1 <= i < |opts| ==> opts[i] == rest[i - 1];
    }
  }

  /** The failure reported is that of the first option, in table order, whose check fails. */
  lemma {:induction false} RequireAllReportsFirst(opts: seq<ConfigOption>, store: Store, i: nat)
    requires i < |opts| && Require(opts[i], store).Some?
    requires forall j :: 0 <= j < i ==> Require(opts[j], store).None?
    ensures RequireAll(opts, store) == Some(MissingRequired(opts[i].name, opts[i].envVar))
  {
    if i > 0 {
      var rest := opts[1..];
      assert forall j :: 0 <= j < i - 1 ==> rest[j] == opts[j + 1];
      RequireAllReportsFirst(rest, store, i - 1);
    }
  }

  /**
   * Which failure wins in initConfig: a missing required option before either
   * migration gate, the pending-up gate before the pending-down count is
   * consulted, and both gates before any setter has run (the state at exit is
   * the state at entry).
   */
  lemma FailureOrder(opts: seq<ConfigOption>, store: Store, ext: Externals, up: nat, down: nat, s: State)
    ensures RequireAll(opts, store).Some? ==>
              InitConfig(opts, store, ext, up, down, s) == Exited(RequireAll(opts, store).value, s)
    ensures RequireAll(opts, store).None? && up > 0 ==>
              forall down' :: InitConfig(opts, store, ext, up, down', s) == Exited(PendingUpMigrations(up), s)
    ensures RequireAll(opts, store).None? && up == 0 && down > 0 ==>
              InitConfig(opts, store, ext, up, down, s) == Exited(PendingDownMigrations(down), s)
    ensures RequireAll(opts, store).None? && up == 0 && down == 0 && SetValues(opts, store, ext, s).Exit? ==>
              InitConfig(opts, store, ext, up, down, s) ==
              Exited(SetValues(opts, store, ext, s).failure, SetValues(opts, store, ext, s).state)
  {
  }

  /** The failures a setter can stop the process with. */
  predicate SetterFailure(f: Failure) {
    f.BadURL? || f.BadLogLevel? || f.LogFileFailed? || f.InterfaceConversion?
  }

  /** The setter loop stops only for a setter's own reasons, never for a required, gate or TLS failure. */
  lemma {:induction false} SetValuesFailures(opts: seq<ConfigOption>, store: Store, ext: Externals, s: State)
    ensures SetValues(opts, store, ext, s).Exit? ==> SetterFailure(SetValues(opts, store, ext, s).failure)
  {
    if opts != [] {
      var co := opts[0];
      if co.customSetValue.Some? {
        match co.customSetValue.value
        case SetDuration =>
        case SetURL =>
        case SetLogLevel =>
        case SetLogFile =>
        case SetRateLimit =>
        case IncrementTLSFlag =>
      }
      if SetValue(co, store, ext, s).Continue? {
        SetValuesFailures(opts[1..], store, ext, SetValue(co, store, ext, s).state);
      }
    }
  }

  /** The value an option's setter stores in its field when it continues, if it stores one. */
  function Written(co: ConfigOption, store: Store, ext: Externals): Option<Value> {
    match co.customSetValue
    case Some(SetDuration) => Some(DurationVal(Seconds(GetInt(store, co.name))))
    case Some(SetURL) =>
      var text := GetString(store, co.name);
      if text != "" && ext.parseURL(text).Some? then Some(URLPtr(ext.parseURL(text))) else None
    case Some(SetLogLevel) =>
      var parsed := ext.parseLevel(GetString(store, co.name));
      if parsed.Some? then Some(LevelVal(parsed.value)) else None
    case Some(SetLogFile) =>
      var lf := GetString(store, "log-file");
      if lf != "" then Some(StringVal(lf)) else None
    case Some(SetRateLimit) =>
      var quota := RateQuotaFor(GetInt(store, co.name));
      if quota.Some? then Some(RateQuotaPtr(quota)) else None
    case Some(IncrementTLSFlag) =>
      var tls := GetString(store, co.name);
      if tls != "" then Some(StringVal(tls)) else None
    case None => if co.configKey.Some? then Some(SimpleValue(co.flagDefault, store, co.name)) else None
  }

  function WrittenOr(co: ConfigOption, store: Store, ext: Externals, d: Value): Value {
    if Written(co, store, ext).Some? then Written(co, store, ext).value else d
  }

  /** How much an option's setter adds to tlsProvided. */
  function TLSIncrement(co: ConfigOption, store: Store): nat {
    if co.customSetValue == Some(IncrementTLSFlag) && GetString(store, co.name) != "" then 1 else 0
  }

  /**
   * A setter that continues changes only its own field, to a value that does
   * not depend on the state before it, and only the TLS setter moves the counter.
   */
  lemma SetValueWrites(co: ConfigOption, store: Store, ext: Externals, s: State)
    requires SetValue(co, store, ext, s).Continue?
    ensures Written(co, store, ext).Some? ==> co.configKey.Some?
    ensures SetValue(co, store, ext, s).state.c ==
              if Written(co, store, ext).Some? then s.c[co.configKey.value := Written(co, store, ext).value] else s.c
    ensures SetValue(co, store, ext, s).state.tlsProvided == s.tlsProvided + TLSIncrement(co, store)
  {
    if co.customSetValue.Some? {
      match co.customSetValue.value
      case SetDuration =>
      case SetURL =>
      case SetLogLevel =>
      case SetLogFile =>
      case SetRateLimit =>
      case IncrementTLSFlag =>
    }
  }

  /** Field k after a run of setters that started with value d in it. */
  function FieldAfter(opts: seq<ConfigOption>, store: Store, ext: Externals, k: Key, d: Value): Value {
    if opts == [] then d
    else FieldAfter(opts[1..], store, ext, k, if opts[0].configKey == Some(k) then WrittenOr(opts[0], store, ext, d) else d)
  }

  function TLSCount(opts: seq<ConfigOption>, store: Store): nat {
    if opts == [] then 0 else TLSIncrement(opts[0], store) + TLSCount(opts[1..], store)
  }

  /** The effect of the whole setter loop on one field and on the TLS counter. */
  lemma {:induction false} SetValuesEffect(opts: seq<ConfigOption>, store: Store, ext: Externals, s: State, k: Key)
    requires SetValues(opts, store, ext, s).Continue?
    requires k in s.c
    ensures k in SetValues(opts, store, ext, s).state.c
    ensures SetValues(opts, store, ext, s).state.c[k] == FieldAfter(opts, store, ext, k, s.c[k])
    ensures SetValues(opts, store, ext, s).state.tlsProvided == s.tlsProvided + TLSCount(opts, store)
  {
    if opts != [] {
      var step := SetValue(opts[0], store, ext, s);
      assert step.Continue? && SetValues(opts, store, ext, s) == SetValues(opts[1..], store, ext, step.state);
      SetValueWrites(opts[0], store, ext, s);
      var d1 := if opts[0].configKey == Some(k) then WrittenOr(opts[0], store, ext, s.c[k]) else s.c[k];
      assert k in step.state.c && step.state.c[k] == d1;
      SetValuesEffect(opts[1..], store, ext, step.state, k);
    }
  }

  /** A field no option points to keeps its value. */
  lemma {:induction false} FieldAfterUntouched(opts: seq<ConfigOption>, store: Store, ext: Externals, k: Key, d: Value)
    requires forall j :: 0 <= j < |opts| ==> opts[j].configKey != Some(k)
    ensures FieldAfter(opts, store, ext, k, d) == d
  {
    if opts != [] {
      var rest := opts[1..];
      assert forall j :: 0 <= j < |rest| ==> rest[j] == opts[j + 1];
      FieldAfterUntouched(rest, store, ext, k, d);
    }
  }

  /** A field exactly one option points to ends with what that option's setter wrote, if anything. */
  lemma {:induction false} FieldAfterOwner(opts: seq<ConfigOption>, store: Store, ext: Externals, k: Key, d: Value, i: nat)
    requires i < |opts| && opts[i].configKey == Some(k)
    requires forall j :: 0 <= j < |opts| && j != i ==> opts[j].configKey != Some(k)
    ensures FieldAfter(opts, store, ext, k, d) == WrittenOr(opts[i], store, ext, d)
  {
    var rest := opts[1..];
    forall j | 0 <= j < |rest| && j + 1 != i
      ensures rest[j].configKey != Some(k)
    {
      assert rest[j] == opts[j + 1];
    }
    if i == 0 {
      FieldAfterUntouched(rest, store, ext, k, WrittenOr(opts[0], store, ext, d));
    } else {
      assert rest[i - 1] == opts[i];
      FieldAfterOwner(rest, store, ext, k, d, i - 1);
    }
  }

  /** Options that are not TLS setters add nothing to the counter. */
  lemma {:induction false} TLSCountNone(opts: seq<ConfigOption>, store: Store)
    requires forall j :: 0 <= j < |opts| ==> opts[j].customSetValue != Some(IncrementTLSFlag)
    ensures TLSCount(opts, store) == 0
  {
    if opts != [] {
      var rest := opts[1..];
      assert forall j :: 0 <= j < |rest| ==> rest[j] == opts[j + 1];
      TLSCountNone(rest, store);
    }
  }

  lemma {:induction false} TLSCountSplit(a: seq<ConfigOption>, b: seq<ConfigOption>, store: Store)
    ensures TLSCount(a + b, store) == TLSCount(a, store) + TLSCount(b, store)
  {
    if a == [] {
      assert a + b == b;
    } else {
      assert (a + b)[0] == a[0] && (a + b)[1..] == a[1..] + b;
      TLSCountSplit(a[1..], b, store);
    }
  }

  /** With exactly two TLS setters, at i and i + 1, the counter is what those two add. */
  lemma {:induction false} TLSCountPair(opts: seq<ConfigOption>, store: Store, i: nat)
    requires i + 1 < |opts|
    requires opts[i].customSetValue == Some(IncrementTLSFlag) && opts[i + 1].customSetValue == Some(IncrementTLSFlag)
    requires forall j :: 0 <= j < |opts| && j != i && j != i + 1 ==> opts[j].customSetValue != Some(IncrementTLSFlag)
    ensures TLSCount(opts, store) == TLSIncrement(opts[i], store) + TLSIncrement(opts[i + 1], store)
  {
    var front, pair, back := opts[..i], opts[i..i + 2], opts[i + 2..];
    assert opts == front + (pair + back);
    TLSCountSplit(front, pair + back, store);
    TLSCountSplit(pair, back, store);
    TLSCountNone(front, store);
    assert forall j :: 0 <= j < |back| ==> back[j] == opts[j + i + 2];
    TLSCountNone(back, store);
    assert pair[1..][1..] == [];
  }

  /** The table has its TLS pair at i and i + 1 (cert first) and no other TLS setter. */
  predicate TLSPairAt(opts: seq<ConfigOption>, i: nat) {
    && i + 1 < |opts|
    && opts[i].name == "tls-cert" && opts[i].customSetValue == Some(IncrementTLSFlag)
    && opts[i + 1].name == "tls-key" && opts[i + 1].customSetValue == Some(IncrementTLSFlag)
    && forall j :: 0 <= j < |opts| && j != i && j != i + 1 ==> opts[j].customSetValue != Some(IncrementTLSFlag)
  }

  /**
   * With such a pair and a counter starting at 0, validateTLS rejects exactly
   * the half-configured pair: both empty and both set pass.
   */
  lemma TLSValidation(opts: seq<ConfigOption>, store: Store, ext: Externals, s: State, i: nat)
    requires TLSPairAt(opts, i)
    requires WellTyped(s.c) && s.tlsProvided == 0
    requires SetValues(opts, store, ext, s).Continue?
    ensures ValidateTLS(SetValues(opts, store, ext, s).state.tlsProvided).Some? <==>
              ((GetString(store, "tls-cert") == "") != (GetString(store, "tls-key") == ""))
  {
    SetValuesEffect(opts, store, ext, s, TLSCert);
    TLSCountPair(opts, store, i);
  }

  /**
   * With such a pair, the second cert/key check (main.go:307-313) never
   * decides the outcome: a half-configured pair has already stopped the
   * process at validateTLS.
   */
  lemma PairCheckUnreachable(opts: seq<ConfigOption>, store: Store, ext: Externals, up: nat, down: nat, s: State, i: nat)
    requires TLSPairAt(opts, i)
    requires WellTyped(s.c) && s.tlsProvided == 0
    ensures !InitConfig(opts, store, ext, up, down, s).Exited? ||
            InitConfig(opts, store, ext, up, down, s).failure !in {TLSKeyNotConfigured, TLSCertNotConfigured}
  {
    SetValuesFailures(opts, store, ext, s);
    RequireAllPasses(opts, store);
    if RequireAll(opts, store).None? && up == 0 && down == 0 && SetValues(opts, store, ext, s).Continue? {
      var s' := SetValues(opts, store, ext, s).state;
      TLSValidation(opts, store, ext, s, i);
      assert InitConfig(opts, store, ext, up, down, s) == Finish(store, ext, s');
      var cert, key := GetString(store, "tls-cert"), GetString(store, "tls-key");
      assert ValidateTLS(s'.tlsProvided).None? ==> CheckTLSPair(cert, key).None?;
    }
  }

  /** What a setter validates before it writes: the URL parses, the level parses, the log file opens. */
  predicate SetterAccepts(co: ConfigOption, store: Store, ext: Externals) {
    match co.customSetValue
    case Some(SetURL) => GetString(store, co.name) == "" || ext.parseURL(GetString(store, co.name)).Some?
    case Some(SetLogLevel) => ext.parseLevel(GetString(store, co.name)).Some?
    case Some(SetLogFile) => GetString(store, "log-file") == "" || ext.canOpen(GetString(store, "log-file"))
    case _ => true
  }

  /** A setter that continues has passed its own validation. */
  lemma SetValueAccepts(co: ConfigOption, store: Store, ext: Externals, s: State)
    requires SetValue(co, store, ext, s).Continue?
    ensures SetterAccepts(co, store, ext)
  {
    if co.customSetValue.Some? {
      match co.customSetValue.value
      case SetDuration =>
      case SetURL =>
      case SetLogLevel =>
      case SetLogFile =>
      case SetRateLimit =>
      case IncrementTLSFlag =>
    }
  }

  /** When the setter loop finishes, every option in it has passed its setter's validation. */
  lemma {:induction false} SetValuesAccepted(opts: seq<ConfigOption>, store: Store, ext: Externals, s: State, i: nat)
    requires SetValues(opts, store, ext, s).Continue?
    requires i < |opts|
    ensures SetterAccepts(opts[i], store, ext)
  {
    var step := SetValue(opts[0], store, ext, s);
    if i == 0 {
      SetValueAccepts(opts[0], store, ext, s);
    } else {
      var rest := opts[1..];
      assert rest[i - 1] == opts[i];
      SetValuesAccepted(rest, store, ext, step.state, i - 1);
    }
  }

  /**
   * setURL as written asserts configKey.(*url.URL), but a field of type
   * *url.URL is reached through a **url.URL: every non-empty URL that parses
   * ends in a runtime panic.
   */
  lemma SetURLAsWrittenPanics(co: ConfigOption, store: Store, ext: Externals, s: State, k: Key)
    requires co.configKey == Some(k) && FieldType(k) == URLPtrT
    requires GetString(store, co.name) != "" && ext.parseURL(GetString(store, co.name)).Some?
    ensures SetURLAsWritten(co, store, ext, s) == Exit(InterfaceConversion(Some(k), URLT), s)
    ensures ExitCode(SetURLAsWritten(co, store, ext, s).failure) == 2
  {
  }

  /** The corrected setURL stores the parsed URL in a *url.URL field and changes nothing else. */
  lemma SetURLStores(co: ConfigOption, store: Store, ext: Externals, s: State, k: Key)
    requires co.configKey == Some(k) && FieldType(k) == URLPtrT
    requires GetString(store, co.name) != "" && ext.parseURL(GetString(store, co.name)).Some?
    ensures Resolve.SetURL(co, store, ext, s) == Continue(s.(c := s.c[k := URLPtr(ext.parseURL(GetString(store, co.name)))]))
  {
  }

  /**
   * setDuration stores the option's integer as that many seconds: exactly,
   * whenever the product fits a time.Duration, and with int64 wrap-around
   * otherwise.
   */
  lemma SetDurationStores(co: ConfigOption, store: Store, s: State, k: Key)
    requires co.configKey == Some(k) && FieldType(k) == DurationT
    ensures Resolve.SetDuration(co, store, s).Continue?
    ensures Resolve.SetDuration(co, store, s).state == s.(c := s.c[k := DurationVal(Seconds(GetInt(store, co.name)))])
    ensures -MaxSeconds <= GetInt(store, co.name) <= MaxSeconds ==>
              Seconds(GetInt(store, co.name)) == GetInt(store, co.name) * 1_000_000_000
  {
  }

  /**
   * setRateLimit leaves the field alone for 0 and otherwise stores a quota of
   * that many requests per hour with a burst of 100.
   */
  lemma SetRateLimitStores(co: ConfigOption, store: Store, s: State, k: Key)
    requires co.configKey == Some(k) && FieldType(k) == RateQuotaPtrT
    ensures Resolve.SetRateLimit(co, store, s).Continue?
    ensures GetInt(store, co.name) == 0 ==> Resolve.SetRateLimit(co, store, s).state == s
    ensures GetInt(store, co.name) != 0 ==>
              Resolve.SetRateLimit(co, store, s).state ==
              s.(c := s.c[k := RateQuotaPtr(Some(RateQuota(GetInt(store, co.name), RateLimitBurst)))])
  {
  }

  /**
   * Over options none of which stores a parsed URL, the setter loop as
   * written is the corrected one.
   */
  lemma {:induction false} SetValuesAsWrittenAgrees(opts: seq<ConfigOption>, store: Store, ext: Externals, s: State)
    requires forall j :: 0 <= j < |opts| ==> !StoresParsedURL(opts[j], store, ext)
    ensures SetValuesAsWritten(opts, store, ext, s) == SetValues(opts, store, ext, s)
  {
    if opts != [] {
      var step := SetValue(opts[0], store, ext, s);
      assert SetValueAsWritten(opts[0], store, ext, s) == step;
      if step.Continue? {
        var rest := opts[1..];
        assert forall j :: 0 <= j < |rest| ==> rest[j] == opts[j + 1];
        SetValuesAsWrittenAgrees(rest, store, ext, step.state);
      }
    }
  }

  /**
   * The setter loop as written, when option i is the first to store a parsed
   * URL into a *url.URL field: the options before it run as corrected, and
   * unless one of them stops the process, option i panics.
   */
  lemma {:induction false} SetValuesAsWrittenPanicsAt(opts: seq<ConfigOption>, store: Store, ext: Externals, s: State, i: nat, k: Key)
    requires i < |opts| && StoresParsedURL(opts[i], store, ext)
    requires opts[i].configKey == Some(k) && FieldType(k) == URLPtrT
    requires forall j :: 0 <= j < i ==> !StoresParsedURL(opts[j], store, ext)
    ensures SetValues(opts[..i], store, ext, s).Exit? ==>
              SetValuesAsWritten(opts, store, ext, s) == SetValues(opts[..i], store, ext, s)
    ensures SetValues(opts[..i], store, ext, s).Continue? ==>
              SetValuesAsWritten(opts, store, ext, s) ==
              Exit(InterfaceConversion(Some(k), URLT), SetValues(opts[..i], store, ext, s).state)
  {
    if i == 0 {
      assert opts[..i] == [];
      SetURLAsWrittenPanics(opts[0], store, ext, s, k);
    } else {
      var step := SetValue(opts[0], store, ext, s);
      assert SetValueAsWritten(opts[0], store, ext, s) == step;
      assert opts[..i][0] == opts[0] && opts[..i][1..] == opts[1..][..i - 1];
      if step.Continue? {
        var rest := opts[1..];
        assert rest[i - 1] == opts[i];
        assert forall j :: 0 <= j < i - 1 ==> rest[j] == opts[j + 1];
        SetValuesAsWrittenPanicsAt(rest, store, ext, step.state, i - 1, k);
      }
    }
  }

  /**
   * As written, initConfig never lets the process go on. Over options none
   * of which stores a parsed URL, a run that assembles the config ends in
   * log.Fatal, and every other run ends as the corrected pipeline does.
   */
  lemma InitConfigAsWrittenHalts(opts: seq<ConfigOption>, store: Store, ext: Externals, up: nat, down: nat, s: State)
    requires forall j :: 0 <= j < |opts| ==> !StoresParsedURL(opts[j], store, ext)
    ensures InitConfig(opts, store, ext, up, down, s).Assembled? ==>
              InitConfigAsWritten(opts, store, ext, up, down, s) == Exited(DiedHere, InitConfig(opts, store, ext, up, down, s).state)
    ensures InitConfig(opts, store, ext, up, down, s).Exited? ==>
              InitConfigAsWritten(opts, store, ext, up, down, s) == InitConfig(opts, store, ext, up, down, s)
  {
    SetValuesAsWrittenAgrees(opts, store, ext, s);
  }

  /** The state the staged checks leave: the parsed level, and the log file as output if one was given. */
  function Logged(s: State, ll: Level, lf: string): State {
    s.(loggerLevel := Some(ll), logOutput := if lf != "" then Some(lf) else s.logOutput)
  }

  /**
   * The order of the staged checks after the setters (main.go:286-323): the
   * log level, then validateTLS, then opening the log file, then the
   * cert/key pair, then the friendbot URL; the config is assembled exactly
   * when all of them pass.
   */
  lemma FinishOrder(store: Store, ext: Externals, s: State)
    ensures var level := GetString(store, "log-level");
            ext.parseLevel(level).None? ==> Finish(store, ext, s) == Exited(BadLogLevel(level), s)
    ensures var ll := ext.parseLevel(GetString(store, "log-level"));
            ll.Some? && s.tlsProvided == 1 ==>
              Finish(store, ext, s) == Exited(TLSHalfConfigured, s.(loggerLevel := ll))
    ensures var ll, lf := ext.parseLevel(GetString(store, "log-level")), GetString(store, "log-file");
            ll.Some? && s.tlsProvided != 1 && lf != "" && !ext.canOpen(lf) ==>
              Finish(store, ext, s) == Exited(LogFileFailed, s.(loggerLevel := ll))
    ensures var ll, lf := ext.parseLevel(GetString(store, "log-level")), GetString(store, "log-file");
            var pair := CheckTLSPair(GetString(store, "tls-cert"), GetString(store, "tls-key"));
            ll.Some? && s.tlsProvided != 1 && (lf == "" || ext.canOpen(lf)) && pair.Some? ==>
              Finish(store, ext, s) == Exited(pair.value, Logged(s, ll.value, lf))
    ensures var ll, lf := ext.parseLevel(GetString(store, "log-level")), GetString(store, "log-file");
            var pair := CheckTLSPair(GetString(store, "tls-cert"), GetString(store, "tls-key"));
            var fb := GetString(store, "friendbot-url");
            ll.Some? && s.tlsProvided != 1 && (lf == "" || ext.canOpen(lf)) && pair.None? && fb != "" && ext.parseURL(fb).None? ==>
              Finish(store, ext, s) == Exited(BadURL(fb), Logged(s, ll.value, lf))
    ensures var ll, lf := ext.parseLevel(GetString(store, "log-level")), GetString(store, "log-file");
            var pair := CheckTLSPair(GetString(store, "tls-cert"), GetString(store, "tls-key"));
            var fb := GetString(store, "friendbot-url");
            Finish(store, ext, s).Assembled? <==>
              ll.Some? && s.tlsProvided != 1 && (lf == "" || ext.canOpen(lf)) && pair.None? && (fb == "" || ext.parseURL(fb).Some?)
    ensures Finish(store, ext, s).Assembled? ==>
              Finish(store, ext, s).state == Logged(s, ext.parseLevel(GetString(store, "log-level")).value, GetString(store, "log-file"))
  {
  }
}
