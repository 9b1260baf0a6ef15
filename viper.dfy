/**
 * The resolved flag/environment store. Flag registration and the
 * flag-over-environment-over-default precedence are the library's own; what
 * the configuration code sees is, per option name, the value that won, as the
 * flag layer holds it (a typed flag value, or the text of an environment
 * variable). The three getters coerce that value to the kind they are asked for.
 */
module Viper {
  import opened Wrappers
  import opened GoInt
  import opened Strconv

  datatype Raw =
    | RString(s: string)
    | RInt(i: Int64)
    | RUint(u: Uint64)
    | RBool(b: bool)

  type Store = map<string, Raw>

  /** viper.GetString: the string form of the winning value, "" when there is none. */
  function GetString(store: Store, name: string): (r: string)
    ensures name !in store ==> r == ""
    ensures name in store && store[name].RString? ==> r == store[name].s
    ensures name in store && !store[name].RString? ==> r != ""
  {
    if name !in store then ""
    else match store[name]
      case RString(s) => s
      case RInt(i) => FormatInt(i)
      case RUint(u) => FormatInt(u)
      case RBool(b) => FormatBool(b)
  }

  /** viper.GetInt: the integer form; text that is not a decimal int64 reads as 0. */
  function GetInt(store: Store, name: string): (r: Int64)
    ensures name !in store ==> r == 0
    ensures name in store && store[name].RInt? ==> r == store[name].i
  {
    if name !in store then 0
    else match store[name]
      case RString(s) =>
        var parsed := ParseDecimal(s);
        if parsed.Some? && MinInt64 <= parsed.value <= MaxInt64 then parsed.value else 0
      case RInt(i) => i
      case RUint(u) => ToInt(u)
      case RBool(b) => if b then 1 else 0
  }

  /** viper.GetBool: the boolean form; text Go cannot read as a boolean reads as false. */
  function GetBool(store: Store, name: string): (r: bool)
    ensures name !in store ==> !r
    ensures name in store && store[name].RBool? ==> r == store[name].b
  {
    if name !in store then false
    else match store[name]
      case RString(s) => ParseBool(s) == Some(true)
      case RInt(i) => i != 0
      case RUint(u) => u != 0
      case RBool(b) => b
  }

  /** A typed value and its text form, as an environment variable would carry it, read back alike. */
  lemma IntFromText(store: Store, name: string, i: Int64)
    requires name in store && store[name] == RString(FormatInt(i))
    ensures GetInt(store, name) == i
  {
    FormatIntRoundTrip(i);
  }

  lemma BoolFromText(store: Store, name: string, b: bool)
    requires name in store && store[name] == RString(FormatBool(b))
    ensures GetBool(store, name) == b
  {
    FormatBoolRoundTrip(b);
  }
}
