/** The usual optional value: `None` is "not set". */
module Wrappers {
  datatype Option<+T> = None | Some(value: T)
}

/** A store's configuration: string keys mapped to values whose types the
    configuration layer has already resolved. The getters mirror Samza's
    `Config.getBoolean`, `getInt`, `getLong` and `get`: with a default they
    answer the default for an absent key, without one the key must be present. */
module StoreConfig {
  import opened JavaArith

  datatype Value =
    | BoolValue(b: bool)
    | IntValue(i: Int32)
    | LongValue(l: Int64)
    | StringValue(s: string)

  type Config = map<string, Value>

  /** The key, when present, is readable with `getInt`: an int, or a long
      within the range of an int. */
  predicate HasInt(cfg: Config, k: string)
  {
    k in cfg ==> cfg[k].IntValue? || (cfg[k].LongValue? && INT32_MIN <= cfg[k].l <= INT32_MAX)
  }

  /** The key, when present, is readable with `getLong` (an int widens). */
  predicate HasLong(cfg: Config, k: string) { k in cfg ==> cfg[k].IntValue? || cfg[k].LongValue? }

  /** The key, when present, is readable with `get`. */
  predicate HasString(cfg: Config, k: string) { k in cfg ==> cfg[k].StringValue? }

  /** `getBoolean` never fails: a present value reads as true only when it
      is true, and anything else reads as false. */
  function GetBoolOr(cfg: Config, k: string, default: bool): bool
  {
    if k in cfg then cfg[k] == BoolValue(true) else default
  }

  function GetInt(cfg: Config, k: string): Int32
    requires k in cfg && HasInt(cfg, k)
  {
    match cfg[k]
    case IntValue(i) => i
    case LongValue(l) => l
  }

  function GetIntOr(cfg: Config, k: string, default: Int32): Int32
    requires HasInt(cfg, k)
  {
    if k in cfg then GetInt(cfg, k) else default
  }

  function GetLong(cfg: Config, k: string): Int64
    requires k in cfg && HasLong(cfg, k)
  {
    match cfg[k]
    case IntValue(i) => i
    case LongValue(l) => l
  }

  function GetLongOr(cfg: Config, k: string, default: Int64): Int64
    requires HasLong(cfg, k)
  {
    if k in cfg then GetLong(cfg, k) else default
  }

  function GetString(cfg: Config, k: string): string
    requires k in cfg && HasString(cfg, k)
  {
    cfg[k].s
  }

  function GetStringOr(cfg: Config, k: string, default: string): string
    requires HasString(cfg, k)
  {
    if k in cfg then GetString(cfg, k) else default
  }
}

/** Apache Commons Lang's `StringUtils.isNotBlank`, with `Character.isWhitespace`
    written out by code point. */
module StringUtils {

  /** `Character.isWhitespace`: the Unicode space, line and paragraph separators
      other than the no-break spaces U+00A0, U+2007 and U+202F, plus the controls
      U+0009 to U+000D and U+001C to U+001F. */
  predicate IsWhitespace(c: char)
  {
    var n := c as int;
    (0x09 <= n <= 0x0D) || (0x1C <= n <= 0x20) || n == 0x1680 ||
    (0x2000 <= n <= 0x2006) || (0x2008 <= n <= 0x200A) ||
    n == 0x2028 || n == 0x2029 || n == 0x205F || n == 0x3000
  }

  /** True when the string holds at least one character that is not whitespace;
      the empty string is blank. */
  function IsNotBlank(s: string): (r: bool)
    ensures r <==> exists i :: 0 <= i < |s| && !IsWhitespace(s[i])
  {
    if |s| == 0 then false
    else if !IsWhitespace(s[0]) then true
    else
      var rest := IsNotBlank(s[1..]);
      assert forall i :: 1 <= i < |s| ==> s[i] == s[1..][i - 1];
      assert rest ==> exists i :: 0 <= i < |s| - 1 && !IsWhitespace(s[1..][i]);
      rest
  }
}
