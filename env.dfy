/**
 * Environment configuration (`config/env.js`): reading REACT_APP_* variables with
 * defaults, boolean/integer/JSON parsing, the missing-variable report and
 * feature-flag lookup. `process.env` is a map from variable name to string; a
 * variable that is not set is simply absent from the map.
 */
module Env {
  import opened Js

  /** The strings `parseBoolean` reads as true (after trimming). */
  const TrueWords: seq<string> := ["1", "true", "TRUE", "yes", "on"]

  /** The names Object.prototype makes visible to `key in obj` on every plain object. */
  const InheritedNames: set<string> := {
    "constructor", "hasOwnProperty", "isPrototypeOf", "propertyIsEnumerable",
    "toLocaleString", "toString", "valueOf", "__proto__", "__defineGetter__",
    "__defineSetter__", "__lookupGetter__", "__lookupSetter__"
  }

  const UrlVar := "REACT_APP_SUPABASE_URL"
  const KeyVar := "REACT_APP_SUPABASE_KEY"

  /** The configuration object `getEnv` builds. */
  datatype Config = Config(
    SUPABASE_URL: Option<string>,
    SUPABASE_KEY: Option<string>,
    API_BASE: Option<string>,
    BACKEND_URL: Option<string>,
    FRONTEND_URL: Option<string>,
    WS_URL: Option<string>,
    NODE_ENV: string,
    ENABLE_SOURCE_MAPS: bool,
    PORT: int,
    TRUST_PROXY: bool,
    LOG_LEVEL: string,
    HEALTHCHECK_PATH: string,
    FEATURE_FLAGS: JsValue,
    EXPERIMENTS_ENABLED: bool)

  /** `process.env.NAME`. */
  function Lookup(penv: map<string, string>, name: string): Option<string> {
    if name in penv then Some(penv[name]) else None
  }

  /** `value || fallback` for a string-or-undefined value. */
  function OrElse(value: Option<string>, fallback: string): (r: string)
    ensures value.Some? && value.value != "" ==> r == value.value
    ensures value.None? || value.value == "" ==> r == fallback
  {
    if value.Some? && value.value != "" then value.value else fallback
  }

  /** The JavaScript value of an environment variable: a string, or undefined when unset. */
  function AsJs(value: Option<string>): JsValue {
    if value.Some? then Str(value.value) else Undefined
  }

  /** `parseBoolean(value, fallback)`. */
  function ParseBoolean(value: JsValue, fallback: bool): (r: bool)
    ensures value.Str? ==> (r <==> Trim(value.s) in TrueWords)
    ensures value.Bool? ==> r == value.b
    ensures !value.Str? && !value.Bool? ==> r == fallback
  {
    if value.Str? then Trim(value.s) in TrueWords
    else if value.Bool? then value.b
    else fallback
  }

  /** A string `parseBoolean` reads as `b`, whatever the fallback. */
  function BooleanText(b: bool): (s: string)
    ensures ParseBoolean(Str(s), true) == b && ParseBoolean(Str(s), false) == b
  {
    var s := if b then "true" else "false";
    TrimUnpadded(s);
    assert s != "1" && s != "TRUE" && s != "yes" && s != "on";
    s
  }

  /** On a string, `parseBoolean` ignores surrounding whitespace and never returns the fallback. */
  lemma ParseBooleanPadded(ws1: string, s: string, ws2: string, fallback: bool)
    requires AllSpace(ws1) && AllSpace(ws2)
    ensures ParseBoolean(Str(ws1 + s + ws2), fallback) == ParseBoolean(Str(s), !fallback)
  {
    TrimIgnoresPadding(ws1, s, ws2);
  }

  /** A word that differs from an accepted one only in case ("True") reads as false. */
  lemma ParseBooleanIsCaseSensitive(fallback: bool)
    ensures !ParseBoolean(Str("True"), fallback)
  {
    TrimUnpadded("True");
  }

  /** `toInt(value, fallback)`: `parseInt(value, 10)` when it yields a number, the fallback otherwise. */
  function ToInt(value: Option<string>, fallback: int): (r: int)
    ensures value.None? ==> r == fallback
    ensures value == Some("") ==> r == fallback
    ensures value.Some? && LeadingInteger(value.value).Some? ==> r == LeadingInteger(value.value).value
    ensures value.Some? && LeadingInteger(value.value).None? ==> r == fallback
  {
    if value.None? then fallback
    else
      match LeadingInteger(value.value)
      case Some(n) => n
      case None => fallback
  }

  /** `toInt` returns the leading integer of its input, ignoring any non-digit text after it. */
  lemma ToIntReadsLeadingInteger(n: int, rest: string, fallback: int)
    requires rest == [] || !IsDigit(rest[0])
    ensures ToInt(Some(DecimalString(n) + rest), fallback) == n
  {
    LeadingIntegerOfDecimal(n, rest);
  }

  /** `toInt` falls back when the (trimmed) input starts with neither a sign nor a digit. */
  lemma ToIntWithoutDigits(s: string, fallback: int)
    requires TrimStart(s) == [] || !(IsDigit(TrimStart(s)[0]) || TrimStart(s)[0] == '-' || TrimStart(s)[0] == '+')
    ensures ToInt(Some(s), fallback) == fallback
  {
  }

  /**
   * `parseJSON(value, fallback)`; `parse` stands for `JSON.parse` applied to a
   * string, None meaning that it throws.
   */
  function ParseJson(value: JsValue, fallback: JsValue, parse: string -> Option<JsValue>): (r: JsValue)
    ensures !Truthy(value) ==> r == fallback
    ensures value.Obj? ==> r == value
    ensures Truthy(value) && !value.Obj? && parse(ToJsString(value)).None? ==> r == fallback
    ensures Truthy(value) && !value.Obj? && parse(ToJsString(value)).Some? ==> r == parse(ToJsString(value)).value
  {
    if !Truthy(value) then fallback
    else if value.Obj? then value
    else parse(ToJsString(value)).GetOr(fallback)
  }

  /**
   * `getEnv()` without its call to `validateEnv` (see ValidateEnv): the URLs are
   * passed through, the strings fall back on unset or empty variables, the
   * booleans are the five-word test of the set value, the port is its leading
   * integer, and the flags are parsed JSON.
   */
  function GetEnv(penv: map<string, string>, parse: string -> Option<JsValue>): (c: Config)
    ensures c.SUPABASE_URL == Lookup(penv, UrlVar) && c.SUPABASE_KEY == Lookup(penv, KeyVar)
    ensures c.API_BASE == Lookup(penv, "REACT_APP_API_BASE")
    ensures c.BACKEND_URL == Lookup(penv, "REACT_APP_BACKEND_URL")
    ensures c.FRONTEND_URL == Lookup(penv, "REACT_APP_FRONTEND_URL")
    ensures c.WS_URL == Lookup(penv, "REACT_APP_WS_URL")
    ensures c.NODE_ENV == OrElse(Lookup(penv, "REACT_APP_NODE_ENV"), OrElse(Lookup(penv, "NODE_ENV"), "development"))
    ensures c.PORT == ToInt(Lookup(penv, "REACT_APP_PORT"), 3000)
    ensures "REACT_APP_PORT" !in penv ==> c.PORT == 3000
    ensures "REACT_APP_LOG_LEVEL" in penv && penv["REACT_APP_LOG_LEVEL"] != "" ==>
      c.LOG_LEVEL == penv["REACT_APP_LOG_LEVEL"]
    ensures "REACT_APP_LOG_LEVEL" !in penv || penv["REACT_APP_LOG_LEVEL"] == "" ==> c.LOG_LEVEL == "info"
    ensures "REACT_APP_HEALTHCHECK_PATH" in penv && penv["REACT_APP_HEALTHCHECK_PATH"] != "" ==>
      c.HEALTHCHECK_PATH == penv["REACT_APP_HEALTHCHECK_PATH"]
    ensures "REACT_APP_HEALTHCHECK_PATH" !in penv || penv["REACT_APP_HEALTHCHECK_PATH"] == "" ==>
      c.HEALTHCHECK_PATH == "/healthz"
    ensures c.FEATURE_FLAGS == ParseJson(AsJs(Lookup(penv, "REACT_APP_FEATURE_FLAGS")), Obj(map[]), parse)
    ensures "REACT_APP_FEATURE_FLAGS" !in penv || penv["REACT_APP_FEATURE_FLAGS"] == "" ==>
      c.FEATURE_FLAGS == Obj(map[])
    ensures "REACT_APP_ENABLE_SOURCE_MAPS" in penv ==>
      (c.ENABLE_SOURCE_MAPS <==> Trim(penv["REACT_APP_ENABLE_SOURCE_MAPS"]) in TrueWords)
    ensures "REACT_APP_ENABLE_SOURCE_MAPS" !in penv ==> !c.ENABLE_SOURCE_MAPS
    ensures "REACT_APP_TRUST_PROXY" in penv ==>
      (c.TRUST_PROXY <==> Trim(penv["REACT_APP_TRUST_PROXY"]) in TrueWords)
    ensures "REACT_APP_TRUST_PROXY" !in penv ==> !c.TRUST_PROXY
    ensures "REACT_APP_EXPERIMENTS_ENABLED" in penv ==>
      (c.EXPERIMENTS_ENABLED <==> Trim(penv["REACT_APP_EXPERIMENTS_ENABLED"]) in TrueWords)
    ensures "REACT_APP_EXPERIMENTS_ENABLED" !in penv ==> !c.EXPERIMENTS_ENABLED
  {
    Config(
      SUPABASE_URL := Lookup(penv, UrlVar),
      SUPABASE_KEY := Lookup(penv, KeyVar),
      API_BASE := Lookup(penv, "REACT_APP_API_BASE"),
      BACKEND_URL := Lookup(penv, "REACT_APP_BACKEND_URL"),
      FRONTEND_URL := Lookup(penv, "REACT_APP_FRONTEND_URL"),
      WS_URL := Lookup(penv, "REACT_APP_WS_URL"),
      NODE_ENV := OrElse(Lookup(penv, "REACT_APP_NODE_ENV"), OrElse(Lookup(penv, "NODE_ENV"), "development")),
      ENABLE_SOURCE_MAPS := ParseBoolean(AsJs(Lookup(penv, "REACT_APP_ENABLE_SOURCE_MAPS")), false),
      PORT := ToInt(Lookup(penv, "REACT_APP_PORT"), 3000),
      TRUST_PROXY := ParseBoolean(AsJs(Lookup(penv, "REACT_APP_TRUST_PROXY")), false),
      LOG_LEVEL := OrElse(Lookup(penv, "REACT_APP_LOG_LEVEL"), "info"),
      HEALTHCHECK_PATH := OrElse(Lookup(penv, "REACT_APP_HEALTHCHECK_PATH"), "/healthz"),
      FEATURE_FLAGS := ParseJson(AsJs(Lookup(penv, "REACT_APP_FEATURE_FLAGS")), Obj(map[]), parse),
      EXPERIMENTS_ENABLED := ParseBoolean(AsJs(Lookup(penv, "REACT_APP_EXPERIMENTS_ENABLED")), false))
  }

  /** An empty or unset variable counts as missing (`!env.X`). */
  predicate Missing(value: Option<string>) {
    !Truthy(AsJs(value))
  }

  /** The names `validateEnv` collects in `missing`. */
  function MissingVars(c: Config): (m: seq<string>)
    ensures UrlVar in m <==> Missing(c.SUPABASE_URL)
    ensures KeyVar in m <==> Missing(c.SUPABASE_KEY)
    ensures forall i :: 0 <= i < |m| ==> m[i] == UrlVar || m[i] == KeyVar
    ensures forall i, j :: 0 <= i < j < |m| ==> m[i] == UrlVar && m[j] == KeyVar
  {
    (if Missing(c.SUPABASE_URL) then [UrlVar] else []) +
    (if Missing(c.SUPABASE_KEY) then [KeyVar] else [])
  }

  /** `missing.join(", ")`. */
  function JoinNames(names: seq<string>): (r: string)
    ensures names == [] ==> r == ""
    ensures |names| == 1 ==> r == names[0]
    ensures names != [] ==> |r| >= |names[0]| && r[..|names[0]|] == names[0]
  {
    if names == [] then ""
    else if |names| == 1 then names[0]
    else names[0] + ", " + JoinNames(names[1..])
  }

  const MissingPrefix := "[env] Missing required environment variables: "

  /** The logged line: the fixed prefix, then the names joined with ", ". */
  function MissingMessage(missing: seq<string>): (m: string)
    ensures |m| == |MissingPrefix| + |JoinNames(missing)|
    ensures m[..|MissingPrefix|] == MissingPrefix && m[|MissingPrefix|..] == JoinNames(missing)
  {
    MissingPrefix + JoinNames(missing)
  }

  /**
   * `validateEnv(env)`: builds `missing` by pushing the absent names in order and
   * returns the message it would log; nothing is logged in production and the
   * configuration is never altered (it is a value here).
   */
  method ValidateEnv(c: Config) returns (missing: seq<string>, logged: Option<string>)
    ensures missing == MissingVars(c)
    ensures logged.Some? <==> missing != [] && c.NODE_ENV != "production"
    ensures logged.Some? ==> logged.value == MissingMessage(missing)
  {
    missing := [];
    if Missing(c.SUPABASE_URL) {
      missing := missing + [UrlVar];
    }
    if Missing(c.SUPABASE_KEY) {
      missing := missing + [KeyVar];
    }
    if |missing| > 0 && c.NODE_ENV != "production" {
      logged := Some(MissingMessage(missing));
    } else {
      logged := None;
    }
  }

  /** When both are missing, the report names both, URL first. */
  lemma BothMissingMessage(c: Config)
    requires Missing(c.SUPABASE_URL) && Missing(c.SUPABASE_KEY)
    ensures MissingMessage(MissingVars(c)) == MissingPrefix + UrlVar + ", " + KeyVar
  {
    assert MissingVars(c) == [UrlVar, KeyVar];
    assert JoinNames([UrlVar, KeyVar]) == UrlVar + ", " + JoinNames([KeyVar]);
  }

  /**
   * `isFeatureEnabled(key, defaultValue)`: `key in FEATURE_FLAGS` throws a TypeError
   * when the parsed flags are not an object; an own property gives its truthiness,
   * an Object.prototype name is present (and truthy) on every object, anything else
   * gives the default.
   */
  function IsFeatureEnabled(penv: map<string, string>, parse: string -> Option<JsValue>,
                            key: string, defaultValue: bool): (r: Result<bool>)
    ensures !GetEnv(penv, parse).FEATURE_FLAGS.Obj? <==> r.Throws?
    ensures "REACT_APP_FEATURE_FLAGS" !in penv && key !in InheritedNames ==> r == Ok(defaultValue)
    ensures GetEnv(penv, parse).FEATURE_FLAGS.Obj? && key in GetEnv(penv, parse).FEATURE_FLAGS.props ==>
      r == Ok(Truthy(GetEnv(penv, parse).FEATURE_FLAGS.props[key]))
    ensures GetEnv(penv, parse).FEATURE_FLAGS.Obj? && key !in GetEnv(penv, parse).FEATURE_FLAGS.props ==>
      r == Ok(key in InheritedNames || defaultValue)
  {
    var flags := GetEnv(penv, parse).FEATURE_FLAGS;
    if !flags.Obj? then Throws("Cannot use 'in' operator to search for '" + key + "'")
    else if key in flags.props then Ok(Truthy(flags.props[key]))
    else if key in InheritedNames then Ok(true)
    else Ok(defaultValue)
  }

  /** With no flags configured, an inherited name such as "toString" reads as enabled. */
  lemma InheritedNameReadsEnabled(penv: map<string, string>, parse: string -> Option<JsValue>)
    requires "REACT_APP_FEATURE_FLAGS" !in penv
    ensures IsFeatureEnabled(penv, parse, "toString", false) == Ok(true)
  {
  }

  /** `experimentsEnabled()`. */
  function ExperimentsEnabled(penv: map<string, string>, parse: string -> Option<JsValue>): (r: bool)
    ensures r <==> "REACT_APP_EXPERIMENTS_ENABLED" in penv && Trim(penv["REACT_APP_EXPERIMENTS_ENABLED"]) in TrueWords
  {
    GetEnv(penv, parse).EXPERIMENTS_ENABLED
  }
}
