/** Reading values out of the loosely typed configuration sections of the
    accounts file (costpuller.go `getMapKeyValue`, `getMapKeyString`,
    `getStringFromAny`). A missing mandatory key or a value of the wrong type
    stops the run; here that is a `Failure`. */
module Config {
  import opened Wrappers

  /** A YAML value as Go's `any` holds it: a string, nil, or anything else
      (a number, a list, a mapping), which only matters by not being a string. */
  datatype Any = Str(s: string) | Nil | Other(description: string)

  type Configuration = map<string, Any>

  datatype ConfigError =
    | MissingKey(key: string, section: string)
    | NotAString(key: string, section: string, found: Any)
    | UnexpectedValue(found: Any, message: string)

  /** The value at `key`; when it is absent, a failure if the caller named the
      section the key belongs in, and otherwise the type's zero value. */
  function GetMapKeyValue<V>(m: map<string, V>, key: string, section: string, zero: V): (r: Result<V, ConfigError>)
    ensures r.Failure? <==> key !in m && section != ""
    ensures r.Failure? ==> r.error == MissingKey(key, section)
    ensures r.Success? ==> r.value == if key in m then m[key] else zero
  {
    if key in m then Success(m[key])
    else if section != "" then Failure(MissingKey(key, section))
    else Success(zero)
  }

  /** The string at `key`. A present nil value and, with an empty section name,
      an absent key both read as the empty string; any other kind of value fails. */
  function GetMapKeyString(m: Configuration, key: string, section: string): (r: Result<string, ConfigError>)
    ensures r.Success? <==> (key in m && !m[key].Other?) || (key !in m && section == "")
    ensures r.Success? ==> r.value == if key in m && m[key].Str? then m[key].s else ""
    ensures r.Failure? && key in m ==> r.error == NotAString(key, section, m[key])
  {
    var valueAny :- GetMapKeyValue(m, key, section, Nil);
    match valueAny
    case Str(s) => Success(s)
    case Nil => Success("")
    case Other(_) => Failure(NotAString(key, section, valueAny))
  }

  /** Converts a value that should be a string; nil reads as the empty string. */
  function GetStringFromAny(anyValue: Any, message: string): (r: Result<string, ConfigError>)
    ensures r.Failure? <==> anyValue.Other?
    ensures r.Success? ==> r.value == if anyValue.Str? then anyValue.s else ""
  {
    match anyValue
    case Str(s) => Success(s)
    case Nil => Success("")
    case Other(_) => Failure(UnexpectedValue(anyValue, message))
  }
}
