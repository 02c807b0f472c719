/**
 * Decoded JSON values and the configuration mapping built from them.
 * A JSON object is the only kind of value the deep merge treats as a mapping.
 */
module JsonValue {

  import opened Wrappers

  /** A decoded JSON value. Numbers are kept opaque, as the literal text they were written with. */
  datatype Json =
    | Null
    | Bool(b: bool)
    | Number(text: string)
    | Str(s: string)
    | Array(items: seq<Json>)
    | Object(fields: map<string, Json>)

  /** A configuration: a mapping from string keys to JSON values. */
  type Config = map<string, Json>

  /**
   * The value found by following `path` from the mapping `d`, one key per level;
   * None when a key is missing or an intermediate value is not an object.
   */
  function Lookup(d: Config, path: seq<string>): Option<Json>
    requires path != []
    decreases |path|
  {
    if path[0] !in d then None
    else if |path| == 1 then Some(d[path[0]])
    else match d[path[0]]
      case Object(m) => Lookup(m, path[1..])
      case _ => None
  }
}
