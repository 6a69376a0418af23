/** Decoded JSON values, with the parts of Python's behaviour on them
    that the bot relies on. */
module JsonValue {

  /** A value produced by decoding a JSON body. `JOther` carries a number
      or a boolean by the text Python's `str()` gives it (`5`, `2.5`,
      `True`). Objects are maps: Python compares dicts without regard to
      key order, and so does `==` here. */
  datatype Json =
    | JNull
    | JStr(s: string)
    | JList(items: seq<Json>)
    | JObject(fields: map<string, Json>)
    | JOther(text: string)
  {
    /** Values a Python dict can be searched for: everything but lists
        and dicts, whose `in` test raises TypeError (unhashable). */
    predicate Hashable() {
      !JList? && !JObject?
    }
  }

  /** The text Python's `str()` gives a decoded value, as used by an
      f-string. Lists and dicts are not rendered element by element. */
  function Str(j: Json): string
  {
    match j
    case JNull => "None"
    case JStr(s) => s
    case JOther(text) => text
    case JList(_) => "[...]"
    case JObject(_) => "{...}"
  }

  /** `d.get(key)` on a dict: the value under `key`, or None when the key
      is absent. */
  function Get(fields: map<string, Json>, key: string): Json
  {
    if key in fields then fields[key] else JNull
  }
}
