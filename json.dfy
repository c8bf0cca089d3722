/** JSON values as the Python `json` module decodes them, and the typed field
    lookups the wrapper classes perform on a decoded object (a Python `dict`). */
module Json {

  /** A decoded JSON value. Numbers are integers: every numeric field the
      wrappers read (`duration_ms`, `total_tracks`) is integral. */
  datatype Json =
    | JNull
    | JBool(b: bool)
    | JNum(n: int)
    | JStr(s: string)
    | JArr(items: seq<Json>)
    | JObj(fields: map<string, Json>)

  /** A decoded JSON object: the `raw_json` dict a wrapper stores. */
  type Payload = map<string, Json>

  /** `p[key]` exists and is a string. */
  predicate HasString(p: Payload, key: string) {
    key in p && p[key].JStr?
  }

  /** `p[key]` exists and is a boolean. */
  predicate HasBool(p: Payload, key: string) {
    key in p && p[key].JBool?
  }

  /** `p[key]` exists and is a non-negative integer. */
  predicate HasNat(p: Payload, key: string) {
    key in p && p[key].JNum? && p[key].n >= 0
  }

  /** `p[key]` exists and is a list. */
  predicate HasList(p: Payload, key: string) {
    key in p && p[key].JArr?
  }

  /** `p[key]` read as a string. */
  function GetString(p: Payload, key: string): (r: string)
    requires HasString(p, key)
    ensures p[key] == JStr(r)
  {
    p[key].s
  }

  /** `p[key]` read as a boolean. */
  function GetBool(p: Payload, key: string): (r: bool)
    requires HasBool(p, key)
    ensures p[key] == JBool(r)
  {
    p[key].b
  }

  /** `p[key]` read as a non-negative integer. */
  function GetNat(p: Payload, key: string): (r: nat)
    requires HasNat(p, key)
    ensures p[key] == JNum(r)
  {
    p[key].n
  }

  /** `p[key]` read as a list. */
  function GetList(p: Payload, key: string): (r: seq<Json>)
    requires HasList(p, key)
    ensures p[key] == JArr(r)
  {
    p[key].items
  }
}
