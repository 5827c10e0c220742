/** Client dictionaries and the Python conversions applied to their values. */
module Clients {
  import opened Wrappers

  /** A JSON value of a client field. Python's booleans are the numbers 0 and 1. */
  datatype Value = Null | Num(n: real) | Text(s: string) | Items(xs: seq<string>)

  type Client = map<string, Value>

  const INCOME := "renda_estimada_anual_brl"
  const INCOME_PERCENTILE := "_renda_pct"
  const SEGMENTS := "segmentos_sinteticos"

  /** What Python's float() makes of a text (`None` is a ValueError). */
  type Parser = string -> Option<real>

  predicate Truthy(v: Value) {
    match v
    case Null => false
    case Num(n) => n != 0.0
    case Text(s) => s != ""
    case Items(xs) => xs != []
  }

  /** client.get(key, default) */
  function Get(client: Client, key: string, default: Value): Value {
    if key in client then client[key] else default
  }

  /** client.get(key, default) or default */
  function GetOr(client: Client, key: string, default: Value): Value {
    var v := Get(client, key, default);
    if Truthy(v) then v else default
  }

  /** float(value) */
  function ToFloat(v: Value, parse: Parser): Option<real> {
    match v
    case Num(n) => Some(n)
    case Text(s) => parse(s)
    case _ => None
  }

  predicate EndsWith(key: string, suffix: string) {
    |suffix| <= |key| && key[|key| - |suffix|..] == suffix
  }

  /** key without its last n characters */
  function Chop(key: string, n: nat): string
    requires n <= |key|
  {
    key[..|key| - n]
  }
}
