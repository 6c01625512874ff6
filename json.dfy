/**
 * JSON values as the news API delivers them after `response.json()`.
 * Numbers are kept as integers: no floating point is modelled.
 */
module Json {

  datatype Value =
    | Null
    | Bool(b: bool)
    | Number(n: int)
    | Str(s: string)
    | Array(items: seq<Value>)
    | Object(members: map<string, Value>)
}
