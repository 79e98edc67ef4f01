/**
 * A value as `JSON.parse` returns it. Numbers are kept as reals (nothing
 * computes with them); an object is a map from keys to values, since
 * `JSON.parse` keeps the last of repeated keys and key order is never observed.
 */
module Json {

  datatype JValue =
    | JNull
    | JBool(b: bool)
    | JNum(n: real)
    | JStr(s: string)
    | JArr(items: seq<JValue>)
    | JObj(fields: map<string, JValue>)
}
