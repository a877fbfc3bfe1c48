/**
 * A JSON document as a tree. The model never parses or prints JSON text:
 * the parser the client calls (`JSONObject(text)`) is a parameter of the
 * operations that need it, and the serializer's output is this tree.
 */
module JsonTree {

  datatype Json =
    | JNull
    | JBool(b: bool)
    | JNumber(n: int)
    | JString(str: string)
    | JArray(items: seq<Json>)
    | JObject(fields: map<string, Json>)
}
