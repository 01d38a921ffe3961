/**
 * A parsed JSON value. The client (JavaScript's `response.json()`) and the
 * server (Python's `request.get_json()`, `json.loads`) see the same shapes:
 * `null`/`None`, booleans, numbers, strings, arrays/lists and objects/dicts.
 */
module Json {

  /** Numbers are integers in this model. */
  datatype Value =
    | Null
    | Bool(b: bool)
    | Num(n: int)
    | Str(s: string)
    | Arr(items: seq<Value>)
    | Obj(fields: map<string, Value>)

  /** What a JSON parser makes of a text: a value, or a syntax error with its message. */
  datatype Parse = Parsed(value: Value) | SyntaxError(message: string)
}
