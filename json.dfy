/** JSON values as the server handlers see them after `request.get_json()`,
    Python's truthiness on them, `dict.get`, and the `(body, status)` pair a
    Flask handler returns. */
module Json {
  import Text

  /** A JSON value.  Arrays and objects occur only as values the handlers
      store or test for truthiness, so only their size is kept. */
  datatype Value = Null | Bool(b: bool) | Num(n: int) | Str(s: string) | Composite(size: nat)

  /** Python's `bool(v)`. */
  predicate Truthy(v: Value)
  {
    match v
    case Null => false
    case Bool(b) => b
    case Num(n) => n != 0
    case Str(s) => s != ""
    case Composite(size) => size > 0
  }

  /** `data.get(key, default)`. */
  function Get(data: map<string, Value>, key: string, default: Value): (v: Value)
    ensures key in data ==> v == data[key]
    ensures key !in data ==> v == default
  {
    if key in data then data[key] else default
  }

  /** Python's `str(v)`, as an f-string writes it.  A collection keeps only
      its size here, so it is written as a placeholder. */
  function Render(v: Value): string
  {
    match v
    case Null => "None"
    case Bool(b) => if b then "True" else "False"
    case Num(n) => if n < 0 then "-" + Text.NatToString(-n) else Text.NatToString(n)
    case Str(s) => s
    case Composite(_) => "[...]"
  }

  /** What a handler returns: the HTTP status and the JSON object sent back. */
  datatype Reply = Reply(status: nat, body: map<string, Value>)

  /** `jsonify({"message": text}), status`. */
  function Message(status: nat, text: string): (r: Reply)
    ensures r.status == status && r.body.Keys == {"message"} && r.body["message"] == Str(text)
  {
    Reply(status, map["message" := Str(text)])
  }

  /** Flask's reply to an exception the handler does not catch (an HTML page, no JSON). */
  const InternalServerError := Reply(500, map[])
}
