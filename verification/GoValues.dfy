/** Decoded JSON: the dynamic values behind Go's `any`. */
module GoValues {
  import opened Options

  /** `Int`, `Float` and `Number` are the three Go types a JSON number can take:
      `int` in a schema written in Go, `float64` after plain decoding and
      `json.Number` after decoding with `UseNumber`.  `parsed` is what
      `Number.Float64` yields for the text, `None` where it fails. */
  datatype Value =
    | Nil
    | Bool(b: bool)
    | Int(n: int)
    | Float(x: real)
    | Number(text: string, parsed: Option<real>)
    | Str(s: string)
    | List(items: seq<Value>)
    | Object(fields: map<string, Value>)

  type Fields = map<string, Value>

  /** `v, _ := m[key]`: a missing key reads as nil. */
  function Get(m: Fields, key: string): (v: Value)
    ensures key in m ==> v == m[key]
    ensures key !in m ==> v == Nil
  {
    if key in m then m[key] else Nil
  }

  /** `s, _ := v.(string)`: the zero value if `v` holds something else. */
  function StringOr(v: Value): string {
    if v.Str? then v.s else ""
  }
}
