/** JSON values, as both runtimes see them after a lossless decode. */
module JsonValues {

  /**
   * `Int` is a number literal without fraction or exponent, `Float` any other number literal.
   * JavaScript gives both the type "number"; Python decodes them to `int` and `float`.
   */
  datatype Json =
    | Null
    | Bool(b: bool)
    | Int(n: int)
    | Float(x: real)
    | Str(s: string)
    | Arr(items: seq<Json>)
    | Obj(members: map<string, Json>)

  predicate IsNumber(v: Json) {
    v.Int? || v.Float?
  }

  type Number = v: Json | IsNumber(v) witness Int(0)

  /** A member that is absent, or present and null, reads as null. */
  function Get(m: map<string, Json>, key: string): Json {
    if key in m then m[key] else Null
  }
}
