/** The JSON-like payloads that the schema validators inspect. */
module JsonValue {

  /**
   * A payload as it reaches a validator. Numbers are JavaScript numbers;
   * a schema only asks whether a value is a (finite) number, so an integer
   * stands for any of them. An object maps field names to values.
   */
  datatype Json =
    | JNull
    | JBool(b: bool)
    | JNum(n: int)
    | JStr(s: string)
    | JArr(elems: seq<Json>)
    | JObj(fields: map<string, Json>)

  /** `Type.String()` */
  predicate IsString(v: Json) {
    v.JStr?
  }

  /** `Type.String({ minLength: 1 })` */
  predicate IsNonEmptyString(v: Json) {
    v.JStr? && |v.s| >= 1
  }

  /** `Type.Number()` */
  predicate IsNumber(v: Json) {
    v.JNum?
  }

  /** `Type.Boolean()` */
  predicate IsBoolean(v: Json) {
    v.JBool?
  }

  /** `Type.Literal(lit)` for a string literal. */
  predicate IsLiteral(v: Json, lit: string) {
    v == JStr(lit)
  }

  /**
   * `Type.Object(props, { additionalProperties: false })` with every property
   * required: an object whose field names are exactly `keys`.
   */
  predicate IsStrictObject(v: Json, keys: set<string>) {
    v.JObj? && v.fields.Keys == keys
  }
}
