/** Values as they reach the server's handlers: JSON request-body fields, query-string
    parameters, and the optional value wrapper used throughout the model. */
module Values {

  datatype Option<+T> = None | Some(value: T)

  /** A request-body field: absent (`undefined`), an explicit JSON `null`, or a string.
      The same values are what the controllers write into table columns. */
  datatype JsValue = Undefined | Null | Str(s: string)

  /** JavaScript truthiness restricted to `JsValue`: only a non-empty string is truthy. */
  predicate Truthy(v: JsValue) {
    v.Str? && v.s != ""
  }

  /** JavaScript `a || b`. */
  function Or(a: JsValue, b: JsValue): JsValue {
    if Truthy(a) then a else b
  }

  /** Truthiness of a query-string parameter (absent, or a possibly empty string). */
  predicate TruthyParam(p: Option<string>) {
    p.Some? && p.value != ""
  }
}
