/** Request and response vocabulary shared by both handlers. */
module Http {
  import opened Wrappers

  /**
   * One query-string parameter of a redirect. The value is the text before
   * `encodeURIComponent` is applied; percent-encoding is not modelled.
   */
  datatype QueryParam = QueryParam(key: string, value: string)

  /** JavaScript's `v || fallback` for a value that is absent or a string: "" is falsy. */
  function OrElse(v: Option<string>, fallback: string): (r: string)
    // the result is falsy only when both sides are
    ensures r == "" <==> (v.None? || v.value == "") && fallback == ""
    // a result other than the fallback is the value itself
    ensures r != fallback ==> v == Some(r)
  {
    if v.Some? && v.value != "" then v.value else fallback
  }

  /** A present, non-empty value wins over any fallback; otherwise the fallback is taken. */
  lemma OrElseValue(v: Option<string>, fallback: string)
    ensures v.Some? && v.value != "" ==> OrElse(v, fallback) == v.value
    ensures v.None? || v.value == "" ==> OrElse(v, fallback) == fallback
  {
  }

  /** A field-level error reported by the commerce backend's GraphQL mutation. */
  datatype UserError = UserError(field: seq<string>, message: string)
}
