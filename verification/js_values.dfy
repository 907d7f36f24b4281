/** JavaScript values as the listing page sees them in a decoded JSON payload:
    a field may be missing (`undefined`), `null`, or hold a value. JavaScript's
    truthiness, which drives every `a || b` default, is made explicit here. */
module JsValues {

  /** A property read: absent, JSON `null`, or a value. */
  datatype Opt<+T> = Undefined | Null | Defined(value: T)

  /** `s || d` for a string-valued field: only a non-empty string is truthy. */
  predicate TextTruthy(o: Opt<string>) {
    o.Defined? && o.value != ""
  }

  /** The result of `o || d` when `o` is string-valued. */
  function TextOr(o: Opt<string>, d: string): (r: string)
    ensures TextTruthy(o) ==> r == o.value
    ensures !TextTruthy(o) ==> r == d
    ensures r == "" ==> d == ""
  {
    if TextTruthy(o) then o.value else d
  }

  /** How a template literal `${o}` renders a string-valued field. */
  function TemplateText(o: Opt<string>): (r: string)
    ensures o.Defined? ==> r == o.value
    ensures o.Undefined? ==> r == "undefined"
    ensures o.Null? ==> r == "null"
  {
    match o
    case Undefined => "undefined"
    case Null => "null"
    case Defined(s) => s
  }
}
