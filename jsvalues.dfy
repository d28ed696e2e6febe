/**
 * The loosely typed values the converted documents are made of: JSON as the
 * document store hands it over, and the `string | null | undefined` fields the
 * converters test for truthiness or interpolate into template strings.
 */
module JsValues {
  import opened Wrappers

  /** A JSON value. `undefined` is not a value: an absent field is an absent map key or a `None`. */
  datatype Json =
    | JNull
    | JBool(b: bool)
    | JNum(n: real)
    | JStr(s: string)
    | JArr(elems: seq<Json>)
    | JObj(fields: map<string, Json>)
  {
    /** JavaScript truthiness (`NaN` is not a number of this model). */
    predicate Truthy() {
      match this
      case JNull => false
      case JBool(b) => b
      case JNum(n) => n != 0.0
      case JStr(s) => s != ""
      case JArr(_) => true
      case JObj(_) => true
    }
  }

  /** A text field of a document that may also be `null` or missing. */
  datatype JsString = Undefined | Null | Str(value: string) {
    /** `!!t`: only a non-empty string is truthy. */
    predicate Truthy() {
      Str? && value != ""
    }

    /** What a template literal `${t}` or a concatenation `'' + t` produces. */
    function Show(): string {
      match this
      case Undefined => "undefined"
      case Null => "null"
      case Str(s) => s
    }

    /** `t ?? d`: the default replaces `null` and `undefined`, not the empty string. */
    function Or(d: string): string {
      if Str? then value else d
    }

    /** The value stored in an object for this field; `None` when it is `undefined`. */
    function ToJson(): Option<Json> {
      match this
      case Undefined => None
      case Null => Some(JNull)
      case Str(s) => Some(JStr(s))
    }
  }
}
