/**
 * The dynamically typed values a parsed row or a query string can hold,
 * with JavaScript's truthiness and its `String(value)` conversion.
 */
module Values {
  import opened Text

  /**
   * A JavaScript value as far as the catalog rules look at it. Numbers are
   * integers here; objects and arrays do not occur in parsed rows.
   */
  datatype Value = Undefined | Null | Bool(b: bool) | Num(n: int) | Str(s: string)

  /** The falsy values of JavaScript that a row or a query string can hold. */
  const Falsy: seq<Value> := [Undefined, Null, Bool(false), Num(0), Str("")]

  /** `!!v`: false for undefined, null, false, 0 and the empty string. */
  predicate Truthy(v: Value) {
    match v
    case Undefined => false
    case Null => false
    case Bool(b) => b
    case Num(n) => n != 0
    case Str(s) => s != []
  }

  /** A value is truthy exactly when it is none of the falsy values. */
  lemma TruthyIffNotFalsy(v: Value)
    ensures Truthy(v) <==> v !in Falsy
  {
  }

  /** `String(v)`, which is also what a template literal inserts. */
  function ToJsString(v: Value): (r: string)
    ensures v.Str? ==> r == v.s
    ensures v.Num? ==> r != [] && (v.n >= 0 ==> AllDigits(r))
  {
    match v
    case Undefined => "undefined"
    case Null => "null"
    case Bool(b) => if b then "true" else "false"
    case Num(n) => IntToString(n)
    case Str(s) => s
  }

  /**
   * `String(v)` of a number reads back as the number, after a minus sign
   * when it is negative; a boolean is written as a word; and a value that is
   * not a string is written without surrounding whitespace.
   */
  lemma ToJsStringReadsBack(v: Value)
    ensures v.Num? && v.n >= 0 ==> AllDigits(ToJsString(v)) && DigitsValue(ToJsString(v)) == v.n
    ensures v.Num? && v.n < 0 ==> var r := ToJsString(v);
              r[0] == '-' && AllDigits(r[1..]) && DigitsValue(r[1..]) == -v.n
    ensures v.Bool? ==> ToJsString(v) == (if v.b then "true" else "false")
    ensures !v.Str? ==> var r := ToJsString(v);
              r != [] && !IsWhitespace(r[0]) && !IsWhitespace(r[|r| - 1])
  {
    if v.Num? {
      IntToStringReadsBack(v.n);
    }
  }

  /** The value after Joi's `trim()` conversion: strings are trimmed, anything else is kept. */
  function TrimValue(v: Value): (r: Value)
    ensures r.Str? <==> v.Str?
    ensures !v.Str? ==> r == v
    ensures v.Str? ==> r.s == Trim(v.s)
    ensures v.Str? ==> |r.s| <= |v.s| && (r.s == [] <==> AllWhitespace(v.s))
  {
    if v.Str? then TrimEmptyIffBlank(v.s); Str(Trim(v.s)) else v
  }
}
