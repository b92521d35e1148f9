/** The values the slider stores in its settings and passes to its hooks. */
module Values {

  datatype Option<+T> = None | Some(value: T)

  /** A CSS length as a layout rule gives its margin: a plain number, or a
      non-empty string given by the number `parseFloat` reads from it and the
      text left after its first run of digits, dots and spaces is removed. */
  datatype CssValue = CssNumber(n: real) | CssText(num: real, unit: string)

  /** One caller-supplied layout rule; an absent property is `None`. */
  datatype Rule = Rule(width: Option<int>, group: Option<int>, scroll: Option<int>, margin: Option<CssValue>)

  /** The upper end of a resolved range: `width - 1` of the next rule,
      `Infinity` for the last rule, or `NaN` when the next rule has no width
      (`undefined - 1`). */
  datatype Bound = Finite(n: int) | PosInfinity | NaN

  /** A resolved layout: the pixel range it covers plus the properties of the
      default rule (`group`, `scroll`, `margin`) that the rule defined. */
  datatype SlideLayout = SlideLayout(fromPx: int, toPx: Bound, group: Option<int>, scroll: Option<int>, margin: Option<CssValue>)

  /** A setting value. `Rules` is an array of layout rule objects, `Layout` a
      resolved layout object; strings, numbers and booleans are themselves. */
  datatype Value =
    | Undefined
    | Null
    | Bool(b: bool)
    | Num(n: real)
    | Str(s: string)
    | Rules(rules: seq<Rule>)
    | Layout(layout: SlideLayout)

  /** JavaScript truthiness of a value (NaN is not modelled). */
  predicate Truthy(v: Value)
  {
    match v
    case Undefined => false
    case Null => false
    case Bool(b) => b
    case Num(n) => n != 0.0
    case Str(s) => s != ""
    case Rules(_) => true
    case Layout(_) => true
  }

  /** Truthiness of an optional numeric property such as `ro.width` or `layout.group`. */
  predicate Present(x: Option<int>)
  {
    x.Some? && x.value != 0
  }

  /** Truthiness of a rule's `margin`: a number is truthy unless 0, a non-empty string always. */
  predicate MarginPresent(m: Option<CssValue>)
  {
    match m
    case None => false
    case Some(CssNumber(n)) => n != 0.0
    case Some(CssText(_, _)) => true
  }
}
