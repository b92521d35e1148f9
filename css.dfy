/** `Utils.parseCSSValue`: splitting a margin into a number and a unit. */
module Css {
  import opened Values

  datatype Length = Length(value: real, unit: string)

  /** The number of a margin and its unit, where a missing unit falls back to
      `px`: a plain number always gets `px`, a string keeps the unit it
      spells out. */
  function ParseCssValue(v: CssValue): (r: Length)
    ensures r.unit != ""
    ensures v.CssNumber? ==> r == Length(v.n, "px")
    ensures v.CssText? ==> r.value == v.num
    ensures v.CssText? && v.unit != "" ==> r.unit == v.unit
    ensures v.CssText? && v.unit == "" ==> r.unit == "px"
  {
    var (numValue, unit) :=
      match v
      case CssText(num, u) => (num, u)
      case CssNumber(n) => (n, "");
    if |unit| == 0 then Length(numValue, "px") else Length(numValue, unit)
  }
}
