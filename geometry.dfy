/** The `calc()` formulas that `updateSlides` and `updatePosition` build:
    the width of one slide, its side margin and the offset of the slides
    container for a position. They are symbolic; `Eval` gives the number of
    pixels a formula stands for once the container width and the size of one
    margin unit are known. */
module Geometry {

  datatype Expr =
    | Empty                          // the formula string before any width was computed
    | Pct(p: real)                   // p% of the container width
    | Dim(v: real, unit: string)     // v margin units
    | Const(v: real)                 // a plain number
    | Sub(a: Expr, b: Expr)          // a - b
    | Mul(a: Expr, k: real)          // a * k
    | Div(a: Expr, k: real)          // a / k

  /** An `Empty` formula nowhere inside. */
  predicate WellFormed(e: Expr)
  {
    match e
    case Empty => false
    case Sub(a, b) => WellFormed(a) && WellFormed(b)
    case Mul(a, _) => WellFormed(a)
    case Div(a, k) => WellFormed(a) && k != 0.0
    case _ => true
  }

  /** Pixels a formula stands for in a container `c` pixels wide, where one
      margin unit is `px` pixels. */
  function Eval(e: Expr, c: real, px: real): real
  {
    match e
    case Empty => 0.0
    case Pct(p) => p * c / 100.0
    case Dim(v, _) => v * px
    case Const(v) => v
    case Sub(a, b) => Eval(a, c, px) - Eval(b, c, px)
    case Mul(a, k) => Eval(a, c, px) * k
    case Div(a, k) => if k == 0.0 then 0.0 else Eval(a, c, px) / k
  }

  /** The width of one slide for `group` slides side by side with `margin`
      units between neighbours (src/flexiSlider.js:174-183). */
  function SlideWidth(group: int, margin: real, unit: string): (r: Expr)
    requires group >= 1
    ensures WellFormed(r)
  {
    var base := if group > 1 then Div(Pct(100.0), group as real) else Pct(100.0);
    if margin != 0.0 then Sub(base, Dim((margin / group as real) * (group - 1) as real, unit)) else base
  }

  /** The margin on each side of a slide (src/flexiSlider.js:186). */
  function SideMargin(margin: real, unit: string): (r: Expr)
    ensures WellFormed(r)
    ensures forall c, px :: 2.0 * Eval(r, c, px) == margin * px
  {
    Dim(margin / 2.0, unit)
  }

  /** The translation of the slides container for position `pos`, given the
      slide width formula stored by the last `updateSlides`
      (src/flexiSlider.js:209-220). */
  function Offset(pos: int, width: Expr, margin: real, unit: string): (r: Expr)
    ensures WellFormed(width) ==> WellFormed(r)
    ensures pos == 0 && margin == 0.0 ==> r == Const(0.0)
  {
    if pos != 0 then
      var shift := Mul(width, -pos as real);
      if margin != 0.0 then Sub(Sub(shift, Dim(margin * pos as real, unit)), Div(Dim(margin, unit), 2.0))
      else shift
    else if margin != 0.0 then Div(Dim(-margin, unit), 2.0)
    else Const(0.0)
  }

  /** `group` slides and the `group - 1` margins between them fill the
      container exactly, whatever its width and the size of a margin unit. */
  lemma SlideWidthFillsContainer(group: int, margin: real, unit: string, c: real, px: real)
    requires group >= 1
    ensures group as real * Eval(SlideWidth(group, margin, unit), c, px) + (group - 1) as real * margin * px == c
  {
    var g := group as real;
    var base := if group > 1 then Div(Pct(100.0), g) else Pct(100.0);
    assert Eval(Pct(100.0), c, px) == c;
    if group > 1 {
      assert Eval(base, c, px) == c / g;
      assert g * (c / g) == c;
    } else {
      assert g == 1.0 && Eval(base, c, px) == c;
    }
    assert g * Eval(base, c, px) == c;
    if margin != 0.0 {
      var gap := (margin / g) * (g - 1.0);
      calc {
        g * Eval(SlideWidth(group, margin, unit), c, px);
        g * (Eval(base, c, px) - gap * px);
        g * Eval(base, c, px) - g * gap * px;
        { assert g * gap == margin * (g - 1.0); }
        c - margin * (g - 1.0) * px;
      }
    }
  }

  /** Every position, the first included, is shifted left by `pos` slides
      plus `pos` margins and by a further half margin, so that the margin
      before the first visible slide is hidden. At position 0 this leaves
      `-margin / 2`, and 0 when there is no margin. That half margin is the
      side margin of the first visible slide. */
  lemma OffsetShiftsWholeSlides(pos: int, width: Expr, margin: real, unit: string, c: real, px: real)
    ensures Eval(Offset(pos, width, margin, unit), c, px)
            == -(pos as real) * (Eval(width, c, px) + margin * px) - margin * px / 2.0
    ensures Eval(Offset(pos, width, margin, unit), c, px)
            == -(pos as real) * (Eval(width, c, px) + margin * px) - Eval(SideMargin(margin, unit), c, px)
  {
    if pos != 0 && margin != 0.0 {
      OffsetMovedWithMargin(pos, width, margin, unit, c, px);
    } else if pos != 0 {
      OffsetMovedNoMargin(pos, width, margin, unit, c, px);
    } else {
      OffsetAtStart(width, margin, unit, c, px);
    }
  }

  /** `OffsetShiftsWholeSlides` away from the start, with a margin. */
  lemma OffsetMovedWithMargin(pos: int, width: Expr, margin: real, unit: string, c: real, px: real)
    requires pos != 0 && margin != 0.0
    ensures Eval(Offset(pos, width, margin, unit), c, px)
            == -(pos as real) * (Eval(width, c, px) + margin * px) - margin * px / 2.0
  {
    var w := Eval(width, c, px);
    var p := pos as real;
    var inner := Sub(Mul(width, -pos as real), Dim(margin * pos as real, unit));
    assert Offset(pos, width, margin, unit) == Sub(inner, Div(Dim(margin, unit), 2.0));
    assert Eval(inner, c, px) == w * -p - (margin * p) * px;
    assert Eval(Div(Dim(margin, unit), 2.0), c, px) == (margin * px) / 2.0;
    ShiftArithmetic(w, p, margin, px);
  }

  /** `OffsetShiftsWholeSlides` away from the start, without a margin. */
  lemma OffsetMovedNoMargin(pos: int, width: Expr, margin: real, unit: string, c: real, px: real)
    requires pos != 0 && margin == 0.0
    ensures Eval(Offset(pos, width, margin, unit), c, px)
            == -(pos as real) * (Eval(width, c, px) + margin * px) - margin * px / 2.0
  {
    assert Offset(pos, width, margin, unit) == Mul(width, -pos as real);
  }

  /** `OffsetShiftsWholeSlides` at position 0. */
  lemma OffsetAtStart(width: Expr, margin: real, unit: string, c: real, px: real)
    ensures Eval(Offset(0, width, margin, unit), c, px)
            == -(0 as real) * (Eval(width, c, px) + margin * px) - margin * px / 2.0
  {
    if margin != 0.0 {
      assert Offset(0, width, margin, unit) == Div(Dim(-margin, unit), 2.0);
    }
  }

  /** The rearrangement of the sum behind `OffsetMovedWithMargin`. */
  lemma ShiftArithmetic(w: real, p: real, m: real, px: real)
    ensures w * -p - (m * p) * px - (m * px) / 2.0 == -p * (w + m * px) - m * px / 2.0
  {
    assert (m * p) * px == p * (m * px);
    assert -p * (w + m * px) == w * -p - p * (m * px);
  }
}
