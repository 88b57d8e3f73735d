/** Exact arithmetic helpers: minimum, JavaScript's `Math.floor`/`Math.ceil`
    on reals, and a natural-number measure for loops whose cursor is a real
    that advances by at least a fixed positive step. */
module Arith {

  /** `Math.min` on lengths, which the model keeps as reals. */
  function Min(a: real, b: real): (r: real)
    ensures r <= a && r <= b
    ensures r == a || r == b
  {
    if a <= b then a else b
  }

  /** `Math.min` on counts (boxes, layers, quantities), which the model
      keeps as integers; Dafny's `real` and `int` are distinct types, so the
      two minima are separate functions. */
  function IntMin(a: int, b: int): (r: int)
    ensures r <= a && r <= b
    ensures r == a || r == b
  {
    if a <= b then a else b
  }

  function IntMax(a: int, b: int): (r: int)
    ensures r >= a && r >= b
    ensures r == a || r == b
  {
    if a <= b then b else a
  }

  /** `Math.floor(x)`. */
  function Floor(x: real): (r: int)
    ensures r as real <= x < r as real + 1.0
  {
    x.Floor
  }

  /** `Math.ceil(x)`. */
  function Ceil(x: real): (r: int)
    ensures x <= r as real < x + 1.0
  {
    -((-x).Floor)
  }

  /** How many more times a cursor can advance by `unit` before `span` (the
      distance left to the loop bound) turns negative. */
  function Ticks(span: real, unit: real): nat
    requires unit > 0.0
  {
    if span < 0.0 then 0 else (span / unit).Floor + 1
  }

  lemma TicksDecrease(span: real, advance: real, unit: real)
    requires unit > 0.0 && advance >= unit && span >= 0.0
    ensures Ticks(span - advance, unit) < Ticks(span, unit)
  {
    var q := span / unit;
    assert q * unit == span;
    assert q >= 0.0;
    if span - advance >= 0.0 {
      var q' := (span - advance) / unit;
      assert q' * unit == span - advance;
      assert (q - q') * unit == advance;
      assert q - q' >= 1.0;
    }
  }

  lemma MulNonNegative(a: real, b: real)
    requires a >= 0.0 && b >= 0.0
    ensures a * b >= 0.0
  {
  }

  /** Cell `k` of a row of `Floor(a / b)` cells of width `b` ends inside `a`. */
  lemma FloorCellFits(k: int, a: real, b: real)
    requires b > 0.0 && 0 <= k < Floor(a / b)
    ensures (k as real + 1.0) * b <= a
  {
    var q := a / b;
    assert q * b == a;
    assert k as real + 1.0 <= q;
    MulNonNegative(q - (k as real + 1.0), b);
  }

  /** Cells `i < j` of width `b > 0` do not overlap: cell `i` ends where cell `i + 1` starts. */
  lemma CellsOrdered(i: int, j: int, b: real)
    requires i < j && b > 0.0
    ensures i as real * b + b <= j as real * b
  {
    MulNonNegative(j as real - i as real - 1.0, b);
  }

  /** `Math.floor(a / b)` cells of width `b > 0` fit in `a`. */
  lemma FloorCellsFit(a: real, b: real)
    requires b > 0.0
    ensures Floor(a / b) as real * b <= a
  {
    var q := a / b;
    assert q * b == a;
    MulNonNegative(q - Floor(q) as real, b);
    assert (q - Floor(q) as real) * b == q * b - Floor(q) as real * b;
  }

  /** One cell more than `Math.floor(a / b)` does not fit in `a`. */
  lemma FloorCellsMaximal(a: real, b: real)
    requires b > 0.0
    ensures a < (Floor(a / b) as real + 1.0) * b
  {
    var q := a / b;
    assert q * b == a;
    var n := Floor(q) as real + 1.0;
    assert n - q > 0.0;
    assert (n - q) * b > 0.0;
    assert (n - q) * b == n * b - q * b;
  }

  /** A cell no wider than `a` fits at least once. */
  lemma AtLeastOneCell(n: int, a: real, b: real)
    requires 0.0 < b <= a < (n + 1) as real * b
    ensures n >= 1
  {
    assert (n + 1) as real * b == n as real * b + b;
    PositiveFactor(n as real, b);
  }

  lemma PositiveFactor(x: real, b: real)
    requires b > 0.0 && x * b > 0.0
    ensures x > 0.0
  {
  }
}
