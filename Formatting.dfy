/**
 * The value formatter adapter: the display-unit policy that picks the unit code
 * handed to the external number formatter, and the absolute value applied to the
 * progression value. The external formatter itself is a function parameter.
 */
module Formatting {

  /**
   * The external number formatter: (value, format string, unit code, precision) to text.
   * Its behaviour is not part of this model.
   */
  type Formatter = (real, string, int, real) -> string

  const Thousand: real := 1000.0
  const Million: real := 1000000.0
  const Billion: real := 1000000000.0
  const Trillion: real := 1000000000000.0

  /** The unit codes the adapter can hand to the formatter: none, thousands, millions, billions, trillions. */
  predicate IsUnitCode(code: int)
  {
    code == 0 || code == 1001 || code == 1000000 || code == 1000000000 || code == 1000000000000
  }

  /** The unit code for the display-unit setting `displayUnit` and the value `v`; 0 in the setting is auto. */
  function UnitCode(displayUnit: real, v: real): (code: int)
    ensures IsUnitCode(code)
    ensures displayUnit == 1.0 ==> code == 0
    ensures displayUnit == Thousand ==> code == 1001
    ensures displayUnit == Million ==> code == 1000000
    ensures displayUnit == Billion ==> code == 1000000000
    ensures displayUnit == Trillion ==> code == 1000000000000
  {
    if displayUnit == 0.0 then
      if v < Thousand then 0
      else if v < Million then 1001
      else if v < Billion then 1000000
      else if v < Trillion then 1000000000
      else 1000000000000
    else if displayUnit == 1.0 then 0
    else if displayUnit == Thousand then 1001
    else if displayUnit == Million then 1000000
    else if displayUnit == Billion then 1000000000
    else if displayUnit == Trillion then 1000000000000
    else 1001
  }

  /** The magnitude a unit code divides by (code 1001 stands for thousands). */
  function Magnitude(code: int): real
  {
    if code == 0 then 1.0 else if code == 1001 then Thousand else code as real
  }

  /**
   * The formatted text of `v` under the unit policy: the formatter is handed `v`
   * itself with one of the five unit codes; a fixed display unit picks the code
   * whatever the value, and in auto mode a value below a thousand gets none.
   */
  function FormatMeasure(fmt: Formatter, v: real, format: string, displayUnit: real, precision: real): (r: string)
    ensures exists code :: IsUnitCode(code) && r == fmt(v, format, code, precision)
    ensures displayUnit != 0.0 ==> r == fmt(v, format, UnitCode(displayUnit, 0.0), precision)
    ensures displayUnit == 0.0 && v < Thousand ==> r == fmt(v, format, 0, precision)
    ensures displayUnit == 0.0 ==> r == fmt(v, format, UnitCode(0.0, v), precision)
  {
    assert IsUnitCode(UnitCode(displayUnit, v));
    fmt(v, format, UnitCode(displayUnit, v), precision)
  }

  /** `_abs`: the magnitude of `x`. */
  function Abs(x: real): (r: real)
    ensures r >= 0.0
    ensures x >= 0.0 ==> r == x
    ensures x < 0.0 ==> r == -x
  {
    if x < 0.0 then x * -1.0 else x
  }

  // ---------------------------------------------------------------------------
  // Properties of the unit policy

  /** In auto mode the unit code never decreases as the value grows. */
  lemma AutoUnitMonotone(v1: real, v2: real)
    requires v1 <= v2
    ensures UnitCode(0.0, v1) <= UnitCode(0.0, v2)
  {
  }

  /** In auto mode a value gets no unit exactly when it is below a thousand, negative values included. */
  lemma AutoUnitBelowThousandIsNone(v: real)
    ensures UnitCode(0.0, v) == 0 <==> v < Thousand
  {
  }

  /** In auto mode, from a thousand up to a thousand trillions, the value shown in the chosen unit lies in [1, 1000). */
  lemma AutoUnitKeepsMantissaBelowThousand(v: real)
    requires Thousand <= v < Thousand * Trillion
    ensures 1.0 <= v / Magnitude(UnitCode(0.0, v)) < Thousand
  {
    var m := Magnitude(UnitCode(0.0, v));
    assert m > 0.0;
    assert m <= v < Thousand * m;
    DivisionBounds(v, m);
  }

  lemma DivisionBounds(v: real, m: real)
    requires m > 0.0 && m <= v < Thousand * m
    ensures 1.0 <= v / m < Thousand
  {
    var q := v / m;
    assert q * m == v;
  }

  /** A fixed display unit ignores the value. */
  lemma FixedUnitIgnoresValue(displayUnit: real, v1: real, v2: real)
    requires displayUnit != 0.0
    ensures UnitCode(displayUnit, v1) == UnitCode(displayUnit, v2)
  {
  }

  /** An unrecognised display unit falls back to thousands. */
  lemma UnrecognisedUnitIsThousands(displayUnit: real, v: real)
    requires displayUnit !in {0.0, 1.0, Thousand, Million, Billion, Trillion}
    ensures UnitCode(displayUnit, v) == 1001
  {
  }

  /** Auto mode on 999, 1500, 2e6, 5e9 and 3e12. */
  lemma AutoUnitExamples()
    ensures UnitCode(0.0, 999.0) == 0
    ensures UnitCode(0.0, 1500.0) == 1001
    ensures UnitCode(0.0, 2000000.0) == 1000000
    ensures UnitCode(0.0, 5000000000.0) == 1000000000
    ensures UnitCode(0.0, 3000000000000.0) == 1000000000000
  {
  }

  /** `_abs` is idempotent and forgets the sign. */
  lemma AbsIdempotent(x: real)
    ensures Abs(Abs(x)) == Abs(x)
    ensures Abs(-x) == Abs(x)
  {
  }
}
