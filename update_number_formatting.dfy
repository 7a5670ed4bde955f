/**
 * The `formatters` helpers: unit, currency and percentage strings composed
 * from `formatNumber` with its default precision of two decimals.
 */
module UpdateNumberFormatting {
  import opened Common
  import opened Decimals
  import opened JsValues
  import opened NumberFormatter

  /** `${formatNumber(value)} ${unit}`. */
  function WithUnit(v: Value, unit: string): (r: string)
    ensures r == FormatNumber(v) + " " + unit
    ensures IsNullish(v) ==> r == "0.00 " + unit
  {
    FormatNumber(v) + " " + unit
  }

  /** `formatters.weight(value, unit = 'kg')`. */
  function Weight(v: Value, unit: string := "kg"): (r: string)
    ensures r == WithUnit(v, unit)
  {
    WithUnit(v, unit)
  }

  /** `formatters.quantity(value, unit = 'pieces')`. */
  function Quantity(v: Value, unit: string := "pieces"): (r: string)
    ensures r == WithUnit(v, unit)
  {
    WithUnit(v, unit)
  }

  /** `formatters.currency(value)`: the default symbol with two decimals. */
  function Currency(v: Value): (r: string)
    ensures r == FormatCurrency(v, DefaultCurrency, 2)
  {
    FormatCurrency(v)
  }

  /** `formatters.percentage(value)`: two decimals and `%`. */
  function Percentage(v: Value): (r: string)
    ensures r == FormatPercentage(v, 2)
  {
    FormatPercentage(v)
  }

  /** A missing weight is shown as zero kilograms. */
  lemma MissingWeight(v: Value)
    requires IsNullish(v) || v == Str("")
    ensures Weight(v) == "0.00 kg"
  {
  }

  /** `parseFloat` reads a weight back as the value rounded to two decimals: it stops at the space before the unit. */
  lemma WeightReadsBack(x: Dec, unit: string)
    ensures ParseFloat(Weight(Num(x), unit)) == Some(Round(x, 2))
  {
    var t := " " + unit;
    assert EndsNumber(t);
    AppendAssoc(ToFixed(x, 2), " ", unit);
    assert Weight(Num(x), unit) == ToFixed(x, 2) + t;
    ParseFloatToFixed(x, 2, t);
  }

  /** The two unit formatters differ only in their default unit. */
  lemma QuantityIsWeight(v: Value, unit: string)
    ensures Quantity(v, unit) == Weight(v, unit)
    ensures Quantity(v) != Weight(v)
  {
    var n := FormatNumber(v);
    assert Quantity(v)[|n| + 1..] == "pieces";
    assert Weight(v)[|n| + 1..] == "kg";
  }
}
