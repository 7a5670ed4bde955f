/**
 * The display formatting of numbers: `formatNumber` and the currency,
 * percentage and pass-through wrappers built on it.
 */
module NumberFormatter {
  import opened Common
  import opened Text
  import opened Decimals
  import opened JsValues

  /** The text shown for a missing or unreadable value, whatever the requested precision. */
  const Placeholder := "0.00"

  /** The default currency symbol, kept exactly as the source spells it (a mis-decoded rupee sign). */
  const DefaultCurrency := "\U{00E2}\U{201A}\U{00B9}"

  /** `typeof v === 'string' ? parseFloat(v) : v`, with None standing for `NaN`. */
  function NumberArgument(v: Value): Option<Dec> {
    match v
    case Str(s) => ParseFloat(s)
    case Num(n) => Some(n)
    case _ => None
  }

  /**
   * `formatNumber(v, decimals)`. `toFixed` throws a RangeError beyond 100
   * digits, so callers stay within that.
   */
  function FormatNumber(v: Value, decimals: nat := 2): (r: string)
    requires decimals <= 100
    ensures IsNullish(v) || v == Str("") || NumberArgument(v).None? ==> r == Placeholder
    ensures NumberArgument(v).Some? ==> r == ToFixed(NumberArgument(v).value, decimals)
  {
    if IsNullish(v) || v == Str("") then Placeholder
    else match NumberArgument(v)
      case None => Placeholder
      case Some(x) => ToFixed(x, decimals)
  }

  /** A readable value is shown with exactly `decimals` digits after the point, and reads back as its rounding. */
  lemma FormatNumberReadsBack(v: Value, decimals: nat)
    requires decimals <= 100 && NumberArgument(v).Some?
    ensures HasDecimals(FormatNumber(v, decimals), decimals)
    ensures ParseFloat(FormatNumber(v, decimals)) == Some(Round(NumberArgument(v).value, decimals))
  {
    var x := NumberArgument(v).value;
    ToFixedShape(x, decimals);
    ParseFloatToFixed(x, decimals, "");
    EmptyAppend(ToFixed(x, decimals));
  }

  /** A number given with no more decimals than requested is shown exactly. */
  lemma FormatNumberExact(x: Dec, decimals: nat)
    requires decimals <= 100 && x.e <= decimals
    ensures ParseFloat(FormatNumber(Num(x), decimals)).Some?
    ensures Val(ParseFloat(FormatNumber(Num(x), decimals)).value) == Val(x)
  {
    ToFixedExact(x, decimals);
  }

  /** `formatCurrency(v, currency, decimals)`: the symbol, then the formatted number. */
  function FormatCurrency(v: Value, currency: string := DefaultCurrency, decimals: nat := 2): (r: string)
    requires decimals <= 100
    ensures |r| == |currency| + |FormatNumber(v, decimals)|
    ensures r[..|currency|] == currency && r[|currency|..] == FormatNumber(v, decimals)
  {
    currency + FormatNumber(v, decimals)
  }

  /** `formatPercentage(v, decimals)`: the formatted number, then `%`. */
  function FormatPercentage(v: Value, decimals: nat := 2): (r: string)
    requires decimals <= 100
    ensures |r| >= 1 && r[|r| - 1] == '%' && r[..|r| - 1] == FormatNumber(v, decimals)
  {
    FormatNumber(v, decimals) + "%"
  }

  /** `parseAndFormat(v, decimals)`: another name for `formatNumber`. */
  function ParseAndFormat(v: Value, decimals: nat := 2): (r: string)
    requires decimals <= 100
    ensures r == FormatNumber(v, decimals)
  {
    FormatNumber(v, decimals)
  }

  /** `parseFloat` reads a percentage back as the rounded number: it stops at the `%`. */
  lemma PercentageReadsBack(x: Dec, decimals: nat)
    requires decimals <= 100
    ensures ParseFloat(FormatPercentage(Num(x), decimals)) == Some(Round(x, decimals))
  {
    assert FormatPercentage(Num(x), decimals) == ToFixed(x, decimals) + "%";
    assert EndsNumber("%");
    ParseFloatToFixed(x, decimals, "%");
  }

  /** The default currency symbol is not white space or part of a number, so `parseFloat` of a price is `NaN`. */
  lemma CurrencyDoesNotParse(v: Value, decimals: nat)
    requires decimals <= 100
    ensures ParseFloat(FormatCurrency(v, DefaultCurrency, decimals)) == None
  {
    var r := FormatCurrency(v, DefaultCurrency, decimals);
    assert r[0] == '\U{00E2}';
    NotANumber(r);
  }
}
