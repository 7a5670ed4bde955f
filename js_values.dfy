/**
 * The JavaScript values that record fields and form inputs hold, and the
 * coercions the screens apply to them: truthiness (`x || fallback`),
 * interpolation into a template string, and `Number(x)`.
 */
module JsValues {
  import opened Common
  import opened Text
  import opened Decimals

  /** A field value: missing (`undefined`), `null`, a string, a finite number or `NaN`. */
  datatype Value = Undefined | Null | Str(s: string) | Num(n: Dec) | NaN

  predicate IsNullish(v: Value) {
    v.Undefined? || v.Null?
  }

  /** The values `if (v)` accepts: everything but missing values, `''`, zero and `NaN`. */
  predicate Truthy(v: Value) {
    match v
    case Str(s) => s != ""
    case Num(n) => !IsZero(n)
    case _ => false
  }

  /** `${v}`: how a template string shows `v`. */
  function Render(v: Value): (r: string)
    ensures Truthy(v) ==> r != ""
  {
    match v
    case Undefined => "undefined"
    case Null => "null"
    case Str(s) => s
    case Num(n) => ToDisplay(n)
    case NaN => "NaN"
  }

  /** `v || fallback`, shown as text. */
  function RenderOr(v: Value, fallback: string): (r: string)
    ensures Truthy(v) ==> r == Render(v)
    ensures !Truthy(v) ==> r == fallback
    ensures fallback != "" ==> r != ""
  {
    if Truthy(v) then Render(v) else fallback
  }

  /** `v || 'N/A'`: the placeholder every label and invoice cell falls back to. */
  function OrNA(v: Value): (r: string)
    ensures r != ""
    ensures r == "N/A" <==> !Truthy(v) || Render(v) == "N/A"
  {
    RenderOr(v, "N/A")
  }

  /** `Number(v)`, with None standing for `NaN`. */
  function ToNumber(v: Value): Option<Dec> {
    match v
    case Undefined => None
    case Null => Some(Dec(0, 0))
    case Str(s) => StringToNumber(s)
    case Num(n) => Some(n)
    case NaN => None
  }

  /** `Number(v) || 0`: the number `v` denotes, and 0 when that is `NaN`. */
  function NumberOrZero(v: Value): (r: Dec)
    ensures ToNumber(v).Some? ==> Val(r) == Val(ToNumber(v).value)
    ensures ToNumber(v).None? ==> r == Dec(0, 0)
  {
    match ToNumber(v)
    case Some(n) => if IsZero(n) then Dec(0, 0) else n
    case None => Dec(0, 0)
  }

  /** Missing fields, blank strings and text that is not a number all count as 0. */
  lemma MissingIsZero(v: Value)
    requires v.Undefined? || v.Null? || v.NaN? || (v.Str? && AllSpace(v.s))
    ensures NumberOrZero(v) == Dec(0, 0)
  {
    if v.Str? {
      TrimEmptyIffBlank(v.s);
    }
  }

  /** `x || fallback` for a field that is a string when present. */
  function OrText(x: Option<string>, fallback: string): (r: string)
    ensures x.Some? && x.value != "" ==> r == x.value
    ensures x.None? || x.value == "" ==> r == fallback
  {
    if x.Some? && x.value != "" then x.value else fallback
  }

  /** `v?.toString() || ""`: the text of a present value, and the empty string for a missing one. */
  function TextOf(v: Value): (r: string)
    ensures IsNullish(v) ==> r == ""
    ensures !IsNullish(v) ==> r == Render(v)
  {
    if IsNullish(v) then "" else Render(v)
  }

  /** `a === b`: values of one kind that are equal, where `NaN` equals nothing and numbers compare by value. */
  function StrictEquals(a: Value, b: Value): (r: bool)
    ensures a.NaN? || b.NaN? ==> !r
    ensures IsNullish(a) || IsNullish(b) ==> (r <==> a == b)
    ensures a.Str? && b.Str? ==> (r <==> a.s == b.s)
    ensures a.Num? && b.Num? ==> (r <==> Val(a.n) == Val(b.n))
    ensures r ==> a.Undefined? == b.Undefined? && a.Null? == b.Null? && a.Str? == b.Str? && a.Num? == b.Num?
  {
    match (a, b)
    case (Undefined, Undefined) => true
    case (Null, Null) => true
    case (Str(s), Str(t)) => s == t
    case (Num(x), Num(y)) => SameNumber(x, y)
    case _ => false
  }

  /** `===` is symmetric. */
  lemma StrictEqualsSymmetric(a: Value, b: Value)
    ensures StrictEquals(a, b) == StrictEquals(b, a)
  {
  }
}
