/**
 * What the two invoice generators share: where a line of text is anchored
 * across the page, and the totals at the fixed 18% GST rate, computed on
 * exact decimals.
 */
module InvoiceCommon {
  import opened Common
  import opened Decimals

  /** The left margin every generator draws from. */
  const MarginLeft := 20

  /** Where a line starts across the page: `dx` from the left edge, `pageWidth - dx`, or centred on the page. */
  datatype Anchor = FromLeft(dx: int) | FromRight(dx: int) | Centered

  /** `0.18`, kept exact. */
  const GstRate := Dec(18, 2)

  datatype Totals = Totals(subtotal: Dec, gst: Dec, total: Dec)

  /** `gst = subtotal * 0.18` and `total = subtotal + gst`. */
  function TotalsOf(subtotal: Dec): (r: Totals)
    ensures r.subtotal == subtotal
    ensures Val(r.gst) == Val(subtotal) * 18.0 / 100.0
    ensures Val(r.total) == Val(r.subtotal) + Val(r.gst)
    ensures Val(r.total) == Val(subtotal) * 118.0 / 100.0
  {
    assert Val(GstRate) == 18.0 / 100.0 by {
      assert Pow10(2) == 100;
    }
    var gst := Mul(subtotal, GstRate);
    Totals(subtotal, gst, Add(subtotal, gst))
  }

  /** The three amounts as they are written: `toFixed(2)` each. */
  function TotalsCells(t: Totals): (r: seq<string>)
    ensures |r| == 3
    ensures HasDecimals(r[0], 2) && HasDecimals(r[1], 2) && HasDecimals(r[2], 2)
  {
    ToFixedShape(t.subtotal, 2);
    ToFixedShape(t.gst, 2);
    ToFixedShape(t.total, 2);
    [ToFixed(t.subtotal, 2), ToFixed(t.gst, 2), ToFixed(t.total, 2)]
  }

  /** Each written amount reads back as that amount rounded to cents. */
  lemma TotalsCellsReadBack(t: Totals)
    ensures ParseFloat(TotalsCells(t)[0]) == Some(Round(t.subtotal, 2))
    ensures ParseFloat(TotalsCells(t)[1]) == Some(Round(t.gst, 2))
    ensures ParseFloat(TotalsCells(t)[2]) == Some(Round(t.total, 2))
  {
    var c := TotalsCells(t);
    assert EndsNumber("");
    ParseFloatToFixed(t.subtotal, 2, "");
    EmptyAppend(c[0]);
    ParseFloatToFixed(t.gst, 2, "");
    EmptyAppend(c[1]);
    ParseFloatToFixed(t.total, 2, "");
    EmptyAppend(c[2]);
  }
}
