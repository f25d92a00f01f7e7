/**
  The POS order line extension of pos_multi_price_uom_barcode (models/pos_order.py): the margin
  takes the line's own unit into account, the cost being converted by the unit's ratio.
*/
module PosMargin {
  import opened Common

  /**
    A `pos.order.line` as `_compute_margin` reads and writes it. `lineRatio` is the ratio of
    `product_uom_id`, 0.0 when the line has no unit (an empty recordset reads as 0.0);
    `productRatio` is that of the product's own unit; `rounding` the currency rounding.
  */
  class SaleLine {
    const lineRatio: real
    const productRatio: real
    const subtotal: real
    const totalCost: real
    const rounding: real
    var margin: real
    var marginPercent: real

    constructor (lineRatio: real, productRatio: real, subtotal: real, totalCost: real, rounding: real)
      ensures this.lineRatio == lineRatio && this.productRatio == productRatio && this.subtotal == subtotal
      ensures this.totalCost == totalCost && this.rounding == rounding
      ensures this.margin == 0.0 && this.marginPercent == 0.0
    {
      this.lineRatio := lineRatio;
      this.productRatio := productRatio;
      this.subtotal := subtotal;
      this.totalCost := totalCost;
      this.rounding := rounding;
      this.margin := 0.0;
      this.marginPercent := 0.0;
    }
  }

  /** `line.product_uom_id.ratio or line.product_id.uom_id.ratio`. */
  function Ratio(l: SaleLine): (r: real)
    ensures l.lineRatio != 0.0 ==> r == l.lineRatio
    ensures l.lineRatio == 0.0 ==> r == l.productRatio
  {
    if l.lineRatio != 0.0 then l.lineRatio else l.productRatio
  }

  /**
    A line on which the Python expressions divide by zero: a zero ratio, or a subtotal of 0.0 that
    `float_is_zero` (the parameter `isZero`) would not call zero.
  */
  predicate Divides0(l: SaleLine, isZero: (real, real) -> bool) {
    Ratio(l) == 0.0 || (!isZero(l.subtotal, l.rounding) && l.subtotal == 0.0)
  }

  /** The margin and margin percent written for a line that does not divide by zero. */
  ghost predicate MarginSet(l: SaleLine, isZero: (real, real) -> bool)
    requires !Divides0(l, isZero)
    reads l
  {
    && l.margin == l.subtotal - l.totalCost / Ratio(l)
    && l.marginPercent == (if isZero(l.subtotal, l.rounding) then 0.0 else l.margin / l.subtotal)
  }

  /**
    `_compute_margin` over a recordset: each line in turn gets its margin; the loop stops with a
    ZeroDivisionError at the first line that divides by zero, whose index is returned.
  */
  method ComputeMargin(lines: seq<SaleLine>, isZero: (real, real) -> bool) returns (r: Outcome<nat>)
    modifies lines
    ensures r.Fail? <==> exists i :: 0 <= i < |lines| && Divides0(lines[i], isZero)
    ensures r.Fail? ==> r.error < |lines| && Divides0(lines[r.error], isZero)
                        && forall k :: 0 <= k < r.error ==> !Divides0(lines[k], isZero)
    ensures forall k :: 0 <= k < (if r.Fail? then r.error else |lines|) ==>
              !Divides0(lines[k], isZero) && MarginSet(lines[k], isZero)
    ensures r.Fail? ==> forall k :: r.error < k < |lines| && lines[k] !in lines[..r.error + 1] ==> unchanged(lines[k])
  {
    var i := 0;
    while i < |lines|
      invariant 0 <= i <= |lines|
      invariant forall k :: 0 <= k < i ==> !Divides0(lines[k], isZero) && MarginSet(lines[k], isZero)
      invariant forall k :: i <= k < |lines| && lines[k] !in lines[..i] ==> unchanged(lines[k])
    {
      var line := lines[i];
      var ratio := if line.lineRatio != 0.0 then line.lineRatio else line.productRatio;
      if ratio == 0.0 {
        return Fail(i);
      }
      line.margin := line.subtotal - line.totalCost / ratio;
      if isZero(line.subtotal, line.rounding) {
        line.marginPercent := 0.0;
      } else if line.subtotal == 0.0 {
        return Fail(i);
      } else {
        line.marginPercent := line.margin / line.subtotal;
      }
      i := i + 1;
    }
    r := Pass;
  }

  /** A line in the product's own unit (same ratio, or none) has the standard margin. */
  lemma MarginInProductUnit(l: SaleLine, isZero: (real, real) -> bool)
    requires !Divides0(l, isZero) && MarginSet(l, isZero)
    requires l.lineRatio == 0.0 || l.lineRatio == l.productRatio
    ensures l.margin == l.subtotal - l.totalCost / l.productRatio
  {
  }

  /**
    `_load_pos_data_fields` of `pos.order.line`: `product_uom_id` appended to the inherited list, its
    order kept. The override of `PosTemplate.PosFields` has the same shape for the product models.
  */
  function LineFields(inherited: seq<string>): (r: seq<string>)
    ensures |r| == |inherited| + 1 && r[..|inherited|] == inherited && r[|inherited|] == "product_uom_id"
  {
    inherited + ["product_uom_id"]
  }
}
