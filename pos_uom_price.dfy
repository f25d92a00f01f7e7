/**
  The `product.multi.uom.price` model of pos_multi_price_uom_barcode (models/product_multi_uom_price.py):
  one extra sale unit of a product template (`product_id`) or of a variant (`variant_id`), with its
  price and an optional barcode.
*/
module PosUomPrice {
  import opened Common

  /** A `uom.uom` as these records read it. */
  datatype UnitRef = UnitRef(id: int, name: string, category: int, factorInv: real)

  /** The `product.template` a line may belong to. */
  datatype TemplateRef = TemplateRef(id: int, uom: UnitRef, listPrice: real)

  /** The `product.product` a line may belong to; `tmplUom` is its template's unit. */
  datatype VariantRef = VariantRef(id: int, uom: UnitRef, lstPrice: real, tmplUom: UnitRef)

  /** One record. `product_id` and `variant_id` are read-only; price and the computed category change. */
  class PriceLine {
    const id: int
    const product: Option<TemplateRef>
    const variant: Option<VariantRef>
    const uom: UnitRef
    const barcode: Option<string>
    var price: real
    /** `category_id` (None for False). */
    var category: Option<int>

    constructor (id: int, product: Option<TemplateRef>, variant: Option<VariantRef>, uom: UnitRef,
                 price: real, barcode: Option<string>)
      ensures this.id == id && this.product == product && this.variant == variant && this.uom == uom
      ensures this.price == price && this.barcode == barcode && this.category.None?
    {
      this.id := id;
      this.product := product;
      this.variant := variant;
      this.uom := uom;
      this.price := price;
      this.barcode := barcode;
      this.category := None;
    }
  }

  const UomMessage := "Must provide uom different than that of the product!"

  /**
    The clash `_constrains_uom_id` rejects: the unit of the template, when there is one, or else
    (the `elif`, reached also when a template is set with another unit) the unit of the variant.
  */
  predicate SameUnitAsProduct(l: PriceLine) {
    || (l.product.Some? && l.uom.id == l.product.value.uom.id)
    || (l.variant.Some? && l.variant.value.uom.id == l.uom.id)
  }

  /** `_constrains_uom_id` over a recordset: it raises at the first record with a clash. */
  function ConstrainsUom(ls: seq<PriceLine>): (r: Outcome<string>)
    ensures r.Fail? <==> exists i :: 0 <= i < |ls| && SameUnitAsProduct(ls[i])
    ensures r.Fail? ==> r.error == UomMessage
    decreases |ls|
  {
    if ls == [] then Pass
    else if SameUnitAsProduct(ls[0]) then Fail(UomMessage)
    else
      var rest := ConstrainsUom(ls[1..]);
      assert forall i :: 1 <= i < |ls| ==> ls[i] == ls[1..][i - 1];
      rest
  }

  /**
    Two rows the `UNIQUE (product_id, uom_id)` index refuses together. SQL never counts NULL as
    equal, so rows without a template (variant lines) never clash.
  */
  predicate Clash(a: PriceLine, b: PriceLine) {
    a.product.Some? && b.product.Some? && a.product.value.id == b.product.value.id && a.uom.id == b.uom.id
  }

  predicate UniqueProductUom(rows: seq<PriceLine>) {
    forall i, j :: 0 <= i < j < |rows| ==> !Clash(rows[i], rows[j])
  }

  /** The table of `product.multi.uom.price` rows, kept unique per (template, unit). */
  class PriceTable {
    var rows: seq<PriceLine>

    ghost predicate Valid()
      reads this
    {
      UniqueProductUom(rows)
    }

    constructor ()
      ensures Valid() && rows == []
    {
      rows := [];
    }

    /** An INSERT: refused, leaving the table as it was, exactly when the new row clashes with one. */
    method Insert(l: PriceLine) returns (ok: bool)
      requires Valid()
      modifies this
      ensures Valid()
      ensures ok <==> forall r :: r in old(rows) ==> !Clash(r, l)
      ensures ok ==> rows == old(rows) + [l]
      ensures !ok ==> rows == old(rows)
    {
      ok := forall r :: r in rows ==> !Clash(r, l);
      if ok {
        rows := rows + [l];
      }
    }
  }

  /** Variant lines, having no template, can repeat a unit any number of times. */
  lemma {:induction false} VariantLinesNeverClash(rows: seq<PriceLine>)
    requires forall i :: 0 <= i < |rows| ==> rows[i].product.None?
    ensures UniqueProductUom(rows)
  {
    forall i, j | 0 <= i < j < |rows|
      ensures !Clash(rows[i], rows[j])
    {
      assert rows[i].product.None?;
    }
  }

  /** `_compute_category_id`: the variant's template unit category, else the template's, else False. */
  method ComputeCategory(ls: seq<PriceLine>)
    modifies ls
    ensures forall l :: l in ls ==>
              && l.category == (if l.variant.Some? then Some(l.variant.value.tmplUom.category)
                                else if l.product.Some? then Some(l.product.value.uom.category)
                                else None)
              && l.price == old(l.price)
  {
    var i := 0;
    while i < |ls|
      invariant 0 <= i <= |ls|
      invariant forall k :: 0 <= k < i ==>
                  ls[k].category == (if ls[k].variant.Some? then Some(ls[k].variant.value.tmplUom.category)
                                     else if ls[k].product.Some? then Some(ls[k].product.value.uom.category)
                                     else None)
      invariant forall l :: l in ls ==> l.price == old(l.price)
    {
      var record := ls[i];
      record.category := None;
      if record.variant.Some? {
        record.category := Some(record.variant.value.tmplUom.category);
      } else if record.product.Some? {
        record.category := Some(record.product.value.uom.category);
      }
      i := i + 1;
    }
  }

  /**
    `_onchange_uom_id`: the template's list price, else the variant's sale price, scaled by the
    unit's `factor_inv`; a record with neither keeps its price.
  */
  method OnchangeUom(ls: seq<PriceLine>)
    modifies ls
    ensures forall l :: l in ls ==>
              && l.price == (if l.product.Some? then l.product.value.listPrice * l.uom.factorInv
                             else if l.variant.Some? then l.variant.value.lstPrice * l.uom.factorInv
                             else old(l.price))
              && l.category == old(l.category)
  {
    var i := 0;
    while i < |ls|
      invariant 0 <= i <= |ls|
      invariant forall k :: 0 <= k < i ==>
                  ls[k].price == (if ls[k].product.Some? then ls[k].product.value.listPrice * ls[k].uom.factorInv
                                  else if ls[k].variant.Some? then ls[k].variant.value.lstPrice * ls[k].uom.factorInv
                                  else old(ls[k].price))
      invariant forall k :: i <= k < |ls| ==> ls[k].price == old(ls[k].price) || ls[k] in ls[..i]
      invariant forall l :: l in ls ==> l.category == old(l.category)
    {
      var record := ls[i];
      if record.product.Some? {
        record.price := record.product.value.listPrice * record.uom.factorInv;
      } else if record.variant.Some? {
        record.price := record.variant.value.lstPrice * record.uom.factorInv;
      }
      i := i + 1;
    }
  }

  /** The context `action_open_label_layout` puts on the label wizard. */
  datatype LabelContext = LabelContext(finalBarcode: Option<string>, finalPrice: real,
                                       tmplIds: Option<seq<int>>, productIds: Option<seq<int>>)

  /** `action_open_label_layout`: the line's barcode and price, with the template ids winning over the variant's. */
  function LabelLayoutContext(l: PriceLine): (c: LabelContext)
    reads l
    ensures c.finalBarcode == l.barcode && c.finalPrice == l.price
    ensures c.tmplIds.Some? <==> l.product.Some?
    ensures c.productIds.Some? <==> l.product.None? && l.variant.Some?
    ensures c.tmplIds.Some? ==> c.tmplIds.value == [l.product.value.id]
    ensures c.productIds.Some? ==> c.productIds.value == [l.variant.value.id]
  {
    var base := LabelContext(l.barcode, l.price, None, None);
    if l.product.Some? then base.(tmplIds := Some([l.product.value.id]))
    else if l.variant.Some? then base.(productIds := Some([l.variant.value.id]))
    else base
  }

  /** `_load_pos_data_fields`. */
  const PosDataFields := ["id", "product_id", "variant_id", "uom_id", "barcode", "price"]

  /** A row of `search_read(..., load=False)`: many2one fields as bare ids; `name` is added afterwards. */
  datatype PosRow = PosRow(id: int, productId: Option<int>, variantId: Option<int>, uomId: int,
                           barcode: Option<string>, price: real, name: Option<string>)

  function ReadRow(l: PriceLine): PosRow
    reads l
  {
    PosRow(l.id, if l.product.Some? then Some(l.product.value.id) else None,
           if l.variant.Some? then Some(l.variant.value.id) else None,
           l.uom.id, l.barcode, l.price, None)
  }

  /**
    `_load_pos_data`: the empty domain reads every record; each row then gets `name`, the name of
    the unit `browse(uom_id)` finds, given here as `unitName`.
  */
  method LoadPosData(ls: seq<PriceLine>, unitName: int -> string) returns (data: seq<PosRow>, fields: seq<string>)
    ensures fields == PosDataFields
    ensures |data| == |ls|
    ensures forall k :: 0 <= k < |ls| ==> data[k] == ReadRow(ls[k]).(name := Some(unitName(ls[k].uom.id)))
  {
    fields := PosDataFields;
    data := seq(|ls|, k requires 0 <= k < |ls| reads ls => ReadRow(ls[k]));
    var i := 0;
    while i < |data|
      invariant 0 <= i <= |data| == |ls|
      invariant forall k :: 0 <= k < i ==> data[k] == ReadRow(ls[k]).(name := Some(unitName(ls[k].uom.id)))
      invariant forall k :: i <= k < |data| ==> data[k] == ReadRow(ls[k])
    {
      data := data[i := data[i].(name := Some(unitName(data[i].uomId)))];
      i := i + 1;
    }
  }
}
