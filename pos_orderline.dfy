/**
  The POS order-line patch of pos_multi_price_uom_barcode (static/src/js/models.js): each line
  carries its own unit of measure (`product_uom_id`), lines merge only when their units agree,
  and `addLineToOrder` picks the unit price, refuses sales on refund orders and merges a new
  line into the last compatible one.
*/
module PosOrderline {
  import opened Common

  /** A `uom.uom` as loaded in the POS: only its id and name are read. */
  datatype PosUom = PosUom(id: int, name: string)

  /** A `product.multi.uom.price` row as loaded in the POS, with the `name` the loader adds. */
  datatype MultiUomLine = MultiUomLine(id: int, name: string, uom: PosUom, price: real, barcode: Option<string>)

  /**
    A `product.product` as loaded in the POS. `groupable` is `is_pos_groupable()` of its unit and
    `lotTracked` is `tracking === "lot"`.
  */
  datatype PosProduct = PosProduct(id: int, barcode: Option<string>, uom: Option<PosUom>, listPrice: real,
                                   multiUom: seq<MultiUomLine>, isCombo: bool, lotTracked: bool, groupable: bool,
                                   taxIds: seq<int>)

  /** JavaScript truthiness of an optional note: null, undefined and "" are falsy. */
  predicate Falsy(s: Option<string>) {
    s.None? || s.value == ""
  }

  /** `?.id` of an optional unit: None stands for undefined. */
  function UomId(u: Option<PosUom>): Option<int> {
    if u.Some? then Some(u.value.id) else None
  }

  class Orderline {
    const id: int
    const product: PosProduct
    var uom: Option<PosUom>
    var priceUnit: real
    var priceType: string
    var qty: real
    var note: string
    const discount: real
    const customerNote: Option<string>
    const fullProductName: string
    /** `refunded_orderline_id`: the id of the line this one refunds. */
    const refundedLineId: Option<int>
    /** `isPartOfCombo()`, computed by the framework. */
    const partOfCombo: bool
    const skipChange: bool
    /** `pickingType.use_create_lots || pickingType.use_existing_lots` of the session. */
    const pickingUsesLots: bool
    const taxIds: seq<int>
    /** The `lot_name`s of `pack_lot_ids`. */
    const lotNames: seq<string>
    /** `combo_line_ids`. */
    var comboLines: seq<Orderline>

    /** `setup`: the line's unit defaults to the product's `uom_id` when none is given. */
    constructor (id: int, product: PosProduct, uom: Option<PosUom>, priceUnit: real, priceType: string,
                 qty: real, note: string, discount: real, customerNote: Option<string>,
                 fullProductName: string, refundedLineId: Option<int>, partOfCombo: bool,
                 skipChange: bool, pickingUsesLots: bool, taxIds: seq<int>, lotNames: seq<string>)
      ensures this.id == id && this.product == product
      ensures this.uom == (if uom.Some? then uom else product.uom)
      ensures this.priceUnit == priceUnit && this.priceType == priceType && this.qty == qty && this.note == note
      ensures this.discount == discount && this.customerNote == customerNote
      ensures this.fullProductName == fullProductName && this.refundedLineId == refundedLineId
      ensures this.partOfCombo == partOfCombo && this.skipChange == skipChange
      ensures this.pickingUsesLots == pickingUsesLots
      ensures this.taxIds == taxIds && this.lotNames == lotNames && this.comboLines == []
    {
      this.id := id;
      this.product := product;
      this.priceUnit := priceUnit;
      this.priceType := priceType;
      this.qty := qty;
      this.note := note;
      this.discount := discount;
      this.customerNote := customerNote;
      this.fullProductName := fullProductName;
      this.refundedLineId := refundedLineId;
      this.partOfCombo := partOfCombo;
      this.skipChange := skipChange;
      this.pickingUsesLots := pickingUsesLots;
      this.taxIds := taxIds;
      this.lotNames := lotNames;
      this.comboLines := [];
      this.uom := if uom.Some? then uom else product.uom;
    }

    /** `set_uom(uom_id)`: the argument is the triple {0: line id, 1: line name, 2: unit}; element 2 is stored. */
    method SetUom(choice: (int, string, PosUom))
      modifies this
      ensures uom == Some(choice.2)
      ensures priceUnit == old(priceUnit) && priceType == old(priceType) && qty == old(qty) && note == old(note)
      ensures comboLines == old(comboLines)
    {
      uom := Some(choice.2);
    }

    /** `get_unit()`: the line's unit when set, else the product's. */
    function Unit(): (r: Option<PosUom>)
      reads this
      ensures uom.Some? ==> r == uom
      ensures uom.None? ==> r == product.uom
    {
      if uom.Some? then uom else product.uom
    }

    /** The `unit` of `getDisplayData()`: the name of `Unit()`, or "" without one. */
    function DisplayUnit(): (r: string)
      reads this
      ensures Unit().Some? ==> r == Unit().value.name
      ensures Unit().None? ==> r == ""
    {
      if uom.Some? then uom.value.name
      else if product.uom.Some? then product.uom.value.name
      else ""
    }

    /** What `can_be_merged_with` reads of a line. */
    function View(): (v: LineView)
      reads this
      ensures v.id == id && v.productId == product.id && v.uomId == UomId(Unit())
      ensures v.priceUnit == priceUnit && v.note == note && v.discount == discount
      ensures v.refunding == refundedLineId.Some? && v.partOfCombo == partOfCombo
    {
      LineView(id, product.id, product.groupable, product.lotTracked && pickingUsesLots, UomId(Unit()),
               priceUnit, note, discount, customerNote, fullProductName, refundedLineId.Some?,
               partOfCombo, skipChange)
    }

    /**
      `can_be_merged_with(orderline)`, with `this` the line already on the order and `other`
      the line being added.
    */
    function CanBeMergedWith(other: Orderline): (r: bool)
      reads this, other
      ensures r ==> product.id == other.product.id && UomId(Unit()) == UomId(other.Unit())
      ensures r ==> priceUnit == other.priceUnit && note == other.note && refundedLineId.None?
    {
      Mergeable(View(), other.View())
    }
  }

  /** The fields of a line that the merge rule compares; `lotBlocked` is the lot-tracking exclusion. */
  datatype LineView = LineView(id: int, productId: int, groupable: bool, lotBlocked: bool, uomId: Option<int>,
                               priceUnit: real, note: string, discount: real, customerNote: Option<string>,
                               fullProductName: string, refunding: bool, partOfCombo: bool, skipChange: bool)

  /** The merge rule on views: `cur` is the line on the order, `added` the new one. */
  function Mergeable(cur: LineView, added: LineView): (r: bool)
    ensures r ==> cur.productId == added.productId && cur.uomId == added.uomId && cur.priceUnit == added.priceUnit
    ensures r ==> cur.note == added.note && cur.fullProductName == added.fullProductName
    ensures cur.skipChange || cur.refunding || added.partOfCombo || cur.discount != 0.0 ==> !r
  {
    && !cur.skipChange
    && added.note == cur.note
    && cur.productId == added.productId
    && cur.groupable
    && cur.discount == 0.0
    && !cur.lotBlocked
    && cur.fullProductName == added.fullProductName
    && ((Falsy(added.customerNote) && Falsy(cur.customerNote)) || added.customerNote == cur.customerNote)
    && !cur.refunding
    && !added.partOfCombo
    && added.priceUnit == cur.priceUnit
    && cur.uomId == added.uomId
  }

  /**
    Lines merge only when they agree on unit, unit price and product, the existing line has no
    discount and refunds nothing, and the added line is not part of a combo.
  */
  lemma MergeNeeds(cur: Orderline, added: Orderline)
    requires cur.CanBeMergedWith(added)
    ensures UomId(cur.Unit()) == UomId(added.Unit())
    ensures cur.priceUnit == added.priceUnit && cur.product.id == added.product.id
    ensures cur.discount == 0.0 && cur.refundedLineId.None? && !added.partOfCombo
  {
  }

  /** Two lines whose units differ never merge, whatever else they share. */
  lemma DifferentUnitsNeverMerge(cur: Orderline, added: Orderline)
    requires UomId(cur.Unit()) != UomId(added.Unit())
    ensures !cur.CanBeMergedWith(added)
  {
  }

  class Order {
    var lines: seq<Orderline>
    var selected: Option<Orderline>
    /** `doNotAllowRefundAndSales()` of the session's configuration. */
    const noRefundAndSales: bool
    /** `use_create_lots || use_existing_lots` of the session's picking type. */
    const pickingUsesLots: bool
    const uuid: string
    /** `get_partner()`, by id. */
    const partner: Option<int>
    var takeaway: bool
    /** `fiscal_position_id`, by id. */
    var fiscalPosition: Option<int>
    const fiscalPositionNotFound: bool

    constructor (lines: seq<Orderline>, selected: Option<Orderline>, noRefundAndSales: bool, pickingUsesLots: bool,
                 uuid: string, partner: Option<int>, takeaway: bool, fiscalPosition: Option<int>,
                 fiscalPositionNotFound: bool)
      ensures this.lines == lines && this.selected == selected
      ensures this.noRefundAndSales == noRefundAndSales && this.pickingUsesLots == pickingUsesLots
      ensures this.uuid == uuid && this.partner == partner && this.takeaway == takeaway
      ensures this.fiscalPosition == fiscalPosition && this.fiscalPositionNotFound == fiscalPositionNotFound
    {
      this.lines := lines;
      this.selected := selected;
      this.noRefundAndSales := noRefundAndSales;
      this.pickingUsesLots := pickingUsesLots;
      this.uuid := uuid;
      this.partner := partner;
      this.takeaway := takeaway;
      this.fiscalPosition := fiscalPosition;
      this.fiscalPositionNotFound := fiscalPositionNotFound;
    }
  }

  /**
    The `vals` given to `addLineToOrder`; None is a key that is absent. `uom` is
    `product_uom_id`, `priceType` is `price_type`.
  */
  datatype Vals = Vals(product: PosProduct, uom: Option<PosUom>, priceUnit: Option<real>,
                       priceType: Option<string>, priceExtra: Option<real>, qty: Option<real>,
                       note: Option<string>)

  /** `price_type: "price_unit" in vals ? "manual" : "original"`, overridden by `vals.price_type`. */
  function PriceTypeOf(vals: Vals): (r: string)
    ensures vals.priceType.Some? ==> r == vals.priceType.value
    ensures vals.priceType.None? ==> (r == "manual" <==> vals.priceUnit.Some?)
    ensures vals.priceType.None? && vals.priceUnit.None? ==> r == "original"
  {
    if vals.priceType.Some? then vals.priceType.value
    else if vals.priceUnit.Some? then "manual" else "original"
  }

  /** The quantity of the new line: `vals.qty`, 1 when absent. */
  function QtyOf(vals: Vals): (r: real)
    ensures vals.qty.Some? ==> r == vals.qty.value
    ensures vals.qty.None? ==> r == 1.0
  {
    if vals.qty.Some? then vals.qty.value else 1.0
  }

  /**
    The unit price of the new line. `getPrice(product, qty, extra)` is the product's
    `get_price(order.pricelist_id, qty, extra)`; `scannedProduct` is `opts.code.type === "product"`.
  */
  function PriceUnitOf(vals: Vals, getPrice: (PosProduct, real, real) -> real, scannedProduct: bool): (r: real)
    ensures var extra := if vals.priceExtra.Some? then vals.priceExtra.value else 0.0;
            && (extra != 0.0 && !scannedProduct ==> r == getPrice(vals.product, QtyOf(vals), extra))
            && (!(extra != 0.0 && !scannedProduct) && vals.priceUnit.Some? ==> r == vals.priceUnit.value)
            && (!(extra != 0.0 && !scannedProduct) && vals.priceUnit.None? ==>
                  r == (if vals.product.isCombo then 0.0 else getPrice(vals.product, QtyOf(vals), 0.0)))
  {
    var extra := if vals.priceExtra.Some? then vals.priceExtra.value else 0.0;
    var base :=
      if vals.priceUnit.Some? then vals.priceUnit.value
      else if !vals.product.isCombo then getPrice(vals.product, QtyOf(vals), 0.0)
      else 0.0;
    if extra != 0.0 && !scannedProduct then getPrice(vals.product, QtyOf(vals), extra) else base
  }

  /** The sales-on-refund guard: on a refund order a quantity of 0 or more (1 when absent) is refused. */
  function RefusedOnRefund(order: Order, isRefundOrder: bool, vals: Vals): (r: bool)
    reads order
    ensures r <==> order.noRefundAndSales && isRefundOrder && QtyOf(vals) >= 0.0
    ensures vals.qty.None? ==> (r <==> order.noRefundAndSales && isRefundOrder)
  {
    order.noRefundAndSales && isRefundOrder && (QtyOf(vals) == 0.0 || QtyOf(vals) > 0.0)
  }

  /** The views of a sequence of lines. */
  function Views(ls: seq<Orderline>): (r: seq<LineView>)
    reads ls
    ensures |r| == |ls| && forall i :: 0 <= i < |ls| ==> r[i] == ls[i].View()
  {
    seq(|ls|, i reads ls requires 0 <= i < |ls| => ls[i].View())
  }

  /** The index of the last view, other than one with `added`'s id, that can absorb `added`. */
  function LastMergeable(vs: seq<LineView>, added: LineView): (r: Option<nat>)
    ensures r.Some? ==> r.value < |vs| && vs[r.value].id != added.id && Mergeable(vs[r.value], added)
    ensures r.Some? ==> forall j :: r.value < j < |vs| ==> !(vs[j].id != added.id && Mergeable(vs[j], added))
    ensures r.None? ==> forall j :: 0 <= j < |vs| ==> !(vs[j].id != added.id && Mergeable(vs[j], added))
    decreases |vs|
  {
    if vs == [] then None
    else
      var k := |vs| - 1;
      if vs[k].id != added.id && Mergeable(vs[k], added) then Some(k)
      else LastMergeable(vs[..k], added)
  }

  /** The note the new line starts with. */
  function NoteOf(vals: Vals): string {
    if vals.note.Some? then vals.note.value else ""
  }

  /**
    The non-interactive part of `addLineToOrder(vals, order, opts)`: the refund guard, the
    price defaults, the line creation (which appends the line to the order and selects it) and
    the merge into the last line that can absorb the new one. `newId` and `fullName` are what the
    framework gives the created line; None is the early `return`.
  */
  method AddLineToOrder(order: Order, vals: Vals, isRefundOrder: bool,
                        getPrice: (PosProduct, real, real) -> real, scannedProduct: bool,
                        newId: int, fullName: string) returns (line: Option<Orderline>)
    modifies order, order.lines
    ensures order.takeaway == old(order.takeaway) && order.fiscalPosition == old(order.fiscalPosition)
    ensures RefusedOnRefund(order, isRefundOrder, vals) ==>
              line.None? && order.lines == old(order.lines) && order.selected == old(order.selected)
              && forall l :: l in old(order.lines) ==> unchanged(l)
    ensures !RefusedOnRefund(order, isRefundOrder, vals) ==> line.Some? && fresh(line.value)
    ensures line.Some? ==> NewLineFrom(line.value, vals, getPrice, scannedProduct, newId, fullName, order.pickingUsesLots)
    ensures line.Some? ==> AddedTo(order, line.value, old(order.lines))
  {
    if RefusedOnRefund(order, isRefundOrder, vals) {
      return None;
    }
    var created := CreateLine(order, vals, getPrice, scannedProduct, newId, fullName);
    assert order.lines[..|order.lines| - 1] == old(order.lines);
    MergeOrKeep(order, created);
    line := Some(created);
  }

  /** A line whose fields other than its quantity are as they were. */
  twostate predicate SameButQty(l: Orderline)
    reads l
  {
    && l.uom == old(l.uom) && l.priceUnit == old(l.priceUnit) && l.priceType == old(l.priceType)
    && l.note == old(l.note) && l.comboLines == old(l.comboLines)
  }

  /**
    The order once `addLineToOrder` has created `line`, `before` being its lines beforehand:
    either the last old line that can absorb the new one takes its quantity and is selected, the
    new line is gone and nothing else changes; or the new line is appended and selected and every
    old line is unchanged.
  */
  twostate predicate AddedTo(order: Order, new line: Orderline, before: seq<Orderline>)
    reads order, line, before
  {
    var t := LastMergeable(old(Views(before)), line.View());
    && line !in before
    && (t.Some? ==>
          && order.lines == before
          && order.selected == Some(before[t.value])
          && before[t.value].qty == old(before[t.value].qty) + line.qty
          && SameButQty(before[t.value])
          && forall l :: l in before && l != before[t.value] ==> unchanged(l))
    && (t.None? ==>
          && order.lines == before + [line]
          && order.selected == Some(line)
          && forall l :: l in before ==> unchanged(l))
  }

  /**
    The merge step of `addLineToOrder` on an order whose last line is the new one: the loop
    finds the last other line that can absorb it; that line takes the quantity and the new line
    is deleted. Without a target the source falls back to selecting the last line when nothing
    is selected; the new line was selected on creation, so the selection stays on it.
  */
  method MergeOrKeep(order: Order, created: Orderline)
    requires |order.lines| > 0 && order.lines[|order.lines| - 1] == created
    requires created !in order.lines[..|order.lines| - 1]
    requires order.selected == Some(created)
    modifies order, order.lines
    ensures order.takeaway == old(order.takeaway) && order.fiscalPosition == old(order.fiscalPosition)
    ensures var before := old(order.lines[..|order.lines| - 1]);
            var t := LastMergeable(old(Views(order.lines[..|order.lines| - 1])), created.View());
            && (t.Some? ==>
                  && order.lines == before
                  && order.selected == Some(before[t.value])
                  && before[t.value].qty == old(before[t.value].qty) + created.qty
                  && SameButQty(before[t.value])
                  && forall l :: l in before && l != before[t.value] ==> unchanged(l))
            && (t.None? ==>
                  && order.lines == before + [created]
                  && order.selected == Some(created)
                  && forall l :: l in before ==> unchanged(l))
    ensures unchanged(created)
  {
    ghost var before := Views(order.lines[..|order.lines| - 1]);
    ghost var cv := created.View();
    assert Views(order.lines) == before + [cv];
    var target := MergeTarget(order.lines, created);
    assert target == LastMergeable(before + [cv], cv);
    LastMergeableSkipsAdded(before, cv);
    if target.Some? {
      Absorb(order, target.value, created);
    }
  }

  /** The line `addLineToOrder` creates from `vals`, after `setup` defaulted its unit. */
  ghost predicate NewLineFrom(l: Orderline, vals: Vals, getPrice: (PosProduct, real, real) -> real,
                              scannedProduct: bool, newId: int, fullName: string, pickingUsesLots: bool)
    reads l
  {
    && l.id == newId && l.product == vals.product
    && l.uom == (if vals.uom.Some? then vals.uom else vals.product.uom)
    && l.priceType == PriceTypeOf(vals) && l.priceUnit == PriceUnitOf(vals, getPrice, scannedProduct)
    && l.qty == QtyOf(vals) && l.note == NoteOf(vals) && l.discount == 0.0
    && l.refundedLineId.None? && l.fullProductName == fullName
    && l.pickingUsesLots == pickingUsesLots && l.taxIds == vals.product.taxIds && l.lotNames == []
    && l.comboLines == []
  }

  /** `pos.order.line.create({...values, order_id: order})` followed by `selectOrderLine(order, line)`. */
  method CreateLine(order: Order, vals: Vals, getPrice: (PosProduct, real, real) -> real,
                    scannedProduct: bool, newId: int, fullName: string) returns (created: Orderline)
    modifies order
    ensures order.takeaway == old(order.takeaway) && order.fiscalPosition == old(order.fiscalPosition)
    ensures fresh(created)
    ensures NewLineFrom(created, vals, getPrice, scannedProduct, newId, fullName, order.pickingUsesLots)
    ensures order.lines == old(order.lines) + [created] && order.selected == Some(created)
    ensures Views(order.lines[..|order.lines| - 1]) == old(Views(order.lines))
  {
    created := new Orderline(newId, vals.product, vals.uom, PriceUnitOf(vals, getPrice, scannedProduct),
                             PriceTypeOf(vals), QtyOf(vals), NoteOf(vals), 0.0, None, fullName, None,
                             false, false, order.pickingUsesLots, vals.product.taxIds, []);
    order.lines := order.lines + [created];
    order.selected := Some(created);
  }

  /**
    `to_merge_orderline.merge(line)`, `line.delete()` and `selectOrderLine(order, to_merge_orderline)`:
    the target absorbs the new line's quantity and the new line, last on the order, is removed.
  */
  method Absorb(order: Order, k: nat, created: Orderline)
    requires |order.lines| > 0 && order.lines[|order.lines| - 1] == created
    requires k < |order.lines| - 1 && order.lines[k] != created
    modifies order, order.lines[k]
    ensures order.takeaway == old(order.takeaway) && order.fiscalPosition == old(order.fiscalPosition)
    ensures order.lines == old(order.lines[..|order.lines| - 1])
    ensures order.lines[k].qty == old(order.lines[k].qty) + created.qty
    ensures SameButQty(order.lines[k])
    ensures order.selected == Some(order.lines[k])
  {
    var to := order.lines[k];
    order.lines := order.lines[..|order.lines| - 1];
    to.qty := to.qty + created.qty;
    order.selected := Some(to);
  }

  /** The loop over `order.lines` that keeps the last line, other than `added`, able to absorb it. */
  method MergeTarget(ls: seq<Orderline>, added: Orderline) returns (target: Option<nat>)
    ensures target == LastMergeable(Views(ls), added.View())
  {
    target := None;
    var i := 0;
    while i < |ls|
      invariant 0 <= i <= |ls|
      invariant target == LastMergeable(Views(ls)[..i], added.View())
    {
      var cur := ls[i];
      assert Views(ls)[..i + 1][..i] == Views(ls)[..i];
      if cur.id != added.id && cur.CanBeMergedWith(added) {
        target := Some(i);
      }
      i := i + 1;
    }
    assert Views(ls)[..i] == Views(ls);
  }

  /** The added line itself is never its own merge target. */
  lemma LastMergeableSkipsAdded(vs: seq<LineView>, added: LineView)
    ensures LastMergeable(vs + [added], added) == LastMergeable(vs, added)
  {
    assert (vs + [added])[..|vs|] == vs;
  }
}
