/**
  The barcode and UoM-button patches of pos_multi_price_uom_barcode
  (static/src/js/multi_uom_price.js): a scanned code is looked up as a product barcode, a
  packaging barcode, then a multi-UoM line barcode; the matched line decides the unit and price
  of the added line, and the UoM button re-prices the selected line from a chosen row.
*/
module PosBarcode {
  import opened Common
  import opened PosOrderline

  /** A `product.packaging` as loaded in the POS. */
  datatype PosPackaging = PosPackaging(barcode: Option<string>, product: Option<PosProduct>)

  predicate HasLineBarcode(p: PosProduct, code: string) {
    exists j :: 0 <= j < |p.multiUom| && p.multiUom[j].barcode == Some(code)
  }

  /** `products[i]` is the first product whose barcode is the code: `getBy("barcode", code)`. */
  predicate FirstByBarcode(products: seq<PosProduct>, code: string, i: int) {
    0 <= i < |products| && products[i].barcode == Some(code)
    && forall j :: 0 <= j < i ==> products[j].barcode != Some(code)
  }

  /** `packagings[k]` is the first packaging whose barcode is the code. */
  predicate FirstPackaging(packagings: seq<PosPackaging>, code: string, k: int) {
    0 <= k < |packagings| && packagings[k].barcode == Some(code)
    && forall j :: 0 <= j < k ==> packagings[j].barcode != Some(code)
  }

  /** `products[i]` is the first product (in `getAll` order) with a multi-UoM line carrying the code. */
  predicate FirstByLineBarcode(products: seq<PosProduct>, code: string, i: int) {
    0 <= i < |products| && HasLineBarcode(products[i], code)
    && forall j :: 0 <= j < i ==> !HasLineBarcode(products[j], code)
  }

  /** The packaging step finds nothing: no packaging has the code, or the first one has no product. */
  predicate NoPackagingHit(packagings: seq<PosPackaging>, code: string) {
    forall k :: 0 <= k < |packagings| && FirstPackaging(packagings, code, k) ==> packagings[k].product.None?
  }

  /**
    The local part of `_getProductByBarcode(code)`, with `code` its `base_code`: the product with
    that barcode, else the product of the packaging with it, else the first product (in `getAll`
    order) with a multi-UoM line carrying it. An index lookup `getBy` is the first match.
  */
  function LocalLookup(products: seq<PosProduct>, packagings: seq<PosPackaging>, code: string): (r: Option<PosProduct>)
    ensures forall i :: FirstByBarcode(products, code, i) ==> r == Some(products[i])
    ensures forall k :: ((forall i :: 0 <= i < |products| ==> products[i].barcode != Some(code))
                         && FirstPackaging(packagings, code, k) && packagings[k].product.Some?) ==>
              r == packagings[k].product
    ensures forall i :: ((forall j :: 0 <= j < |products| ==> products[j].barcode != Some(code))
                         && NoPackagingHit(packagings, code) && FirstByLineBarcode(products, code, i)) ==>
              r == Some(products[i])
    ensures ((forall i :: 0 <= i < |products| ==> products[i].barcode != Some(code))
             && NoPackagingHit(packagings, code)
             && (forall i :: 0 <= i < |products| ==> !HasLineBarcode(products[i], code))) ==>
              r.None?
    ensures r.None? ==>
              && (forall i :: 0 <= i < |products| ==> products[i].barcode != Some(code) && !HasLineBarcode(products[i], code))
              && NoPackagingHit(packagings, code)
  {
    match FindFirst(products, (p: PosProduct) => p.barcode == Some(code))
    case Some(i) => Some(products[i])
    case None =>
      var fromPack :=
        match FindFirst(packagings, (k: PosPackaging) => k.barcode == Some(code))
        case Some(k) => packagings[k].product
        case None => None;
      if fromPack.Some? then fromPack
      else match FindFirst(products, (p: PosProduct) => HasLineBarcode(p, code))
        case Some(i) => Some(products[i])
        case None => None
  }

  /** `_getProductByBarcode(code)`: the local cascade, else what the server lookup `remote` found. */
  function ProductByBarcode(products: seq<PosProduct>, packagings: seq<PosPackaging>, code: string,
                            remote: Option<PosProduct>): (r: Option<PosProduct>)
    ensures LocalLookup(products, packagings, code).Some? ==> r == LocalLookup(products, packagings, code)
    ensures LocalLookup(products, packagings, code).None? ==> r == remote
  {
    var local := LocalLookup(products, packagings, code);
    if local.Some? then local else remote
  }

  /** The first multi-UoM line of the product whose barcode is `code`. */
  function MatchedLine(p: PosProduct, code: string): (r: Option<MultiUomLine>)
    ensures r.Some? <==> HasLineBarcode(p, code)
    ensures r.Some? ==> exists j :: 0 <= j < |p.multiUom| && p.multiUom[j] == r.value && r.value.barcode == Some(code)
                          && forall i :: 0 <= i < j ==> p.multiUom[i].barcode != Some(code)
  {
    match FindFirst(p.multiUom, (l: MultiUomLine) => l.barcode == Some(code))
    case Some(j) => Some(p.multiUom[j])
    case None => None
  }

  /**
    The `options` that `_barcodeProductAction` passes on: unit and price from the matched line,
    else the product's `uom_id` and `list_price`; `price_type` is set only for a matched line; the
    note is always empty.
  */
  function BarcodeOptions(p: PosProduct, code: string): (r: Vals)
    ensures r.product == p && r.note == Some("") && r.qty.None? && r.priceExtra.None?
    ensures r.priceType == Some("automatic") <==> HasLineBarcode(p, code)
    ensures !HasLineBarcode(p, code) ==> r.priceType.None? && r.uom == p.uom && r.priceUnit == Some(p.listPrice)
    ensures HasLineBarcode(p, code) ==>
              r.uom == Some(MatchedLine(p, code).value.uom) && r.priceUnit == Some(MatchedLine(p, code).value.price)
  {
    var m := MatchedLine(p, code);
    Vals(p, if m.Some? then Some(m.value.uom) else p.uom,
         Some(if m.Some? then m.value.price else p.listPrice),
         if m.Some? then Some("automatic") else None, None, None, Some(""))
  }

  /**
    What the added line gets from a scan: a matched multi-UoM line gives its price with
    `price_type` "automatic"; otherwise the list price is passed as an explicit `price_unit`, so
    `addLineToOrder` marks the line "manual".
  */
  lemma ScanPricing(p: PosProduct, code: string, getPrice: (PosProduct, real, real) -> real, scanned: bool)
    ensures var v := BarcodeOptions(p, code);
            && (HasLineBarcode(p, code) ==>
                  PriceUnitOf(v, getPrice, scanned) == MatchedLine(p, code).value.price
                  && PriceTypeOf(v) == "automatic")
            && (!HasLineBarcode(p, code) ==>
                  PriceUnitOf(v, getPrice, scanned) == p.listPrice && PriceTypeOf(v) == "manual")
  {
  }

  /**
    `_barcodeProductAction(code)`: None is the not-found notification (nothing is added);
    otherwise the options are added to the current order. `codeIsProduct` is `code.type === "product"`.
  */
  method BarcodeProductAction(order: Order, products: seq<PosProduct>, packagings: seq<PosPackaging>,
                              code: string, codeIsProduct: bool, remote: Option<PosProduct>,
                              isRefundOrder: bool, getPrice: (PosProduct, real, real) -> real,
                              newId: int, fullName: string) returns (line: Option<Orderline>)
    modifies order, order.lines
    ensures order.takeaway == old(order.takeaway) && order.fiscalPosition == old(order.fiscalPosition)
    ensures ProductByBarcode(products, packagings, code, remote).None? ==>
              line.None? && order.lines == old(order.lines) && order.selected == old(order.selected)
              && forall l :: l in old(order.lines) ==> unchanged(l)
    ensures ProductByBarcode(products, packagings, code, remote).Some? ==>
              var v := BarcodeOptions(ProductByBarcode(products, packagings, code, remote).value, code);
              && (RefusedOnRefund(order, isRefundOrder, v) ==>
                    line.None? && order.lines == old(order.lines) && order.selected == old(order.selected)
                    && forall l :: l in old(order.lines) ==> unchanged(l))
              && (!RefusedOnRefund(order, isRefundOrder, v) ==> line.Some? && fresh(line.value))
              && (line.Some? ==>
                    && line.value.product == ProductByBarcode(products, packagings, code, remote).value
                    && NewLineFrom(line.value, v, getPrice, codeIsProduct, newId, fullName, order.pickingUsesLots)
                    && AddedTo(order, line.value, old(order.lines)))
  {
    var product := ProductByBarcode(products, packagings, code, remote);
    if product.None? {
      return None;
    }
    line := AddLineToOrder(order, BarcodeOptions(product.value, code), isRefundOrder, getPrice, codeIsProduct,
                           newId, fullName);
  }

  /** A row of the "Select UOM" popup. `fmt` renders the price inside the caption (`label`). */
  datatype UomEntry = UomEntry(id: int, caption: string, isSelected: bool, item: MultiUomLine)

  /** The popup list: exactly one entry per multi-UoM line of the product, in order. */
  function UomEntries(p: PosProduct, fmt: real -> string): (r: seq<UomEntry>)
    ensures |r| == |p.multiUom|
    ensures forall i :: 0 <= i < |r| ==>
              r[i].item == p.multiUom[i] && r[i].id == p.multiUom[i].id && !r[i].isSelected
              && r[i].caption == p.multiUom[i].uom.name + " - Price: " + fmt(p.multiUom[i].price)
  {
    seq(|p.multiUom|, i requires 0 <= i < |p.multiUom| =>
      var u := p.multiUom[i];
      UomEntry(u.id, u.uom.name + " - Price: " + fmt(u.price), false, u))
  }

  /**
    `ControlButtons.onClick` with the popup's answer `choice` (None: dismissed): without a
    selected line nothing happens; otherwise the chosen row sets the line's unit (element 2 of the
    triple passed to `set_uom`), `price_type` "automatic", the unit price and an empty note.
  */
  method OnUomButton(order: Order, choice: Option<MultiUomLine>)
    requires choice.Some? && order.selected.Some? ==> choice.value in order.selected.value.product.multiUom
    modifies if order.selected.Some? then {order.selected.value} else {}
    ensures order.selected.Some? && choice.None? ==> unchanged(order.selected.value)
    ensures order.selected.Some? && choice.Some? ==>
              var l := order.selected.value;
              l.uom == Some(choice.value.uom) && l.priceType == "automatic"
              && l.priceUnit == choice.value.price && l.note == "" && l.qty == old(l.qty)
              && l.comboLines == old(l.comboLines)
  {
    if order.selected.None? {
      return;
    }
    var l := order.selected.value;
    if choice.Some? {
      var row := choice.value;
      l.SetUom((row.id, row.name, row.uom));
      l.priceType := "automatic";
      l.priceUnit := row.price;
      l.note := "";
    }
  }
}
