/**
  The second packaging resolver of product_detail_search (models/product_template.py): it
  prefers the lines of the POS multi-price UoM barcode module, with wider allow-lists, a
  "uom" name filter on related models, a barcode per line, and no fallback to a 'bigger' UoM.
*/
module PosMultiPricePack {
  import opened Common
  import opened Catalog
  import Scan
  import StableSort
  import opened PackDiscovery
  import UomPackPatch

  const PosConfig := Config(
    ["uom_id", "uom", "product_uom", "multi_uom_id", "uom_uom_id"],
    ["price", "unit_price", "uom_price", "amount", "fixed_price", "list_price"],
    ["barcode", "pack_barcode", "uom_barcode"],
    true,
    ["product.uom.price.line", "product.multi.uom.price", "product.tmpl.multi.uom.price", "product.uom.price"])

  const PosSource := "pos_multi_price_uom_barcode"

  /** Python's `barcode or False`: an empty barcode is False as well. */
  function OrFalse(b: Option<string>): (r: Option<string>)
    ensures r.Some? <==> b.Some? && b.value != ""
    ensures r.Some? ==> r == b
  {
    if b.Some? && b.value != "" then b else None
  }

  /** The `{"has_pack": ...}` answer with the line's barcode and the source tag. */
  datatype PackAnswer = NoPack | Pack(qty: real, price: real, name: string, barcode: Option<string>, source: string)

  datatype PackResult = Answer(answer: PackAnswer) | MissingRecord

  /** The package of product `p` from the module's lines; NoPack without any (there is no fallback). */
  method PackFromLines(cat: Catalog, p: Product, ratio: (Uom, Uom) -> real, round: real -> real)
    returns (a: PackAnswer)
    ensures a.Pack? <==> DiscoverSpec(PosConfig, cat, p) != []
    ensures a.Pack? ==>
              var cands := DiscoverSpec(PosConfig, cat, p);
              exists i :: StableSort.IsFirstMin(cands, i, PrefLe)
                && a == Pack(ratio(cands[i].uom, p.uom), round(cands[i].price), cands[i].uom.name,
                             OrFalse(cands[i].barcode), PosSource)
  {
    var cands := Discover(PosConfig, cat, p);
    var best := PickBest(cands);
    if best.None? {
      return NoPack;
    }
    a := Pack(ratio(best.value.uom, p.uom), round(best.value.price), best.value.uom.name,
              OrFalse(best.value.barcode), PosSource);
  }

  /** `uom_pack_from_lines(product_id, product_tmpl_id)`: product resolution as in the first resolver. */
  method UomPackFromLines(cat: Catalog, productId: nat, tmplId: nat,
                          ratio: (Uom, Uom) -> real, round: real -> real) returns (r: PackResult)
    ensures r == MissingRecord <==> UomPackPatch.ResolveTarget(cat, productId, tmplId) == UomPackPatch.MissingTarget
    ensures !UomPackPatch.ResolveTarget(cat, productId, tmplId).Target? && r.Answer? ==> r.answer == NoPack
    ensures UomPackPatch.ResolveTarget(cat, productId, tmplId).Target? ==>
              var p := UomPackPatch.ResolveTarget(cat, productId, tmplId).product;
              var cands := DiscoverSpec(PosConfig, cat, p);
              && (r.answer.Pack? <==> cands != [])
              && (cands != [] ==>
                    exists i :: StableSort.IsFirstMin(cands, i, PrefLe)
                      && r.answer == Pack(ratio(cands[i].uom, p.uom), round(cands[i].price), cands[i].uom.name,
                                          OrFalse(cands[i].barcode), PosSource))
  {
    var target := UomPackPatch.ResolveTarget(cat, productId, tmplId);
    match target
    case MissingTarget => return MissingRecord;
    case NoTarget => return Answer(NoPack);
    case TemplateWithoutVariant => return Answer(NoPack);
    case Target(p) =>
      var a := PackFromLines(cat, p, ratio, round);
      return Answer(a);
  }

  /** The answer of `product_detail_search`; `EmptyDict` is `{}`, None stands for False / None. */
  datatype Detail =
    | EmptyDict
    | Detail(productId: nat, tmplId: nat, displayName: string, barcode: Option<string>,
             scannedTerm: string, scannedAs: ScanTag,
             price: real, uomId: int, uomName: string, uomCategory: int,
             packageQty: real, packagePrice: real, packageName: Option<string>,
             packageBarcode: Option<string>, packSource: Option<string>,
             currencyId: int, currencySymbol: string)

  /** `product_detail_search(scan)`: the unit card, and a package only when a module line exists. */
  method ProductDetailSearch(cat: Catalog, scan: string, ratio: (Uom, Uom) -> real, round: real -> real)
    returns (r: Detail)
    ensures r == EmptyDict <==> FindProductFromScan(cat, scan) == NotFound
    ensures r.Detail? ==>
              var f := FindProductFromScan(cat, scan);
              var p := f.product;
              && r.productId == p.id && r.tmplId == p.tmplId && r.displayName == p.displayName
              && r.barcode == p.barcode && r.scannedAs == f.tag && r.scannedTerm == Scan.Normalize(scan)
              && r.price == p.lstPrice && r.uomId == p.uom.id && r.uomName == p.uom.name
              && r.uomCategory == p.uom.category
              && r.currencyId == cat.currency.id && r.currencySymbol == cat.currency.symbol
    ensures r.Detail? ==>
              var p := FindProductFromScan(cat, scan).product;
              var cands := DiscoverSpec(PosConfig, cat, p);
              && (cands == [] ==>
                    && r.packageQty == 0.0 && r.packagePrice == 0.0 && r.packageName == None
                    && r.packageBarcode == None && r.packSource == None)
              && (cands != [] ==>
                    exists i :: StableSort.IsFirstMin(cands, i, PrefLe)
                      && r.packageQty == ratio(cands[i].uom, p.uom) && r.packagePrice == round(cands[i].price)
                      && r.packageName == Some(cands[i].uom.name)
                      && r.packageBarcode == OrFalse(cands[i].barcode) && r.packSource == Some(PosSource))
  {
    var found := FindProductFromScan(cat, scan);
    if found.NotFound? {
      return EmptyDict;
    }
    var p := found.product;
    var a := PackFromLines(cat, p, ratio, round);
    var qty, price, name, barcode, source := 0.0, 0.0, None, None, None;
    if a.Pack? {
      qty, price, name, barcode, source := a.qty, a.price, Some(a.name), a.barcode, Some(a.source);
    }
    r := Detail(p.id, p.tmplId, p.displayName, p.barcode, Scan.Normalize(scan), found.tag,
                p.lstPrice, p.uom.id, p.uom.name, p.uom.category, qty, price, name, barcode, source,
                cat.currency.id, cat.currency.symbol);
  }

  /**
    The name filter exists only here: an installed one2many comodel with `uom_id` and `price`
    fields but without "uom" in its name is scanned by the first resolver and skipped by this one.
  */
  lemma NameFilterContrast(env: map<string, Model>, f: FieldDecl)
    requires f.isOne2many && f.comodel in env
    requires "uom_id" in env[f.comodel].fields && "price" in env[f.comodel].fields
    requires !Contains(ToLowerAscii(f.comodel), "uom")
    ensures RelationOk(UomPackPatch.PatchConfig, env, f)
    ensures !RelationOk(PosConfig, env, f)
  {
    assert UomPackPatch.PatchConfig.uomFields[0] == "uom_id";
    assert UomPackPatch.PatchConfig.priceFields[0] == "price";
  }

  /**
    A line whose only UoM field is `product_uom` yields a candidate here and none in the first
    resolver, whose allow-list stops at `uom_id` and `uom`.
  */
  lemma ProductUomFieldContrast(baseCat: int, u: Uom, price: real)
    requires u.category == baseCat
    ensures var rec := LineRec(map["product_uom" := Some(u)], map["price" := price], map[]);
            && ExtractLine(PosConfig, baseCat, rec) == Some(Cand(u, price, None))
            && ExtractLine(UomPackPatch.PatchConfig, baseCat, rec) == None
  {
    var rec := LineRec(map["product_uom" := Some(u)], map["price" := price], map[]);
    ExtractLineMeaning(PosConfig, baseCat, rec);
    ExtractLineMeaning(UomPackPatch.PatchConfig, baseCat, rec);
  }
}
