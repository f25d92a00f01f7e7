/**
  The first packaging ("تعبئة") resolver of product_detail_search, kept in
  static/src/js/uom_pack_patch.js (a Python file despite its name): a narrow allow-list, no
  model-name filter, no line barcode, and a fallback to the closest 'bigger' UoM of the base
  category in `product_detail_search`.
*/
module UomPackPatch {
  import opened Common
  import opened Catalog
  import Scan
  import StableSort
  import opened PackDiscovery

  const PatchConfig := Config(
    ["uom_id", "uom"],
    ["price", "uom_price", "amount", "list_price", "fixed_price"],
    [],
    false,
    ["product.multi.uom.price", "product.tmpl.multi.uom.price", "product.uom.price", "product.uom.price.line"])

  /** The `{"has_pack": ...}` answer. */
  datatype PackAnswer = NoPack | Pack(qty: real, price: real, name: string)

  /** MissingRecord: `Product.browse(id)` of an id that does not exist raises on the first field read. */
  datatype PackResult = Answer(answer: PackAnswer) | MissingRecord

  /**
    `Product.browse(id)`; None stands for a record that does not exist. A lookup by the product's own
    id, kept apart from `FirstOfTemplate` (a search by template id) because the resolver treats the
    two misses differently: a missing product is `MissingTarget`, a variant-less template is not.
  */
  function ProductById(cat: Catalog, id: nat): (r: Option<Product>)
    ensures r.Some? ==> r.value in cat.products && r.value.id == id
    ensures r.None? ==> forall i :: 0 <= i < |cat.products| ==> cat.products[i].id != id
  {
    match FindFirst(cat.products, (p: Product) => p.id == id)
    case Some(i) => Some(cat.products[i])
    case None => None
  }

  /** `Product.search([("product_tmpl_id", "=", id)], limit=1)`: the first variant of the template, by template id rather than product id. */
  function FirstOfTemplate(cat: Catalog, tmplId: nat): (r: Option<Product>)
    ensures r.Some? ==> r.value in cat.products && r.value.tmplId == tmplId
    ensures r.None? ==> forall i :: 0 <= i < |cat.products| ==> cat.products[i].tmplId != tmplId
  {
    match FindFirst(cat.products, (p: Product) => p.tmplId == tmplId)
    case Some(i) => Some(cat.products[i])
    case None => None
  }

  /** Which product `uom_pack_from_lines` looks at: NoTarget when neither id is given. */
  datatype Target = NoTarget | MissingTarget | TemplateWithoutVariant | Target(product: Product)

  /** `product_id` has precedence; a template id is resolved to its first variant. */
  function ResolveTarget(cat: Catalog, productId: nat, tmplId: nat): (r: Target)
    ensures productId == 0 && tmplId == 0 <==> r == NoTarget
    ensures r == MissingTarget <==> productId != 0 && ProductById(cat, productId).None?
    ensures r == TemplateWithoutVariant <==> productId == 0 && tmplId != 0 && FirstOfTemplate(cat, tmplId).None?
    ensures r.Target? && productId != 0 ==> r.product in cat.products && r.product.id == productId
    ensures r.Target? && productId == 0 ==> r.product in cat.products && r.product.tmplId == tmplId
  {
    if productId != 0 then
      match ProductById(cat, productId)
      case Some(p) => Target(p)
      case None => MissingTarget
    else if tmplId != 0 then
      match FirstOfTemplate(cat, tmplId)
      case Some(p) => Target(p)
      case None => TemplateWithoutVariant
    else NoTarget
  }

  /** The package of product `p` from its UoM lines: the preferred candidate, NoPack without one. */
  method PackFromLines(cat: Catalog, p: Product, ratio: (Uom, Uom) -> real, round: real -> real)
    returns (a: PackAnswer)
    ensures a.Pack? <==> DiscoverSpec(PatchConfig, cat, p) != []
    ensures a.Pack? ==>
              var cands := DiscoverSpec(PatchConfig, cat, p);
              exists i :: StableSort.IsFirstMin(cands, i, PrefLe)
                && a == Pack(ratio(cands[i].uom, p.uom), round(cands[i].price), cands[i].uom.name)
  {
    var cands := Discover(PatchConfig, cat, p);
    var best := PickBest(cands);
    if best.None? {
      return NoPack;
    }
    a := Pack(ratio(best.value.uom, p.uom), round(best.value.price), best.value.uom.name);
  }

  /**
    `uom_pack_from_lines(product_id, product_tmpl_id)`. An id of 0 is "not given"; `ratio` is
    `_ratio_to_base` (`uom._compute_quantity(1.0, base)`) and `round` the company currency's rounding.
    A template id without a variant and a product without candidates answer NoPack.
  */
  method UomPackFromLines(cat: Catalog, productId: nat, tmplId: nat,
                          ratio: (Uom, Uom) -> real, round: real -> real) returns (r: PackResult)
    ensures r == MissingRecord <==> ResolveTarget(cat, productId, tmplId) == MissingTarget
    ensures !ResolveTarget(cat, productId, tmplId).Target? && r.Answer? ==> r.answer == NoPack
    ensures ResolveTarget(cat, productId, tmplId).Target? ==>
              var p := ResolveTarget(cat, productId, tmplId).product;
              var cands := DiscoverSpec(PatchConfig, cat, p);
              && (r.answer.Pack? <==> cands != [])
              && (cands != [] ==>
                    exists i :: StableSort.IsFirstMin(cands, i, PrefLe)
                      && r.answer == Pack(ratio(cands[i].uom, p.uom), round(cands[i].price), cands[i].uom.name))
  {
    var target := ResolveTarget(cat, productId, tmplId);
    match target
    case MissingTarget => return MissingRecord;
    case NoTarget => return Answer(NoPack);
    case TemplateWithoutVariant => return Answer(NoPack);
    case Target(p) =>
      var a := PackFromLines(cat, p, ratio, round);
      return Answer(a);
  }

  /**
    The fallback search: `uom.uom` of the category with type 'bigger', `order="factor ASC"`,
    `limit=1` (ties taken in sequence order).
  */
  function SmallestBigger(uoms: seq<Uom>, category: int): (r: Option<Uom>)
    ensures r.Some? ==> r.value in uoms && r.value.category == category && r.value.uomType == "bigger"
    ensures r.Some? ==> forall u :: u in uoms && u.category == category && u.uomType == "bigger" ==> r.value.factor <= u.factor
    ensures r.None? ==> forall u :: u in uoms ==> !(u.category == category && u.uomType == "bigger")
    decreases |uoms|
  {
    if uoms == [] then None
    else
      var rest := SmallestBigger(uoms[1..], category);
      var u := uoms[0];
      assert forall v :: v in uoms ==> v == u || v in uoms[1..];
      if u.category == category && u.uomType == "bigger" && (rest.None? || u.factor <= rest.value.factor) then Some(u)
      else rest
  }

  /** The answer of `product_detail_search`; `EmptyDict` is `{}`. `packageName` None is False. */
  datatype Detail =
    | EmptyDict
    | Detail(productId: nat, tmplId: nat, displayName: string, barcode: Option<string>,
             scannedTerm: string, scannedAs: ScanTag,
             price: real, uomId: int, uomName: string, uomCategory: int,
             packageQty: real, packagePrice: real, packageName: Option<string>,
             currencyId: int, currencySymbol: string)

  /**
    The package part of the card: from the best line, else from the closest 'bigger' UoM priced
    at `lst_price × package_qty`, else 0.0 / 0.0 / False.
  */
  ghost predicate PackageOk(cat: Catalog, p: Product, ratio: (Uom, Uom) -> real, round: real -> real,
                            qty: real, price: real, name: Option<string>)
  {
    var cands := DiscoverSpec(PatchConfig, cat, p);
    var bigger := SmallestBigger(cat.uoms, p.uom.category);
    && (cands != [] ==>
          exists i :: StableSort.IsFirstMin(cands, i, PrefLe)
            && qty == ratio(cands[i].uom, p.uom) && price == round(cands[i].price)
            && name == Some(cands[i].uom.name))
    && (cands == [] && bigger.Some? ==>
          && qty == ratio(bigger.value, p.uom)
          && price == round(p.lstPrice * qty)
          && name == Some(bigger.value.name))
    && (cands == [] && bigger.None? ==> qty == 0.0 && price == 0.0 && name == None)
  }

  method DetailPackage(cat: Catalog, p: Product, ratio: (Uom, Uom) -> real, round: real -> real)
    returns (qty: real, price: real, name: Option<string>)
    ensures PackageOk(cat, p, ratio, round, qty, price, name)
  {
    var a := PackFromLines(cat, p, ratio, round);
    if a.Pack? {
      qty, price, name := a.qty, a.price, Some(a.name);
      return;
    }
    var bigger := SmallestBigger(cat.uoms, p.uom.category);
    if bigger.Some? {
      var q := ratio(bigger.value, p.uom);
      qty, price, name := q, round(p.lstPrice * q), Some(bigger.value.name);
      assert PackageOk(cat, p, ratio, round, qty, price, name);
    } else {
      qty, price, name := 0.0, 0.0, None;
    }
  }

  /** The card's part that does not depend on packages: the scanned product's unit data and the currency. */
  function UnitCard(d: Detail, cat: Catalog, p: Product, tag: ScanTag, term: string): (ok: bool)
    requires d.Detail?
    ensures ok ==> d.productId == p.id && d.uomId == p.uom.id && d.uomCategory == p.uom.category
    ensures ok ==> d.scannedAs == tag && d.scannedTerm == term && d.currencyId == cat.currency.id
  {
    && d.productId == p.id && d.tmplId == p.tmplId && d.displayName == p.displayName
    && d.barcode == p.barcode && d.scannedAs == tag && d.scannedTerm == term
    && d.price == p.lstPrice && d.uomId == p.uom.id && d.uomName == p.uom.name
    && d.uomCategory == p.uom.category
    && d.currencyId == cat.currency.id && d.currencySymbol == cat.currency.symbol
  }

  /** `product_detail_search(scan)`: {} when the scan resolves to nothing, else the product's card. */
  method ProductDetailSearch(cat: Catalog, scan: string, ratio: (Uom, Uom) -> real, round: real -> real)
    returns (r: Detail)
    ensures r == EmptyDict <==> FindProductFromScan(cat, scan) == NotFound
    ensures r.Detail? ==>
              var f := FindProductFromScan(cat, scan);
              UnitCard(r, cat, f.product, f.tag, Scan.Normalize(scan))
    ensures r.Detail? ==>
              PackageOk(cat, FindProductFromScan(cat, scan).product, ratio, round,
                        r.packageQty, r.packagePrice, r.packageName)
  {
    var found := FindProductFromScan(cat, scan);
    if found.NotFound? {
      return EmptyDict;
    }
    var p := found.product;
    var qty, price, name := DetailPackage(cat, p, ratio, round);
    r := Detail(p.id, p.tmplId, p.displayName, p.barcode, Scan.Normalize(scan), found.tag,
                p.lstPrice, p.uom.id, p.uom.name, p.uom.category, qty, price, name,
                cat.currency.id, cat.currency.symbol);
  }
}
