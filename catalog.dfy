/**
  The catalog records both packaging resolvers read, with the ORM replaced by explicit values:
  a model's record shape is its set of field names, a search is the first match in a sequence,
  and `env` is a map from installed model names to their shape and rows.
*/
module Catalog {
  import opened Common
  import Scan

  /** A `uom.uom` record: `factor` 0.0 stands for an unset (falsy) factor. */
  datatype Uom = Uom(id: int, name: string, category: int, uomType: string, factor: real)

  /**
    A record of some line model. Its shape is the union of the key sets: `uoms` holds its
    many2one fields to `uom.uom` (None for an empty value), `prices` its numeric fields and
    `barcodes` its char fields (None for False).
  */
  datatype LineRec = LineRec(uoms: map<string, Option<Uom>>, prices: map<string, real>,
                             barcodes: map<string, Option<string>>)

  /** A field declared on `product.product` or `product.template`, with its current lines. */
  datatype FieldDecl = FieldDecl(name: string, isOne2many: bool, comodel: string, lines: seq<LineRec>)

  /** A row of a standalone line model: its integer link fields and its line values. */
  datatype Row = Row(links: map<string, int>, rec: LineRec)

  /** An installed model: the names of its fields and its rows in search order. */
  datatype Model = Model(fields: set<string>, rows: seq<Row>)

  /** A `product.product`; `displayName` is its `display_name` in the user's language. */
  datatype Product = Product(id: nat, tmplId: nat, displayName: string, barcode: Option<string>, defaultCode: Option<string>,
                             uom: Uom, lstPrice: real, fields: seq<FieldDecl>)

  /** A `product.template`; `variant` is its `product_variant_id`. */
  datatype Template = Template(id: nat, barcode: Option<string>, defaultCode: Option<string>,
                               variant: Option<Product>, fields: seq<FieldDecl>)

  datatype Packaging = Packaging(barcode: Option<string>, product: Option<Product>, tmpl: Option<Template>)

  /** The company currency (`self.env.company.currency_id`); its rounding is a parameter where used. */
  datatype Currency = Currency(id: int, symbol: string)

  datatype Catalog = Catalog(products: seq<Product>, templates: seq<Template>, packagings: seq<Packaging>,
                             uoms: seq<Uom>, env: map<string, Model>, currency: Currency)

  /** How a scan was resolved (`scanned_as`); NotFound is the empty recordset with False. */
  datatype ScanTag = VariantTag | TemplateTag | PackagingTag
  datatype Found = Found(product: Product, tag: ScanTag) | NotFound

  predicate ProductMatches(p: Product, scan: string) {
    p.barcode == Some(scan) || p.defaultCode == Some(scan)
  }

  predicate TemplateMatches(t: Template, scan: string) {
    t.barcode == Some(scan) || t.defaultCode == Some(scan)
  }

  predicate PackagingMatches(k: Packaging, scan: string) {
    k.barcode == Some(scan)
  }

  /** The product a packaging identifies: its own product, else its template's variant. */
  function PackagingProduct(k: Packaging): Option<Product> {
    if k.product.Some? then k.product
    else if k.tmpl.Some? then k.tmpl.value.variant
    else None
  }

  /** `products[i]` is the first product matching the scan: what `Product.search(..., limit=1)` returns. */
  predicate FirstProduct(cat: Catalog, scan: string, i: int) {
    0 <= i < |cat.products| && ProductMatches(cat.products[i], scan)
    && forall j :: 0 <= j < i ==> !ProductMatches(cat.products[j], scan)
  }

  /** `templates[i]` is the first template matching the scan. */
  predicate FirstTemplate(cat: Catalog, scan: string, i: int) {
    0 <= i < |cat.templates| && TemplateMatches(cat.templates[i], scan)
    && forall j :: 0 <= j < i ==> !TemplateMatches(cat.templates[j], scan)
  }

  /** `packagings[k]` is the first packaging whose barcode is the scan. */
  predicate FirstPackaging(cat: Catalog, scan: string, k: int) {
    0 <= k < |cat.packagings| && PackagingMatches(cat.packagings[k], scan)
    && forall j :: 0 <= j < k ==> !PackagingMatches(cat.packagings[j], scan)
  }

  /** No product has the scan as barcode or internal reference. */
  predicate NoProduct(cat: Catalog, scan: string) {
    forall i :: 0 <= i < |cat.products| ==> !ProductMatches(cat.products[i], scan)
  }

  /** The template step gives nothing: no template matches, or the first one has no variant. */
  predicate NoTemplateHit(cat: Catalog, scan: string) {
    forall i :: 0 <= i < |cat.templates| && FirstTemplate(cat, scan, i) ==> cat.templates[i].variant.None?
  }

  /** The packaging step gives nothing: no packaging matches, or the first one identifies no product. */
  predicate NoPackagingHit(cat: Catalog, scan: string) {
    forall k :: 0 <= k < |cat.packagings| && FirstPackaging(cat, scan, k) ==> PackagingProduct(cat.packagings[k]).None?
  }

  /**
    `_find_product_from_scan`: normalise, then the first match wins, in the order variant by
    barcode or internal reference, template by barcode or reference (only the first such
    template, and only if it has a variant), packaging by barcode (only the first such
    packaging); otherwise nothing.
  */
  function FindProductFromScan(cat: Catalog, raw: string): (r: Found)
    ensures var scan := Scan.Normalize(raw);
      && (scan == [] ==> r == NotFound)
      && (forall i :: scan != [] && FirstProduct(cat, scan, i) ==> r == Found(cat.products[i], VariantTag))
      && (forall i :: (scan != [] && NoProduct(cat, scan) && FirstTemplate(cat, scan, i)
                       && cat.templates[i].variant.Some?) ==>
            r == Found(cat.templates[i].variant.value, TemplateTag))
      && (forall k :: (scan != [] && NoProduct(cat, scan) && NoTemplateHit(cat, scan) && FirstPackaging(cat, scan, k)
                       && PackagingProduct(cat.packagings[k]).Some?) ==>
            r == Found(PackagingProduct(cat.packagings[k]).value, PackagingTag))
      && (scan != [] && NoProduct(cat, scan) && NoTemplateHit(cat, scan) && NoPackagingHit(cat, scan) ==>
            r == NotFound)
      && (r.Found? && r.tag == VariantTag <==>
            scan != [] && exists i :: 0 <= i < |cat.products| && ProductMatches(cat.products[i], scan))
      && (r.Found? && r.tag != VariantTag ==> NoProduct(cat, scan))
  {
    var scan := Scan.Normalize(raw);
    if scan == [] then NotFound
    else ProductStep(cat, scan)
  }

  /** The variant step of the lookup: the first product by barcode or reference; otherwise the template step. */
  function ProductStep(cat: Catalog, scan: string): (r: Found)
    ensures forall i :: FirstProduct(cat, scan, i) ==> r == Found(cat.products[i], VariantTag)
    ensures NoProduct(cat, scan) ==> r == TemplateStep(cat, scan)
    ensures r.Found? && r.tag == VariantTag <==> exists i :: 0 <= i < |cat.products| && ProductMatches(cat.products[i], scan)
  {
    match FindFirst(cat.products, p => ProductMatches(p, scan))
    case Some(i) => Found(cat.products[i], VariantTag)
    case None => TemplateStep(cat, scan)
  }

  /**
    The template step of the lookup: the first template by barcode or reference, when it has a
    variant; otherwise the packaging step.
  */
  function TemplateStep(cat: Catalog, scan: string): (r: Found)
    ensures forall i :: FirstTemplate(cat, scan, i) && cat.templates[i].variant.Some? ==>
              r == Found(cat.templates[i].variant.value, TemplateTag)
    ensures NoTemplateHit(cat, scan) ==> r == PackagingStep(cat, scan)
    ensures r.Found? ==> r.tag != VariantTag
  {
    var t := FindFirst(cat.templates, t => TemplateMatches(t, scan));
    if t.Some? && cat.templates[t.value].variant.Some? then
      Found(cat.templates[t.value].variant.value, TemplateTag)
    else PackagingStep(cat, scan)
  }

  /** The packaging step: the first packaging with the scan as barcode, when it identifies a product. */
  function PackagingStep(cat: Catalog, scan: string): (r: Found)
    ensures forall k :: FirstPackaging(cat, scan, k) && PackagingProduct(cat.packagings[k]).Some? ==>
              r == Found(PackagingProduct(cat.packagings[k]).value, PackagingTag)
    ensures NoPackagingHit(cat, scan) ==> r == NotFound
    ensures r.Found? ==> r.tag == PackagingTag
  {
    match FindFirst(cat.packagings, k => PackagingMatches(k, scan))
    case Some(k) =>
      if PackagingProduct(cat.packagings[k]).Some? then Found(PackagingProduct(cat.packagings[k]).value, PackagingTag)
      else NotFound
    case None => NotFound
  }

  /** The template of a product (`product.product_tmpl_id`); None stands for the empty recordset. */
  function TemplateOf(cat: Catalog, p: Product): (r: Option<Template>)
    ensures r.Some? ==> r.value in cat.templates && r.value.id == p.tmplId
    ensures r.None? ==> forall i :: 0 <= i < |cat.templates| ==> cat.templates[i].id != p.tmplId
  {
    match FindFirst(cat.templates, (t: Template) => t.id == p.tmplId)
    case Some(i) => Some(cat.templates[i])
    case None => None
  }
}
