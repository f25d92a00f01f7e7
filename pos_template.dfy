/**
  The product extensions of pos_multi_price_uom_barcode (models/product_template.py): a template
  with a single variant mirrors its unit price lines on that variant, and the variant's unit is
  locked in that case.
*/
module PosTemplate {
  import opened Common
  import opened PosUomPrice

  /** A `product.template`: its variants (`product_variant_ids`) and its unit price lines. */
  class Template {
    const id: int
    var variants: seq<Variant>
    var lines: seq<PriceLine>

    constructor (id: int, lines: seq<PriceLine>)
      ensures this.id == id && this.variants == [] && this.lines == lines
    {
      this.id := id;
      this.variants := [];
      this.lines := lines;
    }
  }

  /** A `product.product`: its template, its own unit price lines and the computed `lock_uom`. */
  class Variant {
    const ref: VariantRef
    const template: Template
    var lines: seq<PriceLine>
    var lockUom: bool

    constructor (ref: VariantRef, template: Template)
      ensures this.ref == ref && this.template == template && this.lines == [] && !this.lockUom
    {
      this.ref := ref;
      this.template := template;
      this.lines := [];
      this.lockUom := false;
    }
  }

  /** The records `write` creates for a variant: one per template line, in order, on the variant only. */
  ghost predicate CopiesOf(copies: seq<PriceLine>, src: seq<PriceLine>, v: VariantRef)
    reads copies, src
  {
    && |copies| == |src|
    && forall k :: 0 <= k < |copies| ==>
         && copies[k].variant == Some(v) && copies[k].product.None?
         && copies[k].uom == src[k].uom && copies[k].price == src[k].price && copies[k].barcode == src[k].barcode
  }

  /** A template is in sync when, having exactly one variant, that variant holds copies of its lines. */
  ghost predicate Synced(t: Template)
    reads t, t.variants, t.lines, if |t.variants| == 1 then set l | l in t.variants[0].lines else {}
  {
    |t.variants| == 1 ==> CopiesOf(t.variants[0].lines, t.lines, t.variants[0].ref)
  }

  /**
    `ProductTemplate.write` after `super().write(vals)` (whose result `superResult` is returned):
    when `vals` has `multi_uom_price_id`, the single variant of each template gets its lines
    replaced by copies of the template's; every other variant keeps its lines.
  */
  method Write(templates: seq<Template>, hasKey: bool, superResult: bool, firstId: int) returns (res: bool)
    requires forall t, v :: t in templates && v in t.variants ==> v.template == t
    modifies set t, v | t in templates && v in t.variants :: v
    ensures res == superResult
    ensures hasKey ==> forall t :: t in templates ==> Synced(t)
    ensures forall t :: t in templates && |t.variants| == 1 && hasKey ==>
              forall l :: l in t.variants[0].lines ==> fresh(l)
    ensures forall t, v :: t in templates && v in t.variants && (!hasKey || |t.variants| != 1) ==>
              v.lines == old(v.lines)
    ensures forall t, v :: t in templates && v in t.variants ==> v.lockUom == old(v.lockUom)
  {
    res := superResult;
    if !hasKey {
      return;
    }
    var i := 0;
    var nextId := firstId;
    while i < |templates|
      invariant 0 <= i <= |templates|
      invariant forall t :: t in templates[..i] ==> Synced(t)
      invariant forall t :: t in templates[..i] && |t.variants| == 1 ==>
                  forall l :: l in t.variants[0].lines ==> fresh(l)
      invariant forall t, v :: t in templates && v in t.variants && (t !in templates[..i] || |t.variants| != 1) ==>
                  v.lines == old(v.lines)
      invariant forall t, v :: t in templates && v in t.variants ==> v.lockUom == old(v.lockUom)
    {
      var t := templates[i];
      if |t.variants| == 1 {
        var v := t.variants[0];
        assert v in t.variants;
        nextId := SyncVariant(t, v, nextId);
        forall u | u in templates[..i] && u != t
          ensures Synced(u)
        {
          assert |u.variants| == 1 ==> u.variants[0].template == u;
        }
      }
      assert templates[..i + 1] == templates[..i] + [t];
      forall u, w | u in templates && w in u.variants && (u !in templates[..i + 1] || |u.variants| != 1)
        ensures w.lines == old(w.lines)
      {
        assert w.template == u;
      }
      i := i + 1;
    }
    assert templates[..i] == templates;
  }

  /**
    One template of the loop: `variant.multi_uom_price_id = [(5, 0, 0)]` clears the variant's lines,
    then one create command per template line (unit, price, barcode, `variant_id`) is written.
  */
  method SyncVariant(t: Template, v: Variant, firstId: int) returns (nextId: int)
    modifies v
    ensures CopiesOf(v.lines, t.lines, v.ref)
    ensures forall l :: l in v.lines ==> fresh(l)
    ensures v.lockUom == old(v.lockUom)
  {
    v.lines := [];
    var commands: seq<PriceLine> := [];
    nextId := firstId;
    var k := 0;
    while k < |t.lines|
      invariant 0 <= k <= |t.lines|
      invariant CopiesOf(commands, t.lines[..k], v.ref)
      invariant forall l :: l in commands ==> fresh(l)
      invariant v.lockUom == old(v.lockUom)
    {
      var src := t.lines[k];
      var copy := new PriceLine(nextId, None, Some(v.ref), src.uom, src.price, src.barcode);
      commands := commands + [copy];
      nextId := nextId + 1;
      k := k + 1;
    }
    assert t.lines[..k] == t.lines;
    v.lines := commands;
  }

  /** `ProductProduct._compute_lock_uom`: a variant's unit is locked exactly when it is its template's only variant. */
  method ComputeLockUom(products: seq<Variant>)
    modifies products
    ensures forall p :: p in products ==> p.lockUom == (|p.template.variants| == 1) && p.lines == old(p.lines)
  {
    var i := 0;
    while i < |products|
      invariant 0 <= i <= |products|
      invariant forall k :: 0 <= k < i ==> products[k].lockUom == (|products[k].template.variants| == 1)
      invariant forall p :: p in products ==> p.lines == old(p.lines)
    {
      var product := products[i];
      product.lockUom := false;
      if |product.template.variants| == 1 {
        product.lockUom := true;
      }
      i := i + 1;
    }
  }

  /**
    `_load_pos_data_fields` of both `product.template` and `product.product`: `multi_uom_price_id`
    is appended to the inherited list, whose order is kept (the `+=` does not check for a repeat).
    `PosMargin.LineFields` is the same shape for another model and addon (`pos.order.line`, with
    `product_uom_id`); each stands for its own override.
  */
  function PosFields(inherited: seq<string>): (r: seq<string>)
    ensures |r| == |inherited| + 1 && r[..|inherited|] == inherited && r[|inherited|] == "multi_uom_price_id"
  {
    inherited + ["multi_uom_price_id"]
  }
}
