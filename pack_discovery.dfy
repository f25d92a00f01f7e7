/**
  Discovery and selection of packaging candidates, shared by the two resolvers of
  product_detail_search. A `Config` holds what differs between them: the allow-lists of UoM,
  price and barcode field names (first present field wins), whether a related model's name
  must contain "uom", and the order in which standalone line models are probed.
*/
module PackDiscovery {
  import opened Common
  import opened Catalog
  import StableSort

  datatype Config = Config(uomFields: seq<string>, priceFields: seq<string>, barcodeFields: seq<string>,
                           requireUomInName: bool, standaloneModels: seq<string>)

  /** A discovered (UoM, price, barcode) line; `barcode` is None when the line has none. */
  datatype Cand = Cand(uom: Uom, price: real, barcode: Option<string>)

  /** The first name of the allow-list that the record shape has. */
  function FirstPresent(names: seq<string>, keys: set<string>): (r: Option<string>)
    ensures r.Some? ==> r.value in keys && r.value in names
    ensures r.None? ==> forall i :: 0 <= i < |names| ==> names[i] !in keys
  {
    match FindFirst(names, n => n in keys)
    case Some(i) => Some(names[i])
    case None => None
  }

  /** The value of the first present UoM field; None when there is none or it is empty. */
  function UomOf(cfg: Config, rec: LineRec): Option<Uom> {
    match FindFirst(cfg.uomFields, n => n in rec.uoms)
    case Some(i) => rec.uoms[cfg.uomFields[i]]
    case None => None
  }

  function PriceOf(cfg: Config, rec: LineRec): Option<real> {
    match FindFirst(cfg.priceFields, n => n in rec.prices)
    case Some(i) => Some(rec.prices[cfg.priceFields[i]])
    case None => None
  }

  function BarcodeOf(cfg: Config, rec: LineRec): Option<string> {
    match FindFirst(cfg.barcodeFields, n => n in rec.barcodes)
    case Some(i) => rec.barcodes[cfg.barcodeFields[i]]
    case None => None
  }

  /** `extract` on one record: skipped unless its UoM is in the base category and it has a price field. */
  function ExtractLine(cfg: Config, baseCat: int, rec: LineRec): (r: Option<Cand>)
    ensures r.Some? ==> r.value.uom.category == baseCat
    ensures r.Some? ==> UomOf(cfg, rec) == Some(r.value.uom) && PriceOf(cfg, rec) == Some(r.value.price)
                        && r.value.barcode == BarcodeOf(cfg, rec)
    ensures r.None? <==> UomOf(cfg, rec).None? || UomOf(cfg, rec).value.category != baseCat || PriceOf(cfg, rec).None?
  {
    var u := UomOf(cfg, rec);
    var p := PriceOf(cfg, rec);
    if u.None? || u.value.category != baseCat || p.None? then None
    else Some(Cand(u.value, p.value, BarcodeOf(cfg, rec)))
  }

  function OptSeq<T>(o: Option<T>): seq<T> {
    if o.Some? then [o.value] else []
  }

  /** `extract` on a recordset, in record order. */
  function ExtractAll(cfg: Config, baseCat: int, recs: seq<LineRec>): (r: seq<Cand>)
    ensures forall c :: c in r ==> c.uom.category == baseCat
    ensures |r| <= |recs|
    decreases |recs|
  {
    if recs == [] then []
    else ExtractAll(cfg, baseCat, recs[..|recs| - 1]) + OptSeq(ExtractLine(cfg, baseCat, recs[|recs| - 1]))
  }

  /** Python's `needle in s.lower()`, for the ASCII model names the registry uses. */
  function ToLowerAscii(s: string): (r: string)
    ensures |r| == |s|
  {
    seq(|s|, i requires 0 <= i < |s| => if 'A' <= s[i] <= 'Z' then (s[i] as int + 32) as char else s[i])
  }

  predicate ContainsAt(s: string, t: string, i: nat) {
    i + |t| <= |s| && s[i..i + |t|] == t
  }

  predicate Contains(s: string, t: string) {
    exists i: nat | i <= |s| :: ContainsAt(s, t, i)
  }

  predicate HasAny(names: seq<string>, fields: set<string>) {
    exists i :: 0 <= i < |names| && names[i] in fields
  }

  /**
    Whether a field declaration is scanned (as intended): it is a one2many whose comodel is
    installed, passes the name filter, and has an allow-listed UoM field and price field.
  */
  function RelationOk(cfg: Config, env: map<string, Model>, f: FieldDecl): (r: bool)
    ensures r ==> f.isOne2many && f.comodel in env
    ensures r ==> HasAny(cfg.uomFields, env[f.comodel].fields) && HasAny(cfg.priceFields, env[f.comodel].fields)
    ensures r && cfg.requireUomInName ==> Contains(ToLowerAscii(f.comodel), "uom")
    ensures r ==> !RelationOkAsWritten(cfg, env, f)
  {
    && f.isOne2many
    && f.comodel in env
    && (!cfg.requireUomInName || Contains(ToLowerAscii(f.comodel), "uom"))
    && HasAny(cfg.uomFields, env[f.comodel].fields)
    && HasAny(cfg.priceFields, env[f.comodel].fields)
  }

  /** Candidates from the one2many relations of one record, in field order. */
  function RelationCands(cfg: Config, env: map<string, Model>, baseCat: int, fs: seq<FieldDecl>): (r: seq<Cand>)
    ensures forall c :: c in r ==> c.uom.category == baseCat
    decreases |fs|
  {
    if fs == [] then []
    else
      var f := fs[|fs| - 1];
      RelationCands(cfg, env, baseCat, fs[..|fs| - 1])
        + (if RelationOk(cfg, env, f) then ExtractAll(cfg, baseCat, f.lines) else [])
  }

  /** The domain filter of a standalone model: `product_id`, else `product_tmpl_id`, else skipped. */
  function StandaloneLink(m: Model, p: Product): (r: Option<(string, int)>)
    ensures r.Some? <==> "product_id" in m.fields || "product_tmpl_id" in m.fields
    ensures "product_id" in m.fields ==> r == Some(("product_id", p.id as int))
    ensures "product_id" !in m.fields && "product_tmpl_id" in m.fields ==> r == Some(("product_tmpl_id", p.tmplId as int))
  {
    if "product_id" in m.fields then Some(("product_id", p.id as int))
    else if "product_tmpl_id" in m.fields then Some(("product_tmpl_id", p.tmplId as int))
    else None
  }

  /** A row whose link field equals the domain's value. */
  predicate RowMatches(w: Row, link: (string, int)) {
    link.0 in w.links && w.links[link.0] == link.1
  }

  /** `Line.search(domain)`: the rows whose link field equals the value, in row order. */
  function MatchingRows(rows: seq<Row>, link: (string, int)): (r: seq<LineRec>)
    ensures |r| <= |rows|
    ensures forall x :: x in r ==> exists k :: 0 <= k < |rows| && rows[k].rec == x && RowMatches(rows[k], link)
    ensures forall k :: 0 <= k < |rows| && RowMatches(rows[k], link) ==> rows[k].rec in r
    decreases |rows|
  {
    if rows == [] then []
    else
      var w := rows[|rows| - 1];
      MatchingRows(rows[..|rows| - 1], link) + (if RowMatches(w, link) then [w.rec] else [])
  }

  /** The search keeps row order: the rows of `a` that match come before those of `b`. */
  lemma {:induction false} MatchingRowsConcat(a: seq<Row>, b: seq<Row>, link: (string, int))
    ensures MatchingRows(a + b, link) == MatchingRows(a, link) + MatchingRows(b, link)
    decreases |b|
  {
    if b == [] {
      assert a + b == a;
    } else {
      var b' := b[..|b| - 1];
      assert (a + b)[..|a + b| - 1] == a + b';
      assert (a + b)[|a + b| - 1] == b[|b| - 1];
      MatchingRowsConcat(a, b', link);
    }
  }

  function StandaloneOne(cfg: Config, env: map<string, Model>, baseCat: int, p: Product, name: string): seq<Cand> {
    if name !in env then []
    else
      var link := StandaloneLink(env[name], p);
      if link.None? then [] else ExtractAll(cfg, baseCat, MatchingRows(env[name].rows, link.value))
  }

  /** Candidates from the standalone models, probed in the configured order. */
  function StandaloneCands(cfg: Config, env: map<string, Model>, baseCat: int, p: Product, names: seq<string>): (r: seq<Cand>)
    ensures forall c :: c in r ==> c.uom.category == baseCat
    decreases |names|
  {
    if names == [] then []
    else StandaloneCands(cfg, env, baseCat, p, names[..|names| - 1])
           + StandaloneOne(cfg, env, baseCat, p, names[|names| - 1])
  }

  function TemplateFields(cat: Catalog, p: Product): seq<FieldDecl> {
    var t := TemplateOf(cat, p);
    if t.Some? then t.value.fields else []
  }

  /** The whole discovery, in generator order: variant relations, template relations, standalone models. */
  function DiscoverSpec(cfg: Config, cat: Catalog, p: Product): seq<Cand> {
    var baseCat := p.uom.category;
    RelationCands(cfg, cat.env, baseCat, p.fields)
      + RelationCands(cfg, cat.env, baseCat, TemplateFields(cat, p))
      + StandaloneCands(cfg, cat.env, baseCat, p, cfg.standaloneModels)
  }

  /** Every discovered candidate shares the product's base UoM category. */
  lemma DiscoveredInBaseCategory(cfg: Config, cat: Catalog, p: Product)
    ensures forall c :: c in DiscoverSpec(cfg, cat, p) ==> c.uom.category == p.uom.category
  {
  }

  /** `extract` on one record, as the source does it: each allow-list loop stops at the first present field. */
  method ExtractRec(cfg: Config, baseCat: int, rec: LineRec) returns (c: Option<Cand>)
    ensures c == ExtractLine(cfg, baseCat, rec)
  {
    var uom: Option<Uom> := None;
    for i := 0 to |cfg.uomFields|
      invariant forall k :: 0 <= k < i ==> cfg.uomFields[k] !in rec.uoms
      invariant uom.None?
    {
      if cfg.uomFields[i] in rec.uoms {
        uom := rec.uoms[cfg.uomFields[i]];
        assert FindFirst(cfg.uomFields, n => n in rec.uoms) == Some(i);
        break;
      }
    }
    assert uom == UomOf(cfg, rec);
    if uom.None? || uom.value.category != baseCat {
      return None;
    }
    var price: Option<real> := None;
    for i := 0 to |cfg.priceFields|
      invariant forall k :: 0 <= k < i ==> cfg.priceFields[k] !in rec.prices
      invariant price.None?
    {
      if cfg.priceFields[i] in rec.prices {
        price := Some(rec.prices[cfg.priceFields[i]]);
        assert FindFirst(cfg.priceFields, n => n in rec.prices) == Some(i);
        break;
      }
    }
    assert price == PriceOf(cfg, rec);
    if price.None? {
      return None;
    }
    var barcode: Option<string> := None;
    for i := 0 to |cfg.barcodeFields|
      invariant forall k :: 0 <= k < i ==> cfg.barcodeFields[k] !in rec.barcodes
      invariant barcode.None?
    {
      if cfg.barcodeFields[i] in rec.barcodes {
        barcode := rec.barcodes[cfg.barcodeFields[i]];
        assert FindFirst(cfg.barcodeFields, n => n in rec.barcodes) == Some(i);
        break;
      }
    }
    assert barcode == BarcodeOf(cfg, rec);
    c := Some(Cand(uom.value, price.value, barcode));
  }

  /** `extract` over a recordset, yielding in record order. */
  method ExtractRecs(cfg: Config, baseCat: int, recs: seq<LineRec>) returns (out: seq<Cand>)
    ensures out == ExtractAll(cfg, baseCat, recs)
  {
    out := [];
    for i := 0 to |recs|
      invariant out == ExtractAll(cfg, baseCat, recs[..i])
    {
      var c := ExtractRec(cfg, baseCat, recs[i]);
      assert recs[..i + 1][..i] == recs[..i];
      out := out + OptSeq(c);
    }
    assert recs[..|recs|] == recs;
  }

  /** The loop over `_fields` of a product or template, scanning the qualifying one2many relations. */
  method ScanRelations(cfg: Config, env: map<string, Model>, baseCat: int, fs: seq<FieldDecl>) returns (out: seq<Cand>)
    ensures out == RelationCands(cfg, env, baseCat, fs)
  {
    out := [];
    for i := 0 to |fs|
      invariant out == RelationCands(cfg, env, baseCat, fs[..i])
    {
      assert fs[..i + 1][..i] == fs[..i];
      if RelationOk(cfg, env, fs[i]) && fs[i].lines != [] {
        var more := ExtractRecs(cfg, baseCat, fs[i].lines);
        out := out + more;
      }
    }
    assert fs[..|fs|] == fs;
  }

  /** The loop over the standalone model names. */
  method ScanStandalone(cfg: Config, env: map<string, Model>, baseCat: int, p: Product) returns (out: seq<Cand>)
    ensures out == StandaloneCands(cfg, env, baseCat, p, cfg.standaloneModels)
  {
    var names := cfg.standaloneModels;
    out := [];
    for i := 0 to |names|
      invariant out == StandaloneCands(cfg, env, baseCat, p, names[..i])
    {
      assert names[..i + 1][..i] == names[..i];
      var name := names[i];
      if name !in env {
        continue;
      }
      var domain: seq<(string, int)> := [];
      if "product_id" in env[name].fields {
        domain := domain + [("product_id", p.id as int)];
      } else if "product_tmpl_id" in env[name].fields {
        domain := domain + [("product_tmpl_id", p.tmplId as int)];
      } else {
        continue;
      }
      var more := ExtractRecs(cfg, baseCat, MatchingRows(env[name].rows, domain[0]));
      out := out + more;
    }
    assert names[..|names|] == names;
  }

  /** The generator, collected into a list as `list(...)` does. */
  method Discover(cfg: Config, cat: Catalog, p: Product) returns (cands: seq<Cand>)
    ensures cands == DiscoverSpec(cfg, cat, p)
  {
    var baseCat := p.uom.category;
    var fromVariant := ScanRelations(cfg, cat.env, baseCat, p.fields);
    var fromTemplate := ScanRelations(cfg, cat.env, baseCat, TemplateFields(cat, p));
    var fromStandalone := ScanStandalone(cfg, cat.env, baseCat, p);
    cands := fromVariant + fromTemplate + fromStandalone;
  }

  // ---------------------------------------------------------------------------------------
  // The relation scan as written: `self.env.get(name)` returns the model's EMPTY recordset,
  // which is falsy, so `if not comodel: continue` skips every relation.
  // ---------------------------------------------------------------------------------------

  /** `self.env.get(name)`: the ids of the returned recordset (always none), or None if not installed. */
  function EnvGetAsWritten(env: map<string, Model>, name: string): Option<seq<int>> {
    if name in env then Some([]) else None
  }

  predicate Truthy(r: Option<seq<int>>) {
    r.Some? && |r.value| > 0
  }

  predicate RelationOkAsWritten(cfg: Config, env: map<string, Model>, f: FieldDecl) {
    && f.isOne2many
    && Truthy(EnvGetAsWritten(env, f.comodel))
    && (!cfg.requireUomInName || Contains(ToLowerAscii(f.comodel), "uom"))
    && HasAny(cfg.uomFields, env[f.comodel].fields)
    && HasAny(cfg.priceFields, env[f.comodel].fields)
  }

  function RelationCandsAsWritten(cfg: Config, env: map<string, Model>, baseCat: int, fs: seq<FieldDecl>): seq<Cand>
    decreases |fs|
  {
    if fs == [] then []
    else
      var f := fs[|fs| - 1];
      RelationCandsAsWritten(cfg, env, baseCat, fs[..|fs| - 1])
        + (if RelationOkAsWritten(cfg, env, f) then ExtractAll(cfg, baseCat, f.lines) else [])
  }

  /** As written, no one2many relation ever contributes a candidate. */
  lemma {:induction false} RelationScanDeadAsWritten(cfg: Config, env: map<string, Model>, baseCat: int, fs: seq<FieldDecl>)
    ensures RelationCandsAsWritten(cfg, env, baseCat, fs) == []
    decreases |fs|
  {
    if fs != [] {
      RelationScanDeadAsWritten(cfg, env, baseCat, fs[..|fs| - 1]);
    }
  }

  /** A qualifying relation with one in-category line: intended to yield it, yields nothing as written. */
  lemma RelationScanCounterexample(cfg: Config)
    requires |cfg.uomFields| > 0 && |cfg.priceFields| > 0
    ensures var dozen := Uom(2, "Dozens", 1, "bigger", 12.0);
            var line := LineRec(map[cfg.uomFields[0] := Some(dozen)], map[cfg.priceFields[0] := 72.0], map[]);
            var f := FieldDecl("uom_prices", true, "product.uom.price", [line]);
            var env := map["product.uom.price" := Model({cfg.uomFields[0], cfg.priceFields[0]}, [])];
            && RelationCands(cfg, env, 1, [f]) == [Cand(dozen, 72.0, None)]
            && RelationCandsAsWritten(cfg, env, 1, [f]) == []
  {
    var dozen := Uom(2, "Dozens", 1, "bigger", 12.0);
    var line := LineRec(map[cfg.uomFields[0] := Some(dozen)], map[cfg.priceFields[0] := 72.0], map[]);
    var f := FieldDecl("uom_prices", true, "product.uom.price", [line]);
    var env := map["product.uom.price" := Model({cfg.uomFields[0], cfg.priceFields[0]}, [])];
    assert ContainsAt(ToLowerAscii(f.comodel), "uom", 8);
    assert HasAny(cfg.uomFields, env[f.comodel].fields);
    assert HasAny(cfg.priceFields, env[f.comodel].fields);
    assert FindFirst(cfg.uomFields, n => n in line.uoms) == Some(0);
    assert FindFirst(cfg.priceFields, n => n in line.prices) == Some(0);
    assert [f][..0] == [];
    assert [line][..0] == [];
    RelationScanDeadAsWritten(cfg, env, 1, [f]);
  }

  // ---------------------------------------------------------------------------------------
  // Selection: `candidates.sort(key=_pref_key)` then the head.
  // ---------------------------------------------------------------------------------------

  /** First component of `_pref_key`: 0 for a 'bigger' UoM, 1 otherwise. */
  function Rank(u: Uom): (r: int)
    ensures r == 0 || r == 1
    ensures r == 0 <==> u.uomType == "bigger"
  {
    if u.uomType == "bigger" then 0 else 1
  }

  /** Second component of `_pref_key`: `factor or 1.0`. */
  function EffFactor(u: Uom): (r: real)
    ensures r != 0.0
    ensures u.factor != 0.0 ==> r == u.factor
  {
    if u.factor == 0.0 then 1.0 else u.factor
  }

  /** `not (key(b) < key(a))` for the tuple key: the order the stable sort follows. */
  function PrefLe(a: Cand, b: Cand): (r: bool)
    ensures a.uom.uomType == "bigger" && b.uom.uomType != "bigger" ==> r
    ensures r && a.uom.uomType != "bigger" ==> b.uom.uomType != "bigger"
    ensures a.uom.uomType == b.uom.uomType ==> (r <==> EffFactor(a.uom) <= EffFactor(b.uom))
  {
    Rank(a.uom) < Rank(b.uom) || (Rank(a.uom) == Rank(b.uom) && EffFactor(a.uom) <= EffFactor(b.uom))
  }

  lemma PrefLeTotalPreorder()
    ensures StableSort.TotalPreorder(PrefLe)
  {
  }

  /**
    `_pick_best_*`: sort a copy of the list in place and take its head; None when there is no
    candidate. The pick is the first candidate with the least key.
  */
  method PickBest(cands: seq<Cand>) returns (best: Option<Cand>)
    ensures best.None? <==> cands == []
    ensures best.Some? ==> best.value == StableSort.SortBy(cands, PrefLe)[0]
    ensures best.Some? ==> exists i :: StableSort.IsFirstMin(cands, i, PrefLe) && best.value == cands[i]
  {
    if cands == [] {
      return None;
    }
    var a := new Cand[|cands|](i requires 0 <= i < |cands| => cands[i]);
    assert a[..] == cands;
    StableSort.SortInPlace(a, PrefLe);
    best := Some(a[0]);
    PrefLeTotalPreorder();
    var i := StableSort.SortByHead(cands, PrefLe);
  }

  /**
    What the preference means: if any candidate is 'bigger', the pick is 'bigger' and has the
    least effective factor among the 'bigger' ones, whatever the discovery order; among equal
    keys the earliest discovered wins.
  */
  lemma PickPrefersBigger(cands: seq<Cand>, i: int)
    requires StableSort.IsFirstMin(cands, i, PrefLe)
    ensures (exists j :: 0 <= j < |cands| && cands[j].uom.uomType == "bigger") ==> cands[i].uom.uomType == "bigger"
    ensures forall j :: 0 <= j < |cands| && Rank(cands[j].uom) == Rank(cands[i].uom) ==> EffFactor(cands[i].uom) <= EffFactor(cands[j].uom)
    ensures forall j :: 0 <= j < i ==>
              (Rank(cands[j].uom) > Rank(cands[i].uom)
               || (Rank(cands[j].uom) == Rank(cands[i].uom) && EffFactor(cands[j].uom) > EffFactor(cands[i].uom)))
  {
  }

  /**
    Which records yield a candidate: the UoM is read only from the FIRST allow-listed UoM field
    the record has (an empty or foreign-category value there skips the record; later fields are
    not tried), and the record is dropped only when it has no allow-listed price field at all;
    the price is the first price field's value, whatever it is (0.0 included).
  */
  lemma ExtractLineMeaning(cfg: Config, baseCat: int, rec: LineRec)
    ensures ExtractLine(cfg, baseCat, rec).Some? <==>
              (exists i :: 0 <= i < |cfg.uomFields| && cfg.uomFields[i] in rec.uoms
                 && (forall k :: 0 <= k < i ==> cfg.uomFields[k] !in rec.uoms)
                 && rec.uoms[cfg.uomFields[i]].Some? && rec.uoms[cfg.uomFields[i]].value.category == baseCat)
              && HasAny(cfg.priceFields, rec.prices.Keys)
    ensures ExtractLine(cfg, baseCat, rec).Some? ==>
              exists i :: 0 <= i < |cfg.priceFields| && cfg.priceFields[i] in rec.prices
                && (forall k :: 0 <= k < i ==> cfg.priceFields[k] !in rec.prices)
                && ExtractLine(cfg, baseCat, rec).value.price == rec.prices[cfg.priceFields[i]]
  {
    var fu := FindFirst(cfg.uomFields, n => n in rec.uoms);
    var fp := FindFirst(cfg.priceFields, n => n in rec.prices);
    if fp.None? {
      assert !HasAny(cfg.priceFields, rec.prices.Keys);
    } else {
      assert HasAny(cfg.priceFields, rec.prices.Keys);
    }
    if fu.Some? {
      forall i | 0 <= i < |cfg.uomFields| && cfg.uomFields[i] in rec.uoms
                 && (forall k :: 0 <= k < i ==> cfg.uomFields[k] !in rec.uoms)
        ensures i == fu.value
      {
      }
    }
  }
}
