/**
  The POS session loaders of pos_multi_price_uom_barcode (models/pos_session.py): the unit price
  lines are grouped per product template for the loaded products, the price model is added to
  the models the POS loads, and the older loader builds a nested map product → units → entry.
*/
module PosSession {
  import opened Common

  /** A many2one as `search_read` returns it: the id and the display name. */
  datatype Ref = Ref(id: int, name: string)

  /** A `product.multi.uom.price` row of `search_read`; `product` is None where `product_id` is False. */
  datatype PriceRow = PriceRow(product: Option<Ref>, variant: Option<Ref>, uom: Ref, price: real, barcode: Option<string>)

  /** The entry the POS receives for one unit: the unit's id and name, the price and the barcode. */
  datatype Entry = Entry(id: int, name: string, price: real, barcode: Option<string>)

  function EntryOf(r: PriceRow): Entry {
    Entry(r.uom.id, r.uom.name, r.price, r.barcode)
  }

  predicate OfTemplate(r: PriceRow, t: int) {
    r.product.Some? && r.product.value.id == t
  }

  /** The entries of the rows of template `t`, in row order. */
  function EntriesOf(rows: seq<PriceRow>, t: int): seq<Entry>
    decreases |rows|
  {
    if rows == [] then []
    else
      var last := rows[|rows| - 1];
      EntriesOf(rows[..|rows| - 1], t) + (if OfTemplate(last, t) then [EntryOf(last)] else [])
  }

  /** A template's list holds an entry exactly for each of its rows, and is empty when it has none. */
  lemma {:induction false} EntriesOfExact(rows: seq<PriceRow>, t: int)
    ensures forall e :: e in EntriesOf(rows, t) <==> exists i :: 0 <= i < |rows| && OfTemplate(rows[i], t) && EntryOf(rows[i]) == e
    ensures EntriesOf(rows, t) == [] <==> forall i :: 0 <= i < |rows| ==> !OfTemplate(rows[i], t)
    decreases |rows|
  {
    if rows != [] {
      var init := rows[..|rows| - 1];
      EntriesOfExact(init, t);
      assert forall i :: 0 <= i < |init| ==> init[i] == rows[i];
    }
  }

  /**
    The search of `_process_pos_ui_product_product`: rows whose template has a variant among the
    loaded products; `variantsOf` gives a template's `product_variant_ids`.
  */
  function SearchForProducts(all: seq<PriceRow>, productIds: set<int>, variantsOf: int -> set<int>): (r: seq<PriceRow>)
    ensures forall row :: row in r <==>
              row in all && row.product.Some? && variantsOf(row.product.value.id) * productIds != {}
    decreases |all|
  {
    if all == [] then []
    else
      var row := all[0];
      (if row.product.Some? && variantsOf(row.product.value.id) * productIds != {} then [row] else [])
        + SearchForProducts(all[1..], productIds, variantsOf)
  }

  /** A product dict of the POS payload; `multiUomPrices` is the key the loader adds. */
  class ProductDict {
    const id: int
    const tmplId: int
    var multiUomPrices: seq<Entry>

    constructor (id: int, tmplId: int)
      ensures this.id == id && this.tmplId == tmplId && this.multiUomPrices == []
    {
      this.id := id;
      this.tmplId := tmplId;
      this.multiUomPrices := [];
    }
  }

  /** The first loop: `multi_uom_prices_by_product`, one list per template, filled in row order. */
  method GroupByTemplate(rows: seq<PriceRow>) returns (m: map<int, seq<Entry>>)
    requires forall i :: 0 <= i < |rows| ==> rows[i].product.Some?
    ensures forall t :: t in m <==> exists i :: 0 <= i < |rows| && OfTemplate(rows[i], t)
    ensures forall t :: t in m ==> m[t] == EntriesOf(rows, t)
  {
    m := map[];
    var i := 0;
    while i < |rows|
      invariant 0 <= i <= |rows|
      invariant forall t :: t in m <==> exists j :: 0 <= j < i && OfTemplate(rows[j], t)
      invariant forall t :: t in m ==> m[t] == EntriesOf(rows[..i], t)
    {
      var price := rows[i];
      var productId := price.product.value.id;
      if productId !in m {
        EntriesOfExact(rows[..i], productId);
        m := m[productId := []];
      }
      m := m[productId := m[productId] + [EntryOf(price)]];
      assert rows[..i + 1][..i] == rows[..i];
      assert forall t :: EntriesOf(rows[..i + 1], t)
                         == EntriesOf(rows[..i], t) + (if OfTemplate(price, t) then [EntryOf(price)] else []);
      i := i + 1;
    }
    assert rows[..i] == rows;
  }

  /**
    `_process_pos_ui_product_product` before its `super()` call: every product gets the entries of
    its template's rows among the searched ones, and [] when there are none.
  */
  method ProcessProducts(products: seq<ProductDict>, all: seq<PriceRow>, variantsOf: int -> set<int>)
    modifies products
    ensures forall p :: p in products ==>
              p.multiUomPrices == EntriesOf(SearchForProducts(all, set q | q in products :: q.id, variantsOf), p.tmplId)
  {
    var productIds := set q | q in products :: q.id;
    var rows := SearchForProducts(all, productIds, variantsOf);
    var byTemplate := GroupByTemplate(rows);
    var i := 0;
    while i < |products|
      invariant 0 <= i <= |products|
      invariant forall k :: 0 <= k < i ==> products[k].multiUomPrices == EntriesOf(rows, products[k].tmplId)
    {
      var product := products[i];
      if product.tmplId in byTemplate {
        product.multiUomPrices := byTemplate[product.tmplId];
      } else {
        EntriesOfExact(rows, product.tmplId);
        product.multiUomPrices := [];
      }
      i := i + 1;
    }
  }

  const PriceModel := "product.multi.uom.price"

  /**
    `_pos_ui_models_to_load` and `_load_pos_data_models`: the price model is appended to the
    inherited list unless it is already there; the order of the list is kept.
  */
  function WithPriceModel(models: seq<string>): (r: seq<string>)
    ensures PriceModel in r
    ensures PriceModel in models ==> r == models
    ensures PriceModel !in models ==> r == models + [PriceModel]
  {
    if PriceModel !in models then models + [PriceModel] else models
  }

  /** Loading twice adds nothing more. */
  lemma WithPriceModelIdempotent(models: seq<string>)
    ensures WithPriceModel(WithPriceModel(models)) == WithPriceModel(models)
  {
  }

  /** `_loader_params_product_multi_uom_price`: no domain, these fields. */
  const LoaderFields := ["product_id", "variant_id", "uom_id", "price", "barcode"]

  /** The `{'uom_id': {...}}` level of the nested map. */
  datatype UnitTable = UnitTable(uomId: map<int, Entry>)

  /** What `_get_pos_ui_product_multi_uom_price` gives back: its map, or the TypeError it raises. */
  datatype LoadResult = Loaded(m: map<int, UnitTable>) | TypeError

  /** One row stored under its template and unit, replacing an earlier row of the same pair. */
  function Store(m: map<int, UnitTable>, r: PriceRow): map<int, UnitTable>
    requires r.product.Some?
  {
    var p := r.product.value.id;
    var units := if p in m then m[p].uomId else map[];
    m[p := UnitTable(units[r.uom.id := EntryOf(r)])]
  }

  /** The nested map of the rows with a template, later rows winning. */
  function UnitMap(rows: seq<PriceRow>): (r: map<int, UnitTable>)
    ensures forall p :: p in r <==> exists i :: 0 <= i < |rows| && OfTemplate(rows[i], p)
    decreases |rows|
  {
    if rows == [] then map[]
    else
      var m := UnitMap(rows[..|rows| - 1]);
      var r := rows[|rows| - 1];
      if r.product.Some? then Store(m, r) else m
  }

  /** The index of the last row of template `p` with unit `u`. */
  function LastRowFor(rows: seq<PriceRow>, p: int, u: int): (r: Option<nat>)
    ensures r.Some? ==> r.value < |rows| && OfTemplate(rows[r.value], p) && rows[r.value].uom.id == u
    ensures r.Some? ==> forall j :: r.value < j < |rows| ==> !(OfTemplate(rows[j], p) && rows[j].uom.id == u)
    ensures r.None? ==> forall j :: 0 <= j < |rows| ==> !(OfTemplate(rows[j], p) && rows[j].uom.id == u)
    decreases |rows|
  {
    if rows == [] then None
    else if OfTemplate(rows[|rows| - 1], p) && rows[|rows| - 1].uom.id == u then Some(|rows| - 1)
    else LastRowFor(rows[..|rows| - 1], p, u)
  }

  /**
    The nested map holds a (template, unit) pair exactly when some row has it, and then the entry
    of the last such row; no rows give the empty map.
  */
  lemma {:induction false} UnitMapLastWins(rows: seq<PriceRow>, p: int, u: int)
    ensures (p in UnitMap(rows) && u in UnitMap(rows)[p].uomId) <==> LastRowFor(rows, p, u).Some?
    ensures LastRowFor(rows, p, u).Some? ==> UnitMap(rows)[p].uomId[u] == EntryOf(rows[LastRowFor(rows, p, u).value])
    decreases |rows|
  {
    if rows != [] {
      var init := rows[..|rows| - 1];
      UnitMapLastWins(init, p, u);
      assert forall j :: 0 <= j < |init| ==> init[j] == rows[j];
    }
  }

  /**
    `_get_pos_ui_product_multi_uom_price` as written: `unit['product_id'][0]` on a row whose
    `product_id` is False raises a TypeError. The empty domain reads variant-only rows too.
  */
  function UnitMapAsWritten(rows: seq<PriceRow>): (r: LoadResult)
    ensures r == TypeError <==> exists i :: 0 <= i < |rows| && rows[i].product.None?
    ensures r.Loaded? ==> r.m == UnitMap(rows)
    decreases |rows|
  {
    if rows == [] then Loaded(map[])
    else
      var r := rows[|rows| - 1];
      match UnitMapAsWritten(rows[..|rows| - 1])
      case TypeError => TypeError
      case Loaded(m) =>
        assert forall j :: 0 <= j < |rows| - 1 ==> rows[..|rows| - 1][j] == rows[j];
        if r.product.None? then TypeError else Loaded(Store(m, r))
  }

  /** The loop of the source as written: it stops at the first row without a template. */
  method GetUnitMapAsWritten(rows: seq<PriceRow>) returns (r: LoadResult)
    ensures r == UnitMapAsWritten(rows)
  {
    var m: map<int, UnitTable> := map[];
    var i := 0;
    while i < |rows|
      invariant 0 <= i <= |rows|
      invariant UnitMapAsWritten(rows[..i]) == Loaded(m)
    {
      var unit := rows[i];
      assert rows[..i + 1][..i] == rows[..i];
      if unit.product.None? {
        assert UnitMapAsWritten(rows[..i + 1]) == TypeError;
        assert rows == rows[..i + 1] + rows[i + 1..];
        TypeErrorPersists(rows[..i + 1], rows[i + 1..]);
        return TypeError;
      }
      m := Store(m, unit);
      i := i + 1;
    }
    assert rows[..i] == rows;
    r := Loaded(m);
  }

  /** Once a prefix of the rows raises, so do all the rows. */
  lemma {:induction false} TypeErrorPersists(prefix: seq<PriceRow>, rest: seq<PriceRow>)
    requires UnitMapAsWritten(prefix) == TypeError
    ensures UnitMapAsWritten(prefix + rest) == TypeError
  {
    var i :| 0 <= i < |prefix| && prefix[i].product.None?;
    assert (prefix + rest)[i] == prefix[i];
  }

  /** The variant-only row that `ProductTemplate.write` creates makes the loader raise; skipping it does not. */
  lemma VariantRowRaises()
    ensures var rows := [PriceRow(None, Some(Ref(7, "Desk")), Ref(3, "Box of 6"), 30.0, None)];
            UnitMapAsWritten(rows) == TypeError && UnitMap(rows) == map[]
  {
    var rows := [PriceRow(None, Some(Ref(7, "Desk")), Ref(3, "Box of 6"), 30.0, None)];
    assert rows[0].product.None?;
    assert rows[..0] == [];
  }

  /**
    The loader with the rows that have no template skipped, as the products loader's domain
    already does: the nested map of `UnitMap`.
  */
  method GetUnitMap(rows: seq<PriceRow>) returns (m: map<int, UnitTable>)
    ensures m == UnitMap(rows)
  {
    m := map[];
    var i := 0;
    while i < |rows|
      invariant 0 <= i <= |rows|
      invariant UnitMap(rows[..i]) == m
    {
      var unit := rows[i];
      assert rows[..i + 1][..i] == rows[..i];
      if unit.product.Some? {
        m := Store(m, unit);
      }
      i := i + 1;
    }
    assert rows[..i] == rows;
  }
}
