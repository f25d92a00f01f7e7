# Odoo addons: packaging, POS multi-UoM, demand forecast and late time-off — a Dafny model

This project models the logic at the heart of four Odoo 18 addons and proves properties of it.

- **product_detail_search**: two resolvers answer "what is the packaging (تعبئة) of this product?".
  They normalise a scan, find the product, and discover (unit, price, barcode) lines from related models.
  Then they pick the preferred line with a stable sort and build the product card.
  The first resolver (`static/src/js/uom_pack_patch.js`, a Python file) falls back to the closest 'bigger' unit.
  The second (`models/product_template.py`) prefers the POS multi-price module's lines and carries a line barcode.
- **pos_multi_price_uom_barcode**: extra sale units per product with their own price and barcode.
  - The `product.multi.uom.price` model, its constraints and onchange.
  - The template-to-variant line sync and the unit lock.
  - The POS loaders.
  - The margin in the line's unit.
  - On the POS side:
    - order lines that carry their own unit and merge only when units agree;
    - the barcode cascade and the UoM button;
    - refunds that keep the refunded line's unit.
- **predictive_dashboard_lite_v1**: daily demand from stock moves or sale lines, densified over the date window.
  - A daily rate by SMA, WMA or exponential smoothing.
  - Forecast, days left and shortage date per line.
  - Ranking by forecast, the top-N cut and the KPI counters.
- **hr_timeoff_late_block_v18**: a company policy blocks a time-off request whose start lies more than a threshold of days in the past.
  The threshold itself must not be negative.

Records the source changes in place are classes with `modifies` clauses:
- POS order lines, orders and refund details;
- price lines, templates, variants and product dicts;
- margin lines;
- the forecast wizard.

Loops that update variables are methods with loop invariants, each proved equal to a specification function.
The ORM is replaced by explicit values: record shapes are sets of field names, a search is the first match in a sequence, and an `env` is a map from model names to models.
Services the code calls but does not define are function-typed parameters:
- unit conversion, `currency.round`, `float_is_zero` and `get_price`;
- stock on hand and unit names;
- the server barcode lookup.

Quantities and prices are `real`. Dates are proleptic Gregorian ordinals, as Python's `date.toordinal()` numbers them (`date.max` is day 3652059).

Where the written description of the addons and the code disagree, the model follows the code:
- `uom_pack_from_lines` with the id of a product that does not exist: `browse` gives a truthy record, and reading it raises.
  The model answers `MissingRecord` there, not "no packaging".
- The second resolver has no fallback to a 'bigger' unit: those lines are commented out (`product_template.py:265-279`).
- The one2many relation scan of both resolvers never yields anything as written; see Findings.
  Here the model departs from the code: the members marked "(corrected scan)" below use the corrected scan.
- `onDoRefund`'s test for reusing the props order compares a line id with a record and never matches.
  `PosRefund.Destination` uses the intended id test; see Findings.

Modules: `Common`, `Scan`, `Catalog`, `StableSort`, `PackDiscovery`, `UomPackPatch`, `PosMultiPricePack`,
`PosOrderline`, `PosBarcode`, `PosRefund`, `PosUomPrice`, `PosTemplate`, `PosSession`, `PosMargin`,
`Forecast`, `ResCompany`, `HrLeave`.

## Model

| member | source | states |
|---|---|---|
| Common.FindFirst | product_detail_search/models/product_template.py:41-43 | the index of the first element with the property, and no earlier one has it; None iff no element has it (a `search(limit=1)`) |
| Scan.TranslateChar | product_detail_search/models/product_template.py:14 | an Arabic-Indic digit maps to the ASCII digit of the same value, any other character is kept; no Arabic digit remains |
| Scan.Translate | product_detail_search/models/product_template.py:27 | the translation keeps the length and maps each character by `TranslateChar` |
| Scan.LStripSpec | product_detail_search/models/product_template.py:27 | left stripping drops exactly the leading run of whitespace |
| Scan.RStripSpec | product_detail_search/models/product_template.py:27 | right stripping drops exactly the trailing run of whitespace |
| Scan.StripSpec | product_detail_search/models/product_template.py:27 | `strip()` is the slice between the first and last non-space characters; all that is cut off is whitespace |
| Scan.NormalizeSpec | product_detail_search/models/product_template.py:22-27 | the normalised scan is the translated trimmed slice of the input, "" for an empty input |
| Scan.StripTrimmed | product_detail_search/models/product_template.py:27 | a string with no surrounding whitespace is its own strip |
| Scan.Strip | product_detail_search/models/product_template.py:27 | `strip()` never lengthens the text and leaves no whitespace at either end |
| Scan.Normalize | product_detail_search/models/product_template.py:22-27 | the normalised scan is no longer than the text, has no surrounding whitespace and no Arabic-Indic digit |
| Scan.LStrip | product_detail_search/models/product_template.py:27 | left stripping never lengthens and leaves no leading whitespace |
| Scan.RStrip | product_detail_search/models/product_template.py:27 | right stripping never lengthens, keeps the first character and leaves no trailing whitespace |
| Scan.NormalizeIdempotent | product_detail_search/static/src/js/uom_pack_patch.js:22-28 | normalising a normalised scan changes nothing (the card's `scanned_term` re-normalises) |
| Catalog.FindProductFromScan | product_detail_search/models/product_template.py:30-62 | empty scan: NotFound; else equal to the first product by barcode or reference (variant tag); if none, the variant of the first matching template when it has one (template tag); if no template hit, the first matching packaging's product, or its template's variant, when it resolves (packaging tag); NotFound when all three miss; the variant tag iff some product matches |
| Catalog.ProductStep | product_detail_search/models/product_template.py:41-45 | the first product whose barcode or default code is the scan is found as a variant; with none the template step decides; a variant hit iff some product matches |
| Catalog.TemplateStep | product_detail_search/models/product_template.py:47-52 | the first matching template's variant is found as a template; with no usable template the packaging step decides; never a variant tag |
| Catalog.PackagingStep | product_detail_search/models/product_template.py:54-62 | the first packaging with the barcode gives its product, or its template's variant; with none, not found; only the packaging tag |
| Catalog.TemplateOf | product_detail_search/models/product_template.py:140 | the product's template when one has its template id, None iff none does |
| PackDiscovery.FirstPresent | product_detail_search/models/product_template.py:95-98 | the first allow-listed name the record shape has; None iff it has none |
| PackDiscovery.ExtractAll | product_detail_search/models/product_template.py:90-118 | every extracted candidate's unit is in the base category; at most one candidate per record |
| PackDiscovery.ToLowerAscii | product_detail_search/models/product_template.py:129 | lower-casing keeps the length |
| PackDiscovery.RelationCands | product_detail_search/models/product_template.py:121-155 | the corrected relation scan yields only base-category candidates |
| PackDiscovery.StandaloneLink | product_detail_search/models/product_template.py:168-177 | the domain binds `product_id` when the model has it, else `product_tmpl_id`, and the model is skipped iff it has neither |
| PackDiscovery.MatchingRows | product_detail_search/models/product_template.py:178 | exactly the rows whose link field equals the value: every returned record comes from a matching row and every matching row's record is returned; never more records than rows |
| PackDiscovery.MatchingRowsConcat | product_detail_search/models/product_template.py:178 | the search keeps row order: the result on `a + b` is the result on `a` followed by the result on `b` |
| PackDiscovery.StandaloneCands | product_detail_search/models/product_template.py:157-180 | the standalone models yield only base-category candidates |
| PackDiscovery.DiscoveredInBaseCategory | product_detail_search/models/product_template.py:83-180 | every discovered candidate shares the product's unit category |
| PackDiscovery.ExtractRec | product_detail_search/models/product_template.py:92-118 | the loops over the allow-lists compute the `ExtractLine` candidate of the record |
| PackDiscovery.ExtractRecs | product_detail_search/models/product_template.py:90-118 | the loop over a recordset yields `ExtractAll`, in record order |
| PackDiscovery.ScanRelations | product_detail_search/models/product_template.py:120-155 | the loop over `_fields` yields the candidates of the qualifying relations (corrected scan) |
| PackDiscovery.ScanStandalone | product_detail_search/models/product_template.py:157-180 | the loop over the standalone model names yields `StandaloneCands` in probe order |
| PackDiscovery.Discover | product_detail_search/models/product_template.py:74-180 | (corrected scan) the collected generator is variant relations, then template relations, then standalone models |
| PackDiscovery.RelationScanDeadAsWritten | product_detail_search/models/product_template.py:125-127 | as written, `env.get` gives an empty (falsy) recordset, so no relation ever contributes |
| PackDiscovery.RelationScanCounterexample | product_detail_search/static/src/js/uom_pack_patch.js:121-169 | a qualifying relation with one in-category line yields that line when corrected, and nothing as written |
| PackDiscovery.Rank | product_detail_search/models/product_template.py:70 | rank 0 iff the unit is 'bigger', else 1 |
| PackDiscovery.EffFactor | product_detail_search/models/product_template.py:71 | the factor when non-zero, never 0 (`factor or 1.0`) |
| PackDiscovery.PrefLe | product_detail_search/models/product_template.py:69-71 | a 'bigger' line comes before any other; among units of the same type the smaller effective factor comes first |
| PackDiscovery.ExtractLine | product_detail_search/models/product_template.py:90-118 | a record yields iff it has an allow-listed unit in the base category and a price; the line carries that unit, the price and the record's barcode |
| PackDiscovery.RelationOk | product_detail_search/models/product_template.py:122-133 | (corrected scan) a qualifying field is a one2many whose comodel exists and has a unit and a price field, with "uom" in its lower-cased name when required; the code as written never qualifies it |
| PackDiscovery.PrefLeTotalPreorder | product_detail_search/models/product_template.py:69-71 | the `_pref_key` order is total and transitive |
| PackDiscovery.PickBest | product_detail_search/models/product_template.py:182-193 | None iff no candidate; else the head of the stable sort, which is the first candidate with the least key |
| PackDiscovery.PickPrefersBigger | product_detail_search/models/product_template.py:69-71 | if any candidate is 'bigger' the pick is; among its rank it has the least `factor or 1.0`; every earlier candidate has a strictly greater key |
| PackDiscovery.ExtractLineMeaning | product_detail_search/static/src/js/uom_pack_patch.js:100-119 | a record yields iff its first allow-listed unit field holds a base-category unit and it has a price field; the price is the first price field's value |
| UomPackPatch.ProductById | product_detail_search/static/src/js/uom_pack_patch.js:195 | the product with the id, None iff there is none |
| UomPackPatch.FirstOfTemplate | product_detail_search/static/src/js/uom_pack_patch.js:197 | the first product of the template, None iff there is none |
| UomPackPatch.ResolveTarget | product_detail_search/static/src/js/uom_pack_patch.js:193-202 | no id: no target; a product id has precedence; a missing product id is `MissingTarget`; a template without a variant has no target |
| UomPackPatch.PackFromLines | product_detail_search/static/src/js/uom_pack_patch.js:207-217 | (corrected scan) a pack iff some candidate exists, built from the first least-key candidate: quantity = ratio to the base unit, rounded line price, the unit's name |
| UomPackPatch.UomPackFromLines | product_detail_search/static/src/js/uom_pack_patch.js:188-217 | (corrected scan) raises iff the product id does not exist; no target answers no pack; otherwise the pack of the preferred line, no pack without candidates |
| UomPackPatch.SmallestBigger | product_detail_search/static/src/js/uom_pack_patch.js:257-261 | a 'bigger' unit of the category with the least factor; None iff the category has none |
| UomPackPatch.DetailPackage | product_detail_search/static/src/js/uom_pack_patch.js:245-265 | (corrected scan) the package from the preferred line; else from the closest 'bigger' unit priced at list price × quantity, rounded; else 0.0 / 0.0 / False |
| UomPackPatch.UnitCard | product_detail_search/static/src/js/uom_pack_patch.js:268-291 | the card carries the product's id, its unit and category, the scan tag, the normalised term and the currency |
| UomPackPatch.ProductDetailSearch | product_detail_search/static/src/js/uom_pack_patch.js:230-291 | (corrected scan) `{}` iff the scan resolves to nothing; else the product's unit card, the currency and the package of `DetailPackage` |
| PosMultiPricePack.OrFalse | product_detail_search/models/product_template.py:225 | `barcode or False`: kept iff present and non-empty |
| PosMultiPricePack.PackFromLines | product_detail_search/models/product_template.py:208-230 | (corrected scan) a pack iff some module line qualifies, built from the first least-key line, with its barcode and the source tag |
| PosMultiPricePack.UomPackFromLines | product_detail_search/models/product_template.py:196-230 | (corrected scan) the same product resolution as the first resolver; the pack of the preferred module line, no pack without one |
| PosMultiPricePack.ProductDetailSearch | product_detail_search/models/product_template.py:233-303 | (corrected scan) `{}` iff nothing is found; the unit card; a package (with barcode and source) only from a module line, otherwise zeros and False, with no 'bigger' fallback |
| PosMultiPricePack.NameFilterContrast | product_detail_search/models/product_template.py:129 | a comodel without "uom" in its name is scanned by the first resolver and skipped by the second |
| PosMultiPricePack.ProductUomFieldContrast | product_detail_search/models/product_template.py:87 | a line whose unit is in `product_uom` yields a candidate in the second resolver and none in the first |
| PosOrderline.Orderline.constructor | pos_multi_price_uom_barcode/static/src/js/models.js:14-17 | a new line's unit defaults to the product's unit when none is given |
| PosOrderline.Orderline.SetUom | pos_multi_price_uom_barcode/static/src/js/models.js:18-20 | the unit becomes element 2 of the triple; the price, price type, quantity and note are unchanged |
| PosOrderline.Orderline.Unit | pos_multi_price_uom_barcode/static/src/js/models.js:32-39 | the line's unit when set, else the product's |
| PosOrderline.Orderline.DisplayUnit | pos_multi_price_uom_barcode/static/src/js/models.js:21-31 | the displayed unit is the name of `Unit()`, "" without one |
| PosOrderline.Orderline.View | pos_multi_price_uom_barcode/static/src/js/models.js:40-75 | the merge view holds the line's id, product, unit id, price, note, discount, refund and combo flags |
| PosOrderline.Orderline.CanBeMergedWith | pos_multi_price_uom_barcode/static/src/js/models.js:40-76 | a line that can absorb another has its product, unit, unit price and note, and refunds nothing |
| PosOrderline.Mergeable | pos_multi_price_uom_barcode/static/src/js/models.js:57-75 | mergeable views agree on product, unit, price, note and name; a skip-change, refund, combo-part or discounted pair never merges |
| PosOrderline.MergeNeeds | pos_multi_price_uom_barcode/static/src/js/models.js:57-75 | mergeable lines agree on unit, unit price and product; the existing line has no discount and refunds nothing; the added line is not in a combo |
| PosOrderline.DifferentUnitsNeverMerge | pos_multi_price_uom_barcode/static/src/js/models.js:57 | lines whose units differ never merge |
| PosOrderline.Order.constructor | pos_multi_price_uom_barcode/static/src/js/models.js:80-111 | the order starts with the given lines, selection and settings |
| PosOrderline.PriceTypeOf | pos_multi_price_uom_barcode/static/src/js/models.js:97-105 | `vals.price_type` wins; else "manual" iff a price was given, "original" otherwise |
| PosOrderline.QtyOf | pos_multi_price_uom_barcode/static/src/js/models.js:102 | the given quantity, 1 when none is given |
| PosOrderline.RefusedOnRefund | pos_multi_price_uom_barcode/static/src/js/models.js:108-118 | refused iff the order forbids mixing, is a refund order and the quantity is 0 or positive (a missing quantity counts as 1) |
| PosOrderline.PriceUnitOf | pos_multi_price_uom_barcode/static/src/js/models.js:295-307 | a (final) `vals.price_extra` outside a product scan re-prices; else the given price; else 0 for a combo and the pricelist price otherwise |
| PosOrderline.Views | pos_multi_price_uom_barcode/static/src/js/models.js:324 | one view per line, in order |
| PosOrderline.LastMergeable | pos_multi_price_uom_barcode/static/src/js/models.js:323-330 | the last line other than the added one that can absorb it, None iff there is none |
| PosOrderline.AddLineToOrder | pos_multi_price_uom_barcode/static/src/js/models.js:80-357 | refused on a refund order: lines, selection and every old line unchanged; otherwise a fresh line built from `vals`, then either merged into the last mergeable old line (its quantity grows, its other fields stay, it is selected, the lines are the old ones and every other old line is unchanged) or appended and selected with every old line unchanged; the order's takeaway flag and fiscal position are unchanged in every case |
| PosOrderline.MergeOrKeep | pos_multi_price_uom_barcode/static/src/js/models.js:323-338 | the last mergeable old line absorbs the new line (quantity grows, other fields unchanged, selected) and the new line is removed, every other old line unchanged; or the new line stays last and selected with every old line unchanged; the order's takeaway flag and fiscal position are unchanged |
| PosOrderline.CreateLine | pos_multi_price_uom_barcode/static/src/js/models.js:309-311 | the created line is appended and selected; the earlier lines' views are unchanged |
| PosOrderline.Absorb | pos_multi_price_uom_barcode/static/src/js/models.js:332-335 | the target's quantity grows by the new line's and its other fields stay, the new line is deleted and the target selected |
| PosOrderline.MergeTarget | pos_multi_price_uom_barcode/static/src/js/models.js:323-330 | the loop finds `LastMergeable` of the order's lines |
| PosOrderline.LastMergeableSkipsAdded | pos_multi_price_uom_barcode/static/src/js/models.js:325 | the added line never is its own merge target |
| PosBarcode.LocalLookup | pos_multi_price_uom_barcode/static/src/js/multi_uom_price.js:13-34 | equal to the first product with the barcode; if none, the product of the first packaging with the code when it is set; if no packaging hits, the first product with a multi-UoM line carrying the code; None exactly when all three fail |
| PosBarcode.ProductByBarcode | pos_multi_price_uom_barcode/static/src/js/multi_uom_price.js:13-50 | the local result when there is one, else the server lookup's |
| PosBarcode.MatchedLine | pos_multi_price_uom_barcode/static/src/js/multi_uom_price.js:61-64 | the first multi-UoM line with the code, None iff there is none |
| PosBarcode.BarcodeOptions | pos_multi_price_uom_barcode/static/src/js/multi_uom_price.js:66-74 | a matched line gives its unit and price and "automatic"; otherwise the product's unit and list price; the note is empty |
| PosBarcode.ScanPricing | pos_multi_price_uom_barcode/static/src/js/multi_uom_price.js:66-80 | a matched line prices the added line at its price, "automatic"; otherwise at the list price, "manual" |
| PosBarcode.BarcodeProductAction | pos_multi_price_uom_barcode/static/src/js/multi_uom_price.js:53-83 | no product found, or refused on a refund order: lines, selection and old lines unchanged; otherwise a fresh line of the found product built from `BarcodeOptions`, merged into the last mergeable old line or appended, as `AddLineToOrder` states; the order's takeaway flag and fiscal position are unchanged in every case |
| PosBarcode.UomEntries | pos_multi_price_uom_barcode/static/src/js/multi_uom_price.js:94-101 | one popup row per multi-UoM line, in order, unselected, captioned "unit - Price: price" |
| PosBarcode.OnUomButton | pos_multi_price_uom_barcode/static/src/js/multi_uom_price.js:86-117 | without a selected line nothing changes; without a choice the selected line is unchanged; else the line takes the chosen unit and price, "automatic" and an empty note, with its quantity and combo lines kept |
| PosRefund.RefundDetail.constructor | pos_multi_price_uom_barcode/static/src/js/TicketScreen.js:8 | a detail holds its line and quantity, with no unit and no destination yet |
| PosRefund.GetToRefundDetail | pos_multi_price_uom_barcode/static/src/js/TicketScreen.js:7-11 | the framework's detail, with the line's unit added and nothing else changed |
| PosRefund.RefundsOfExact | pos_multi_price_uom_barcode/static/src/js/TicketScreen.js:70-72 | a line's refunds are exactly the recorded ones and the created lines refunding it |
| PosRefund.ChildRefundsComplete | pos_multi_price_uom_barcode/static/src/js/TicketScreen.js:66-76 | every created line refunding a combo child is among the links of the parent's refund |
| PosRefund.Store.constructor | pos_multi_price_uom_barcode/static/src/js/TicketScreen.js:95-97 | the store starts with the given current order |
| PosRefund.CreateRefundLines | pos_multi_price_uom_barcode/static/src/js/TicketScreen.js:43-64 | one fresh, distinct line per detail: negated quantity, copied price, product, discount, unit, taxes and lots, "automatic"; each detail tagged with the destination; appended to the destination |
| PosRefund.CreateOne | pos_multi_price_uom_barcode/static/src/js/TicketScreen.js:46-63 | one iteration creates the refund line of a detail and tags the detail |
| PosRefund.LinkComboRefunds | pos_multi_price_uom_barcode/static/src/js/TicketScreen.js:65-76 | each created refund line of a combo parent gets, as its combo links, the refunds of the parent's children |
| PosRefund.LinkOne | pos_multi_price_uom_barcode/static/src/js/TicketScreen.js:73-75 | the line's combo links grow by the children; its other fields are unchanged |
| PosRefund.Compatible | pos_multi_price_uom_barcode/static/src/js/TicketScreen.js:33-36 | every non-negative line is compatible; a negative compatible line refunds one of the order's lines |
| PosRefund.Reusable | pos_multi_price_uom_barcode/static/src/js/TicketScreen.js:30-39 | the destination prop is reused only for the same partner and when mixing is allowed; an empty destination is reused exactly then; one whose lines are all non-negative is reused then too |
| PosRefund.RefundInto | pos_multi_price_uom_barcode/static/src/js/TicketScreen.js:43-76 | the refund lines are created into the destination, then combo parents are linked to their children's refunds |
| PosRefund.Destination | pos_multi_price_uom_barcode/static/src/js/TicketScreen.js:30-39 | the props order exactly when it is given and reusable (every line compatible, same partner, mixing allowed), else the new empty order |
| PosRefund.DestinationAsWritten | pos_multi_price_uom_barcode/static/src/js/TicketScreen.js:30-39 | as written: a props order holding any line of negative quantity is never reused |
| PosRefund.RefundLineDestinationCounterexample | pos_multi_price_uom_barcode/static/src/js/TicketScreen.js:30-39 | a props order whose one line refunds a line of the refunded order is reused by the intended test and replaced by the empty order as written |
| PosRefund.OnDoRefund | pos_multi_price_uom_barcode/static/src/js/TicketScreen.js:12-101 | no order, a refused auto-refund or nothing to refund: nothing happens (store, empty order, destination prop and every detail unchanged); else the destination is `Destination` of the state on entry and gets the takeaway flag and the refund lines, keeping its selection; the order not chosen is unchanged and every detail keeps its unit; a missing fiscal position stops before the order switch; else the fiscal position is copied and the destination becomes current |
| PosRefund.FinishRefund | pos_multi_price_uom_barcode/static/src/js/TicketScreen.js:78-97 | a fiscal position that was not loaded stops at the alert with nothing changed; otherwise the fiscal position is copied when set and the destination becomes current |
| PosUomPrice.PriceLine.constructor | pos_multi_price_uom_barcode/models/product_multi_uom_price.py:9-27 | a record with its template or variant, unit, price and barcode, and no category yet |
| PosUomPrice.ConstrainsUom | pos_multi_price_uom_barcode/models/product_multi_uom_price.py:53-59 | raises iff some record's unit is its template's unit or its variant's unit, with the source's message |
| PosUomPrice.PriceTable.constructor | pos_multi_price_uom_barcode/models/product_multi_uom_price.py:29-32 | an empty table is unique per (template, unit) |
| PosUomPrice.PriceTable.Insert | pos_multi_price_uom_barcode/models/product_multi_uom_price.py:29-32 | an insert succeeds iff it clashes with no row on (template, unit), and keeps the table unique |
| PosUomPrice.VariantLinesNeverClash | pos_multi_price_uom_barcode/models/product_multi_uom_price.py:29-32 | rows without a template (NULL `product_id`) never violate the index |
| PosUomPrice.ComputeCategory | pos_multi_price_uom_barcode/models/product_multi_uom_price.py:80-86 | the category is the variant's template unit category, else the template's, else False; prices unchanged |
| PosUomPrice.OnchangeUom | pos_multi_price_uom_barcode/models/product_multi_uom_price.py:45-51 | the price is the template's list price, else the variant's sale price, times the unit's `factor_inv`; otherwise kept |
| PosUomPrice.LabelLayoutContext | pos_multi_price_uom_barcode/models/product_multi_uom_price.py:34-43 | the label context has the line's barcode and price, and the template ids when set, else the variant ids |
| PosUomPrice.LoadPosData | pos_multi_price_uom_barcode/models/product_multi_uom_price.py:61-78 | one row per record, in order, with these fields and each row named after its unit |
| PosTemplate.Template.constructor | pos_multi_price_uom_barcode/models/product_template.py:7-9 | a template with its lines and no variants yet |
| PosTemplate.Variant.constructor | pos_multi_price_uom_barcode/models/product_template.py:37-41 | a variant of its template, with no lines and the unit unlocked |
| PosTemplate.Write | pos_multi_price_uom_barcode/models/product_template.py:11-28 | returns the parent's result; with the key every template is in sync: a sole variant holds fresh copies of the template's lines; other variants' lines and every lock are unchanged |
| PosTemplate.SyncVariant | pos_multi_price_uom_barcode/models/product_template.py:17-27 | the variant's old lines are cleared and replaced by fresh copies (unit, price, barcode, variant) of the template's lines, in order |
| PosTemplate.ComputeLockUom | pos_multi_price_uom_barcode/models/product_template.py:43-48 | a variant's unit is locked iff it is its template's only variant |
| PosTemplate.PosFields | pos_multi_price_uom_barcode/models/product_template.py:30-34 | `multi_uom_price_id` is appended to the inherited field list, whose order is kept |
| PosSession.EntriesOfExact | pos_multi_price_uom_barcode/models/pos_session.py:17-27 | a template's list holds an entry exactly for each of its rows, empty without rows |
| PosSession.SearchForProducts | pos_multi_price_uom_barcode/models/pos_session.py:11-14 | the searched rows are exactly those whose template has a loaded variant |
| PosSession.ProductDict.constructor | pos_multi_price_uom_barcode/models/pos_session.py:29-30 | a product dict with its id and template id |
| PosSession.GroupByTemplate | pos_multi_price_uom_barcode/models/pos_session.py:17-27 | the grouping has a key exactly for the rows' templates, each holding `EntriesOf` |
| PosSession.ProcessProducts | pos_multi_price_uom_barcode/models/pos_session.py:10-32 | every product gets its template's entries among the searched rows, [] without any |
| PosSession.WithPriceModel | pos_multi_price_uom_barcode/models/pos_session.py:34-47 | the price model is in the list afterwards; appended only when missing; the order is kept |
| PosSession.WithPriceModelIdempotent | pos_multi_price_uom_barcode/models/pos_session.py:34-47 | adding the price model twice is adding it once |
| PosSession.LastRowFor | pos_multi_price_uom_barcode/models/pos_session.py:57-65 | the last row of the template with the unit, None iff there is none |
| PosSession.UnitMapLastWins | pos_multi_price_uom_barcode/models/pos_session.py:53-67 | the nested map has (template, unit) iff a row has it, holding the entry of the last such row |
| PosSession.UnitMapAsWritten | pos_multi_price_uom_barcode/models/pos_session.py:53-67 | as written, the loader raises iff some row has no template; otherwise it gives `UnitMap` |
| PosSession.GetUnitMapAsWritten | pos_multi_price_uom_barcode/models/pos_session.py:53-67 | the loop as written computes `UnitMapAsWritten` |
| PosSession.TypeErrorPersists | pos_multi_price_uom_barcode/models/pos_session.py:57-59 | once a prefix of the rows raises, the whole load raises |
| PosSession.VariantRowRaises | pos_multi_price_uom_barcode/models/pos_session.py:50-67 | one variant-only row makes the loader raise; the corrected loader gives the empty map |
| PosSession.UnitMap | pos_multi_price_uom_barcode/models/pos_session.py:53-67 | (corrected loader) the map has a template key iff some row of that template is read |
| PosSession.GetUnitMap | pos_multi_price_uom_barcode/models/pos_session.py:53-67 | the corrected loop computes `UnitMap`, skipping rows without a template |
| PosMargin.SaleLine.constructor | pos_multi_price_uom_barcode/models/pos_order.py:10-20 | a line with its ratios, subtotal, cost and rounding |
| PosMargin.Ratio | pos_multi_price_uom_barcode/models/pos_order.py:18 | the line unit's ratio when set, else the product unit's |
| PosMargin.ComputeMargin | pos_multi_price_uom_barcode/models/pos_order.py:15-20 | raises iff some line divides by zero, at the first such line; every line before it has margin = subtotal − cost / ratio and percent 0 at zero subtotal, else margin / subtotal; every line after it that is not also an earlier record is unchanged |
| PosMargin.MarginInProductUnit | pos_multi_price_uom_barcode/models/pos_order.py:18-19 | in the product's own unit the margin is the standard subtotal − cost / product ratio |
| PosMargin.LineFields | pos_multi_price_uom_barcode/models/pos_order.py:22-25 | `product_uom_id` is appended to the inherited fields, their order kept |
| Forecast.DateRange | predictive_dashboard_lite_v1/models/predictive_models.py:14-18 | every day from d1 to d2, ascending, none when d1 > d2 |
| Forecast.LocationDomainOf | predictive_dashboard_lite_v1/models/predictive_models.py:90-96 | chosen locations win, then the warehouse's view location, then internal usage |
| Forecast.MoveDelta | predictive_dashboard_lite_v1/models/predictive_models.py:132-141 | internal to external is +qty; external to internal is −qty with returns, else 0; moves within or outside stock are 0 |
| Forecast.StockContributions | predictive_dashboard_lite_v1/models/predictive_models.py:128-146 | zero deltas are skipped, so every stock contribution is non-zero; at most one per move |
| Forecast.SaleContributions | predictive_dashboard_lite_v1/models/predictive_models.py:148-153 | exactly one contribution per sale line, with its day, quantity and key |
| Forecast.KeysOfExact | predictive_dashboard_lite_v1/models/predictive_models.py:143-152 | the series keys are exactly the contributing keys, each once |
| Forecast.DaySumNone | predictive_dashboard_lite_v1/models/predictive_models.py:159 | a key and day without contributions have demand 0.0 |
| Forecast.Accumulate | predictive_dashboard_lite_v1/models/predictive_models.py:125-153 | the loop builds the keys in first-seen order and, per key and day, the sum of the contributions; absent days sum to 0 |
| Forecast.DensifyOne | predictive_dashboard_lite_v1/models/predictive_models.py:156-160 | one value per day of the window, the day's sum or 0.0 |
| Forecast.ReadDailyDemand | predictive_dashboard_lite_v1/models/predictive_models.py:124-162 | one series per key, each with exactly one value per day of the window: that day's summed demand, 0.0 where there is none |
| Forecast.SumConstant | predictive_dashboard_lite_v1/models/predictive_models.py:167 | the sum of n copies of c is c·n |
| Forecast.Sma | predictive_dashboard_lite_v1/models/predictive_models.py:165-168 | 0 for an empty series; otherwise rate × n equals the sum |
| Forecast.SmaConstant | predictive_dashboard_lite_v1/models/predictive_models.py:165-168 | the SMA of a constant series is the constant |
| Forecast.TrianglePositive | predictive_dashboard_lite_v1/models/predictive_models.py:174-177 | the sum of the weights 1..w is positive for w > 0 |
| Forecast.WeightedSumConstant | predictive_dashboard_lite_v1/models/predictive_models.py:174-176 | the weighted sum of a constant series is the constant times the sum of the weights |
| Forecast.Wma | predictive_dashboard_lite_v1/models/predictive_models.py:169-178 | a negative window or an empty series gives 0 |
| Forecast.WmaWindow | predictive_dashboard_lite_v1/models/predictive_models.py:170-171 | on a non-empty series the window is 1 when unset, else the given window, clamped to n |
| Forecast.WmaConstant | predictive_dashboard_lite_v1/models/predictive_models.py:169-178 | the WMA of a constant series is the constant |
| Forecast.Alpha | predictive_dashboard_lite_v1/models/predictive_models.py:180 | the smoothing factor always lies in [0, 1] (0.3 outside it) |
| Forecast.Ets | predictive_dashboard_lite_v1/models/predictive_models.py:179-189 | the loop with its `init` flag computes the exponential smoothing of the clamped factor |
| Forecast.SmoothedConstant | predictive_dashboard_lite_v1/models/predictive_models.py:181-189 | smoothing a constant series gives the constant |
| Forecast.Mix | predictive_dashboard_lite_v1/models/predictive_models.py:188 | one smoothing step stays between the bounds of its two inputs |
| Forecast.SmoothedBetween | predictive_dashboard_lite_v1/models/predictive_models.py:181-189 | the smoothed rate stays between the least and the greatest value |
| Forecast.Smoothed | predictive_dashboard_lite_v1/models/predictive_models.py:181-189 | an empty series smooths to 0, a one-value series to its value |
| Forecast.RateOf | predictive_dashboard_lite_v1/models/predictive_models.py:164-189 | an empty series rates 0 under every method; a negative WMA window rates 0 |
| Forecast.WmaUnfold | predictive_dashboard_lite_v1/models/predictive_models.py:170-178 | on a non-empty series the WMA is the weighted sum of the last w values over the triangle number of w, 1 ≤ w ≤ n |
| Forecast.RateFromSeries | predictive_dashboard_lite_v1/models/predictive_models.py:163-189 | `_rate_from_series` dispatches on the method: SMA, WMA or ETS of the series |
| Forecast.RateOfConstant | predictive_dashboard_lite_v1/models/predictive_models.py:163-189 | every method rates a constant daily demand at that constant |
| Forecast.LineFor | predictive_dashboard_lite_v1/models/predictive_models.py:261-282 | forecast = rate × horizon; days left × rate = on hand when rate > 0, else 0; a shortage date iff rate and stock are positive, at today + whole days left; the date overflows (`ShortageOverflows`) iff there is one whose whole days exceed timedelta's 999999999 or whose ordinal exceeds `date.max` |
| Forecast.SlowMoverOverflows | predictive_dashboard_lite_v1/models/predictive_models.py:266-269 | a slow mover (one sale in 61 days, 50000 in stock, from 2026-01-01) overflows the date range |
| Forecast.ForecastLeTotalPreorder | predictive_dashboard_lite_v1/models/predictive_models.py:284 | ordering by decreasing forecast is total and transitive |
| Forecast.TopOfSorted | predictive_dashboard_lite_v1/models/predictive_models.py:285-286 | cutting an ordered list keeps the order; kept and dropped lines form the list; no dropped line forecasts more than a kept one |
| Forecast.SortedByForecast | predictive_dashboard_lite_v1/models/predictive_models.py:284 | the stable sort orders by decreasing forecast and is a permutation |
| Forecast.RankedLines | predictive_dashboard_lite_v1/models/predictive_models.py:284-286 | the result lines are by decreasing forecast; `top_n` of them when positive and smaller, else all; with the dropped ones they are the computed lines; none dropped forecasts more than one kept |
| Forecast.RankLines | predictive_dashboard_lite_v1/models/predictive_models.py:284-286 | sorting an array in place and cutting it gives `Ranked` |
| Forecast.AtRiskCount | predictive_dashboard_lite_v1/models/predictive_models.py:294-297 | at most the number of lines, and 0 iff no line has non-zero days left within the warning days |
| Forecast.AtRiskNeedsRate | predictive_dashboard_lite_v1/models/predictive_models.py:266-280 | a line without a positive rate is never at risk |
| Forecast.Wizard.constructor | predictive_dashboard_lite_v1/models/predictive_models.py:37-67 | a draft wizard with its settings, no lines and zero counters |
| Forecast.Wizard.BuildLines | predictive_dashboard_lite_v1/models/predictive_models.py:261-282 | reports an overflow iff some series' shortage date leaves the date range (`AnyOverflow`); otherwise one line per series, in order, from its rate, the horizon and its stock |
| Forecast.Wizard.ActionCompute | predictive_dashboard_lite_v1/models/predictive_models.py:254-298 | a window ending before it starts raises and changes nothing; a shortage date out of range fails with "date value out of range" and changes nothing (the transaction is rolled back); otherwise the lines are the ranked lines of the demand, the counters describe them and the wizard is ready |
| ResCompany.NewCompany | hr_timeoff_late_block_v18/models/res_company.py:7-17 | a new company does not block and has the default threshold of 2 |
| ResCompany.CheckThresholdNonNegative | hr_timeoff_late_block_v18/models/res_company.py:19-22 | raises iff some company has a negative threshold, with the source's message; unset values are not checked |
| ResCompany.ConstrainsThreshold | hr_timeoff_late_block_v18/models/res_company.py:24-26 | the check runs only when the threshold is written |
| ResCompany.AcceptedThresholds | hr_timeoff_late_block_v18/models/res_company.py:21 | zero, positive and unset thresholds pass |
| ResCompany.OneOffenderSuffices | hr_timeoff_late_block_v18/models/res_company.py:20-22 | one negative threshold anywhere among the companies raises |
| HrLeave.PolicyCompany | hr_timeoff_late_block_v18/models/hr_leave.py:15 | the employee's company, else the environment's |
| HrLeave.Threshold | hr_timeoff_late_block_v18/models/hr_leave.py:19 | the configured threshold when non-negative, else 0 (unset included) |
| HrLeave.StartDate | hr_timeoff_late_block_v18/models/hr_leave.py:21 | `request_date_from`, else the day of `date_from`; none iff both are unset |
| HrLeave.Late | hr_timeoff_late_block_v18/models/hr_leave.py:14-42 | a leave is refused iff its company blocks, it has a start and today − start exceeds the threshold; the error carries the start, today, threshold and lateness |
| HrLeave.CheckLateSubmission | hr_timeoff_late_block_v18/models/hr_leave.py:12-42 | raises iff some leave is late, with the error of the first late leave |
| HrLeave.Create | hr_timeoff_late_block_v18/models/hr_leave.py:44-48 | the created records are checked afterwards; returned iff none is late |
| HrLeave.Write | hr_timeoff_late_block_v18/models/hr_leave.py:50-53 | the written values are checked afterwards; blocked iff a record is late with its new values; else the parent's result |
| HrLeave.CheckThenRun | hr_timeoff_late_block_v18/models/hr_leave.py:55-61 | submit and confirm check the current records first and run the parent action only when none is late |
| HrLeave.LateWindow | hr_timeoff_late_block_v18/models/hr_leave.py:26-28 | for a blocking company a leave is late exactly from threshold + 1 days after its start |
| HrLeave.NotLateWithinThreshold | hr_timeoff_late_block_v18/models/hr_leave.py:26-28 | exactly threshold days late is allowed, and a future start is never blocked |
| HrLeave.LateStaysLate | hr_timeoff_late_block_v18/models/hr_leave.py:27-28 | once late, a leave stays late |
| HrLeave.NegativeActsAsZero | hr_timeoff_late_block_v18/models/hr_leave.py:19 | a negative threshold behaves as 0 |
| HrLeave.HelpExample | hr_timeoff_late_block_v18/models/res_company.py:15-16 | with a threshold of 2, a leave starting on day 1 passes on day 3 and is refused on day 4 |
| HrLeave.WriteChecksLikeSubmit | hr_timeoff_late_block_v18/models/hr_leave.py:50-61 | a write that changes nothing is blocked exactly when a submit would be |
| StableSort.InsertLast | product_detail_search/models/product_template.py:191 | inserting keeps every element and adds one |
| StableSort.SortBy | product_detail_search/models/product_template.py:191 | the sort keeps the length |
| StableSort.SortInPlace | product_detail_search/models/product_template.py:191 | the in-place insertion sort on an array computes exactly `SortBy` of the old contents |
| StableSort.SortByPerm | product_detail_search/models/product_template.py:191 | the sort is a permutation |
| StableSort.SortBySorted | product_detail_search/models/product_template.py:191 | the sort is ordered by a total preorder |
| StableSort.SortByStable | predictive_dashboard_lite_v1/models/predictive_models.py:284 | elements with equal keys keep their relative order |
| StableSort.SortByHead | product_detail_search/models/product_template.py:191-192 | the head of the sort is the first element with the least key |

## Left out

- The ORM (`env`, `search`, `browse`, `sudo`, `_fields`, `getattr`, transactions), which is replaced by explicit values.
  A raised error is an error outcome. The rollback that follows it is not modelled.
- Unit conversion, `currency.round`, `float_is_zero`, `roundDecimals` and `get_price` are uninterpreted parameters, because their rounding is foreign code.
- Floating point: every quantity is an exact `real`.
- `_normalize_scan` also accepts an int or float and formats it with `str`. The model takes text only, because number formatting is foreign.
- The async server lookup in `_getProductByBarcode` is a parameter (`remote`).
  `processProductAttributes` and `_loadMissingPricelistItems` are left out as remote calls.
- The configurator, combo, lot and scale dialogs of `addLineToOrder`, the number buffer and the reminder timer are left out as UI and timers.
  So is the attribute `price_extra` of a variant (`models.js:169-175`), added to `vals.price_extra` outside the configurator: `vals.price_extra` is taken as final.
  So are `setOptions` and `setPackLotLines`.
- `setPartnerToRefundOrder`, `addAdditionalRefundInfo`, `postRefund`, `_getRefundableDetails`, `_getEmptyOrder` and the alert dialogs are unseen framework code.
  They appear as parameters and outcomes.
- `recomputeOrderData` after a merge is a framework call.
- Absorb, MergeOrKeep, AddLineToOrder, BarcodeProductAction: the framework `merge` (`models.js:333`), whose body is not part of this model, is taken as an exact quantity sum with the target's other fields unchanged.
  `set_quantity`'s rounding of the quantity to the unit's precision and its re-pricing of an "original" target from the pricelist are not modelled, so `SameButQty` states the model's merge, not the framework's.
- The rounding inside `set_unit_price` is left out: the model stores the chosen price as given.
- In `can_be_merged_with`, the rounded prices (`price` and `order_line_price`) are computed and never used, so they are not modelled.
- The `super()` call of `_process_pos_ui_product_product` is left out: the model covers the part before it.
- The records that `(5, 0, 0)` clears in `ProductTemplate.write` leave the variant; the model does not follow them further.
- The `print` and the config lookup in the POS loaders are left out as I/O.
- predictive_dashboard_lite_v1, I/O and text:
  - `_fix_mojibake` and `_name_for_key` are text-codec round trips.
  - `_uom_for_key` and the `display_key` / `uom_id` / `key_ref` values of a result line are display data.
  - `_onhand_for_key` is an ORM aggregation, given as the `onhand` parameter.
  - `_post_alerts` (mail, activities), `action_export_xlsx` and `action_print_report` are I/O.
  - `_compute_line_count` is a plain count.
  - `_sale_domain` and `_stock_move_domain` are ORM domains: the moves and sale lines are given already filtered, with their day.
- Forecast.Wma: its own contract states only the zero cases. The weighted mean of the last w values with weights 1..w is its definition, stated through WmaConstant, not as a separate ensures.
- The wording of the time-off ValidationError is left out as a translated message. The model keeps its data (leave, start, today, threshold, lateness).
- `res.config.settings` only relays the two company fields and is not modelled.
- AddLineToOrder: `order.assert_editable()` (`models.js:82`), which throws on a finalized order, is not modelled; the model's orders are always editable, because the order state machine is framework code.
- Forecast.LineFor, Forecast.Wizard.ActionCompute: timedelta's own OverflowError (more than 999999999 days) and `date`'s "date value out of range" are one failure with the second message; `date.today()` is taken to be a valid date.
- PackDiscovery.Discover and the resolvers built on it (the rows marked "(corrected scan)") use the corrected one2many scan, not the code as written.
  As written the relation part is always empty (`PackDiscovery.RelationScanDeadAsWritten`), so only the standalone models would contribute.
- PosRefund.Compatible reads the `quantity` of a destination line (`TicketScreen.js:34`) as the line's `qty`.
  The orderline class that would define `quantity` is not part of this model.

## Findings

| source | as written | input that shows it | evidently intended | confidence | as-written member | corrected member |
|---|---|---|---|---|---|---|
| product_detail_search/models/product_template.py:125-127 (and uom_pack_patch.js:124-127, 143-146) | `comodel = self.env.get(name)` then `if not comodel: continue`. `env.get` returns the model's empty recordset, which is falsy, so every one2many relation is skipped | a product with a one2many to `product.uom.price` holding a Dozens line priced 72.0 in the product's unit category: intended it yields (Dozens, 72.0), as written nothing | skip a relation only when its comodel is not installed | high (not executed) | PackDiscovery.RelationScanDeadAsWritten, PackDiscovery.RelationScanCounterexample | PackDiscovery.RelationCands |
| pos_multi_price_uom_barcode/models/pos_session.py:53-67 | the loader reads every row (empty domain) and evaluates `unit['product_id'][0]`. Rows created by `ProductTemplate.write` for a variant have `product_id` False, so `False[0]` raises TypeError | one row with `product_id` False and `variant_id` (7, "Desk") | skip rows without a template, as the products loader's search does | high (not executed) | PosSession.UnitMapAsWritten, PosSession.VariantRowRaises | PosSession.GetUnitMap, PosSession.UnitMapLastWins |
| pos_multi_price_uom_barcode/static/src/js/TicketScreen.js:31-35 | `order.lines.some((ol) => ol.id === l.refunded_orderline_id)`. `refunded_orderline_id` is the refunded line's record, not its id, so the strict equality never holds and a props order with a refund line is never reused | a props order, same partner and mixing allowed, whose one line has quantity -1 and refunds a line of the order being refunded: intended it is reused, as written a new empty order is taken | compare with the record's id | medium (not executed) | PosRefund.DestinationAsWritten, PosRefund.RefundLineDestinationCounterexample | PosRefund.Destination |
