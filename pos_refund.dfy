/**
  The refund patch of pos_multi_price_uom_barcode (static/src/js/TicketScreen.js): refund
  details remember the refunded line's unit, and `onDoRefund` creates one refund line per
  detail in the chosen destination order, copying the unit, price, product and discount.
*/
module PosRefund {
  import opened Common
  import opened PosOrderline

  /** A refund detail of the ticket screen: the refunded line, the quantity to refund and its tags. */
  class RefundDetail {
    const line: Orderline
    const qty: real
    /** `product_uom_id`. */
    var uom: Option<PosUom>
    /** `destination_order_uuid` (None for false). */
    var destinationUuid: Option<string>

    constructor (line: Orderline, qty: real)
      ensures this.line == line && this.qty == qty && this.uom.None? && this.destinationUuid.None?
    {
      this.line := line;
      this.qty := qty;
      this.uom := None;
      this.destinationUuid := None;
    }
  }

  /** `getToRefundDetail(orderline)`: the detail built by the framework, with the line's unit added. */
  method GetToRefundDetail(base: RefundDetail, orderline: Orderline) returns (r: RefundDetail)
    modifies base
    ensures r == base && r.uom == orderline.uom && r.destinationUuid == old(base.destinationUuid)
  {
    base.uom := orderline.uom;
    r := base;
  }

  /** Whether a line of the candidate destination may stay next to refunds of `order`. */
  function Compatible(l: Orderline, order: Order): (r: bool)
    reads l, order, order.lines
    ensures CompatibleAsWritten(l) ==> r
    ensures r && l.qty < 0.0 ==> exists ol :: ol in order.lines && l.refundedLineId == Some(ol.id)
  {
    l.qty >= 0.0 || exists ol :: ol in order.lines && l.refundedLineId == Some(ol.id)
  }

  /**
    The props destination order is reused only when all of its lines are compatible, it has the
    same partner and refunds and sales may mix.
  */
  function Reusable(dest: Order, order: Order, noRefundAndSales: bool): (r: bool)
    reads dest, dest.lines, order, order.lines
    ensures ReusableAsWritten(dest, order, noRefundAndSales) ==> r
    ensures r ==> order.partner == dest.partner && !noRefundAndSales
    ensures dest.lines == [] ==> (r <==> order.partner == dest.partner && !noRefundAndSales)
  {
    && (forall l :: l in dest.lines ==> Compatible(l, order))
    && order.partner == dest.partner
    && !noRefundAndSales
  }

  /**
    The line test as written: `ol.id === l.refunded_orderline_id` compares a number with the
    refunded line's record, which is never strictly equal, so only the quantity decides.
  */
  predicate CompatibleAsWritten(l: Orderline)
    reads l
  {
    l.qty >= 0.0
  }

  /** `Reusable` with the line test as written. */
  predicate ReusableAsWritten(dest: Order, order: Order, noRefundAndSales: bool)
    reads dest, dest.lines, order
  {
    && (forall l :: l in dest.lines ==> CompatibleAsWritten(l))
    && order.partner == dest.partner
    && !noRefundAndSales
  }

  /** The destination order as written: a props order holding any refund line is never reused. */
  function DestinationAsWritten(props: Option<Order>, order: Order, emptyOrder: Order, noRefundAndSales: bool): (r: Order)
    reads order, if props.Some? then {props.value} else {}
    reads if props.Some? then set l: Orderline | l in props.value.lines else {}
    ensures r == emptyOrder || (props.Some? && r == props.value)
    ensures (props.Some? && exists l :: l in props.value.lines && l.qty < 0.0) ==> r == emptyOrder
  {
    if props.Some? && ReusableAsWritten(props.value, order, noRefundAndSales) then props.value else emptyOrder
  }

  /**
    A props order whose one line refunds a line of the order being refunded, same partner, mixing
    allowed: intended it is reused, as written a fresh empty order is taken instead.
  */
  lemma RefundLineDestinationCounterexample(dest: Order, l: Orderline, order: Order, ol: Orderline, emptyOrder: Order)
    requires dest.lines == [l] && l.qty < 0.0
    requires ol in order.lines && l.refundedLineId == Some(ol.id)
    requires order.partner == dest.partner && dest != emptyOrder
    ensures Destination(Some(dest), order, emptyOrder, false) == dest
    ensures DestinationAsWritten(Some(dest), order, emptyOrder, false) == emptyOrder
  {
    assert Compatible(l, order);
    assert forall m :: m in dest.lines ==> m == l;
  }

  /** The refund lines already recorded for a line (`refund_orderline_ids`), plus the ones created now. */
  function RefundsOf(child: Orderline, prior: map<int, seq<Orderline>>, created: seq<Orderline>): seq<Orderline>
    decreases |created|
  {
    if created == [] then (if child.id in prior then prior[child.id] else [])
    else
      var last := created[|created| - 1];
      RefundsOf(child, prior, created[..|created| - 1]) + (if last.refundedLineId == Some(child.id) then [last] else [])
  }

  /**
    The refund lines of a line are exactly the recorded ones followed by the created lines
    that refund it: none is lost and none is made up.
  */
  lemma {:induction false} RefundsOfExact(child: Orderline, prior: map<int, seq<Orderline>>, created: seq<Orderline>)
    ensures forall l :: l in created && l.refundedLineId == Some(child.id) ==> l in RefundsOf(child, prior, created)
    ensures forall l :: l in RefundsOf(child, prior, created) ==>
              (l in created && l.refundedLineId == Some(child.id)) || (child.id in prior && l in prior[child.id])
    decreases |created|
  {
    if created != [] {
      var init := created[..|created| - 1];
      RefundsOfExact(child, prior, init);
      assert created == init + [created[|created| - 1]];
    }
  }

  /** `combo_line_ids.map((l) => l.refund_orderline_ids).flat()` over the children of a combo parent. */
  function ChildRefunds(children: seq<Orderline>, prior: map<int, seq<Orderline>>, created: seq<Orderline>): seq<Orderline>
    decreases |children|
  {
    if children == [] then []
    else ChildRefunds(children[..|children| - 1], prior, created) + RefundsOf(children[|children| - 1], prior, created)
  }

  /** Every created line that refunds one of the children is linked to the combo parent's refund. */
  lemma {:induction false} ChildRefundsComplete(children: seq<Orderline>, prior: map<int, seq<Orderline>>,
                                                created: seq<Orderline>)
    ensures forall i, l :: 0 <= i < |children| && l in created && l.refundedLineId == Some(children[i].id) ==>
              l in ChildRefunds(children, prior, created)
    decreases |children|
  {
    if children != [] {
      var init := children[..|children| - 1];
      ChildRefundsComplete(init, prior, created);
      RefundsOfExact(children[|children| - 1], prior, created);
      forall i, l | 0 <= i < |children| && l in created && l.refundedLineId == Some(children[i].id)
        ensures l in ChildRefunds(children, prior, created)
      {
        if i < |children| - 1 {
          assert children[i] == init[i];
        }
      }
    }
  }

  /**
    The line created for one refund detail: negated quantity, copied price, product, discount,
    taxes and lots, the unit with `setup`'s default applied, and an automatic price.
  */
  ghost predicate RefundLineFor(l: Orderline, d: RefundDetail, dest: Order)
    reads l`qty, l`priceUnit, l`uom, l`priceType, d.line
  {
    && l.qty == -d.qty
    && l.priceUnit == d.line.priceUnit
    && l.product == d.line.product
    && l.discount == d.line.discount
    && l.uom == (if d.line.uom.Some? then d.line.uom else d.line.product.uom)
    && l.taxIds == d.line.taxIds
    && l.lotNames == d.line.lotNames
    && l.refundedLineId == Some(d.line.id)
    && l.priceType == "automatic"
    && l.pickingUsesLots == dest.pickingUsesLots
  }

  /** What one iteration of the refund loop leaves: the new line, not yet linked, and the tagged detail. */
  ghost predicate Created(l: Orderline, d: RefundDetail, dest: Order, id: int)
    reads l, d, d.line
  {
    l.id == id && l.comboLines == [] && RefundLineFor(l, d, dest) && d.destinationUuid == Some(dest.uuid)
  }

  datatype RefundOutcome = NotStarted | FiscalPositionMissing | Refunded

  /** The POS store's current order (`get_order()` / `set_order`). */
  class Store {
    var current: Option<Order>

    constructor (current: Option<Order>)
      ensures this.current == current
    {
      this.current := current;
    }
  }

  /** The loop creating one refund line per detail in `dest` and tagging each detail with `dest.uuid`. */
  method CreateRefundLines(dest: Order, details: seq<RefundDetail>, newIds: seq<int>) returns (lines: seq<Orderline>)
    requires |newIds| == |details|
    modifies dest, details
    ensures |lines| == |details|
    ensures forall k :: 0 <= k < |lines| ==> fresh(lines[k]) && Created(lines[k], details[k], dest, newIds[k])
    ensures forall k :: 0 <= k < |details| ==> details[k].uom == old(details[k].uom)
    ensures forall k, j :: 0 <= k < j < |lines| ==> lines[k] != lines[j]
    ensures dest.lines == old(dest.lines) + lines
    ensures dest.selected == old(dest.selected) && dest.takeaway == old(dest.takeaway)
    ensures dest.fiscalPosition == old(dest.fiscalPosition)
  {
    lines := [];
    var i := 0;
    while i < |details|
      invariant 0 <= i <= |details|
      invariant |lines| == i
      invariant forall k :: 0 <= k < i ==> fresh(lines[k]) && Created(lines[k], details[k], dest, newIds[k])
      invariant forall k :: 0 <= k < |details| ==> details[k].uom == old(details[k].uom)
      invariant forall k, j :: 0 <= k < j < i ==> lines[k] != lines[j]
      invariant dest.lines == old(dest.lines) + lines
      invariant dest.selected == old(dest.selected) && dest.takeaway == old(dest.takeaway)
      invariant dest.fiscalPosition == old(dest.fiscalPosition)
    {
      var line := CreateOne(dest, details[i], newIds[i]);
      lines := lines + [line];
      i := i + 1;
    }
  }

  /** One iteration: `pos.order.line.create({...})` into `dest`, then the detail's destination tag. */
  method CreateOne(dest: Order, d: RefundDetail, id: int) returns (line: Orderline)
    modifies dest, d
    ensures fresh(line) && Created(line, d, dest, id) && d.uom == old(d.uom)
    ensures dest.lines == old(dest.lines) + [line]
    ensures dest.selected == old(dest.selected) && dest.takeaway == old(dest.takeaway)
    ensures dest.fiscalPosition == old(dest.fiscalPosition)
  {
    var src := d.line;
    line := new Orderline(id, src.product, src.uom, src.priceUnit, "automatic", -d.qty, "",
                          src.discount, None, src.fullProductName, Some(src.id), false, false,
                          dest.pickingUsesLots, src.taxIds, src.lotNames);
    dest.lines := dest.lines + [line];
    d.destinationUuid := Some(dest.uuid);
  }

  /**
    The combo linking: each created line whose refunded line is a combo parent gets linked to
    the refund lines of that parent's children, which include the lines created just now.
  */
  method LinkComboRefunds(details: seq<RefundDetail>, lines: seq<Orderline>, prior: map<int, seq<Orderline>>,
                          ghost kids: seq<seq<Orderline>>)
    requires |lines| == |details| == |kids|
    requires forall k :: 0 <= k < |details| ==> details[k].line.comboLines == kids[k]
    requires forall k :: 0 <= k < |lines| ==> lines[k].comboLines == []
    requires forall k, j :: 0 <= k < j < |lines| ==> lines[k] != lines[j]
    requires forall k, j :: 0 <= k < |lines| && 0 <= j < |details| ==> lines[k] != details[j].line
    modifies lines
    ensures forall k :: 0 <= k < |lines| ==>
              && lines[k].qty == old(lines[k].qty) && lines[k].priceUnit == old(lines[k].priceUnit)
              && lines[k].uom == old(lines[k].uom) && lines[k].priceType == old(lines[k].priceType)
    ensures forall k :: 0 <= k < |lines| ==> lines[k].comboLines == LinkTarget(kids[k], prior, lines)
  {
    var i := 0;
    while i < |lines|
      invariant 0 <= i <= |lines|
      invariant forall k :: 0 <= k < i ==> lines[k].comboLines == LinkTarget(kids[k], prior, lines)
      invariant forall k :: i <= k < |lines| ==> lines[k].comboLines == []
      invariant forall j :: i <= j < |details| ==> details[j].line.comboLines == kids[j]
      invariant forall k :: 0 <= k < |lines| ==>
                  && lines[k].qty == old(lines[k].qty) && lines[k].priceUnit == old(lines[k].priceUnit)
                  && lines[k].uom == old(lines[k].uom) && lines[k].priceType == old(lines[k].priceType)
    {
      var parent := details[i].line;
      if |parent.comboLines| > 0 {
        LinkOne(lines[i], ChildRefunds(parent.comboLines, prior, lines));
      }
      i := i + 1;
    }
  }

  /** The links a refund line gets: the children's refunds when its refunded line is a combo parent. */
  function LinkTarget(children: seq<Orderline>, prior: map<int, seq<Orderline>>, created: seq<Orderline>): seq<Orderline>
  {
    if |children| > 0 then ChildRefunds(children, prior, created) else []
  }

  /** `refundComboParent.update({combo_line_ids: [["link", ...children]]})` on a line without links yet. */
  method LinkOne(l: Orderline, children: seq<Orderline>)
    modifies l
    ensures l.comboLines == old(l.comboLines) + children
    ensures l.qty == old(l.qty) && l.priceUnit == old(l.priceUnit) && l.uom == old(l.uom)
    ensures l.priceType == old(l.priceType)
  {
    l.comboLines := l.comboLines + children;
  }

  /** The refund lines of `onDoRefund`: created into `dest`, then linked to their combo children's refunds. */
  method RefundInto(dest: Order, details: seq<RefundDetail>, prior: map<int, seq<Orderline>>, newIds: seq<int>)
    returns (lines: seq<Orderline>)
    requires |newIds| == |details|
    modifies dest, details
    ensures RefundedInto(dest, details, prior, newIds, lines)
    ensures forall k :: 0 <= k < |lines| ==> fresh(lines[k])
    ensures forall k :: 0 <= k < |details| ==> details[k].uom == old(details[k].uom)
    ensures dest.lines == old(dest.lines) + lines
    ensures dest.selected == old(dest.selected) && dest.takeaway == old(dest.takeaway)
    ensures dest.fiscalPosition == old(dest.fiscalPosition)
  {
    lines := CreateRefundLines(dest, details, newIds);
    assert forall k, j :: 0 <= k < |lines| && 0 <= j < |details| ==> lines[k] != details[j].line;
    ghost var kids := seq(|details|, k requires 0 <= k < |details| reads set j | 0 <= j < |details| :: details[j].line =>
                          details[k].line.comboLines);
    LinkComboRefunds(details, lines, prior, kids);
  }

  /** What the refund loop and the combo linking leave behind, line by line. */
  ghost predicate RefundedInto(dest: Order, details: seq<RefundDetail>, prior: map<int, seq<Orderline>>,
                               newIds: seq<int>, lines: seq<Orderline>)
    reads dest, details, set k | 0 <= k < |details| :: details[k].line, lines
  {
    && |lines| == |details| == |newIds|
    && (forall k :: 0 <= k < |lines| ==> lines[k].id == newIds[k] && RefundLineFor(lines[k], details[k], dest))
    && (forall k :: 0 <= k < |details| ==> details[k].destinationUuid == Some(dest.uuid))
    && (forall k :: 0 <= k < |lines| ==> lines[k].comboLines == LinkTarget(details[k].line.comboLines, prior, lines))
  }

  /** The destination: the props order when it can be reused, else `_getEmptyOrder(partner)`. */
  function Destination(props: Option<Order>, order: Order, emptyOrder: Order, noRefundAndSales: bool): (r: Order)
    reads order, order.lines, if props.Some? then {props.value} else {}
    reads if props.Some? then set l: Orderline | l in props.value.lines else {}
    ensures r == emptyOrder || (props.Some? && r == props.value)
    ensures props.Some? && Reusable(props.value, order, noRefundAndSales) ==> r == props.value
    ensures !(props.Some? && Reusable(props.value, order, noRefundAndSales)) ==> r == emptyOrder
    ensures props.Some? && r == props.value && props.value != emptyOrder ==> Reusable(props.value, order, noRefundAndSales)
  {
    if props.Some? && Reusable(props.value, order, noRefundAndSales) then props.value else emptyOrder
  }

  /**
    `onDoRefund()`. `selected` is `getSelectedOrder()`, `autoRefundRefused` is a sole-item order
    whose `_prepareAutoRefundOnOrder` returned false, `hasItems` is `getHasItemsToRefund()`,
    `details` is `_getRefundableDetails(partner, order)`, `emptyOrder` is `_getEmptyOrder(partner)`,
    `prior` the refund lines recorded before and `newIds` the ids the created lines get.
  */
  method OnDoRefund(store: Store, selected: Option<Order>, autoRefundRefused: bool, hasItems: bool,
                    props: Option<Order>, emptyOrder: Order, noRefundAndSales: bool,
                    details: seq<RefundDetail>, prior: map<int, seq<Orderline>>, newIds: seq<int>)
    returns (outcome: RefundOutcome, dest: Option<Order>, lines: seq<Orderline>)
    requires |newIds| == |details|
    modifies store, emptyOrder, if props.Some? then {props.value} else {}, details
    ensures selected.None? || (selected.Some? && autoRefundRefused) || !hasItems ==>
              && outcome == NotStarted && lines == [] && dest.None? && unchanged(store)
              && unchanged(emptyOrder) && (props.Some? ==> unchanged(props.value))
              && forall k :: 0 <= k < |details| ==> unchanged(details[k])
    ensures outcome != NotStarted ==>
              var order := selected.value;
              && dest.Some?
              && dest.value == old(Destination(props, order, emptyOrder, noRefundAndSales))
              && dest.value.takeaway == order.takeaway
              && RefundedInto(dest.value, details, prior, newIds, lines)
              && (forall k :: 0 <= k < |lines| ==> fresh(lines[k]))
              && dest.value.lines == old(dest.value.lines) + lines
              && dest.value.selected == old(dest.value.selected)
              && (dest.value != emptyOrder ==> unchanged(emptyOrder))
              && (props.Some? && dest.value != props.value ==> unchanged(props.value))
              && (forall k :: 0 <= k < |details| ==> details[k].uom == old(details[k].uom))
    ensures outcome == FiscalPositionMissing <==>
              outcome != NotStarted && selected.value.fiscalPositionNotFound
    ensures outcome == FiscalPositionMissing ==>
              store.current == old(store.current) && dest.value.fiscalPosition == old(dest.value.fiscalPosition)
    ensures outcome == Refunded ==>
              && store.current == dest
              && dest.value.fiscalPosition ==
                   (if selected.value.fiscalPosition.Some? then selected.value.fiscalPosition
                    else old(dest.value.fiscalPosition))
  {
    if selected.None? || autoRefundRefused || !hasItems {
      return NotStarted, None, [];
    }
    var order := selected.value;
    var d := Destination(props, order, emptyOrder, noRefundAndSales);
    d.takeaway := order.takeaway;
    dest := Some(d);
    lines := RefundInto(d, details, prior, newIds);
    outcome := FinishRefund(store, order, d);
  }

  /**
    The end of `onDoRefund`: an order whose fiscal position was not loaded stops at the alert;
    otherwise the destination takes the order's fiscal position, when it has one, and becomes
    the current order.
  */
  method FinishRefund(store: Store, order: Order, d: Order) returns (outcome: RefundOutcome)
    modifies store, d
    ensures outcome != NotStarted
    ensures d.lines == old(d.lines) && d.takeaway == old(d.takeaway) && d.selected == old(d.selected)
    ensures outcome == FiscalPositionMissing <==> order.fiscalPositionNotFound
    ensures outcome == FiscalPositionMissing ==>
              store.current == old(store.current) && d.fiscalPosition == old(d.fiscalPosition)
    ensures outcome == Refunded ==>
              && store.current == Some(d)
              && d.fiscalPosition == (if order.fiscalPosition.Some? then order.fiscalPosition else old(d.fiscalPosition))
  {
    if order.fiscalPositionNotFound {
      return FiscalPositionMissing;
    }
    if order.fiscalPosition.Some? {
      d.fiscalPosition := order.fiscalPosition;
    }
    if store.current != Some(d) {
      store.current := Some(d);
    }
    outcome := Refunded;
  }
}
