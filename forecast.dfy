/**
  The demand forecast of predictive_dashboard_lite_v1 (models/predictive_models.py): daily demand
  per product or category is read from stock moves or sale lines, densified over the date window,
  turned into a daily rate (simple, weighted or exponential average), and the result lines are
  ranked by forecast with a few counters. Days are proleptic Gregorian ordinals (`date.toordinal()`);
  quantities are exact reals.
*/
module Forecast {
  import opened Common
  import StableSort

  // ---------------------------------------------------------------------------------------
  // Day ranges and the location domain
  // ---------------------------------------------------------------------------------------

  /** The number of days from `d1` to `d2` inclusive; none when `d1 > d2`. */
  function DayCount(d1: int, d2: int): nat {
    if d1 <= d2 then d2 - d1 + 1 else 0
  }

  /** `_daterange(d1, d2)`: every day from `d1` to `d2`, ascending. */
  method DateRange(d1: int, d2: int) returns (days: seq<int>)
    ensures |days| == DayCount(d1, d2)
    ensures forall k :: 0 <= k < |days| ==> days[k] == d1 + k
  {
    days := [];
    var cur := d1;
    while cur <= d2
      invariant d1 <= cur && (cur <= d2 + 1 || cur == d1)
      invariant |days| == cur - d1
      invariant forall k :: 0 <= k < |days| ==> days[k] == d1 + k
      decreases d2 - cur
    {
      days := days + [cur];
      cur := cur + 1;
    }
  }

  /** The domain `_location_domain` returns. */
  datatype LocationDomain = UsageInternal | IdIn(ids: seq<int>) | ChildOf(location: int)

  /**
    `_location_domain`: the chosen locations, else everything under the warehouse's view
    location, else every internal location.
  */
  function LocationDomainOf(locationIds: seq<int>, warehouseView: Option<int>): (d: LocationDomain)
    ensures d.IdIn? <==> locationIds != []
    ensures d.IdIn? ==> d.ids == locationIds
    ensures d.ChildOf? <==> locationIds == [] && warehouseView.Some?
    ensures d.ChildOf? ==> d.location == warehouseView.value
  {
    if locationIds != [] then IdIn(locationIds)
    else if warehouseView.Some? then ChildOf(warehouseView.value)
    else UsageInternal
  }

  // ---------------------------------------------------------------------------------------
  // Reading the daily demand
  // ---------------------------------------------------------------------------------------

  /** A done `stock.move`: source and destination locations, quantity, day, product and its category. */
  datatype Move = Move(src: int, dst: int, qty: real, day: int, product: int, categ: int)

  /** A confirmed `sale.order.line`: the order's day, the quantity, product and its category. */
  datatype SaleLine = SaleLine(day: int, qty: real, product: int, categ: int)

  datatype GroupBy = ByProduct | ByCategory

  /** One `series[key][day] += amount` of the reading loops. */
  datatype Contribution = Contribution(key: int, day: int, amount: real)

  function KeyOf(g: GroupBy, product: int, categ: int): int {
    if g == ByProduct then product else categ
  }

  /**
    The demand a move stands for, given the internal locations: leaving stock is demand, coming
    back is negative demand only when returns are included; 0.0 means the move is skipped.
  */
  function MoveDelta(m: Move, internal: set<int>, includeReturns: bool): (r: real)
    ensures (m.src in internal) == (m.dst in internal) ==> r == 0.0
    ensures m.src in internal && m.dst !in internal ==> r == m.qty
    ensures m.src !in internal && m.dst in internal ==> r == (if includeReturns then -m.qty else 0.0)
  {
    var srcInternal := m.src in internal;
    var dstInternal := m.dst in internal;
    if srcInternal && !dstInternal then m.qty
    else if dstInternal && !srcInternal then (if includeReturns then -m.qty else 0.0)
    else 0.0
  }

  /** The stock-based reading: moves with a zero delta are skipped (`if not delta: continue`). */
  function StockContributions(moves: seq<Move>, internal: set<int>, includeReturns: bool, g: GroupBy): (r: seq<Contribution>)
    ensures forall c :: c in r ==> c.amount != 0.0
    ensures |r| <= |moves|
    decreases |moves|
  {
    if moves == [] then []
    else
      var init := StockContributions(moves[..|moves| - 1], internal, includeReturns, g);
      var m := moves[|moves| - 1];
      var delta := MoveDelta(m, internal, includeReturns);
      if delta == 0.0 then init else init + [Contribution(KeyOf(g, m.product, m.categ), m.day, delta)]
  }

  /** The sales-based reading: every line counts, even with a zero quantity. */
  function SaleContributions(lines: seq<SaleLine>, g: GroupBy): (r: seq<Contribution>)
    ensures |r| == |lines|
    ensures forall i :: 0 <= i < |lines| ==>
              r[i] == Contribution(KeyOf(g, lines[i].product, lines[i].categ), lines[i].day, lines[i].qty)
  {
    seq(|lines|, i requires 0 <= i < |lines| => Contribution(KeyOf(g, lines[i].product, lines[i].categ), lines[i].day, lines[i].qty))
  }

  /** The keys of `series` in the order the `defaultdict` first sees them. */
  function KeysOf(cs: seq<Contribution>): seq<int>
    decreases |cs|
  {
    if cs == [] then []
    else
      var init := KeysOf(cs[..|cs| - 1]);
      var k := cs[|cs| - 1].key;
      if k in init then init else init + [k]
  }

  /** `series[key][day]`: the sum of the contributions to that key and day. */
  function DaySum(cs: seq<Contribution>, key: int, day: int): real
    decreases |cs|
  {
    if cs == [] then 0.0
    else
      var c := cs[|cs| - 1];
      DaySum(cs[..|cs| - 1], key, day) + (if c.key == key && c.day == day then c.amount else 0.0)
  }

  /** The keys are exactly the contributing keys, each once. */
  lemma {:induction false} KeysOfExact(cs: seq<Contribution>)
    ensures forall k :: k in KeysOf(cs) <==> exists i :: 0 <= i < |cs| && cs[i].key == k
    ensures forall i, j :: 0 <= i < j < |KeysOf(cs)| ==> KeysOf(cs)[i] != KeysOf(cs)[j]
    decreases |cs|
  {
    if cs != [] {
      var init := cs[..|cs| - 1];
      KeysOfExact(init);
      assert forall i :: 0 <= i < |init| ==> init[i] == cs[i];
    }
  }

  /** A day without any contribution to a key has no demand. */
  lemma {:induction false} DaySumNone(cs: seq<Contribution>, key: int, day: int)
    requires forall i :: 0 <= i < |cs| ==> !(cs[i].key == key && cs[i].day == day)
    ensures DaySum(cs, key, day) == 0.0
    decreases |cs|
  {
    if cs != [] {
      DaySumNone(cs[..|cs| - 1], key, day);
    }
  }

  /** The first loop of `_read_daily_demand`: `series[key][day] += amount` for each contribution. */
  method Accumulate(cs: seq<Contribution>) returns (keys: seq<int>, sums: map<int, map<int, real>>)
    ensures keys == KeysOf(cs)
    ensures forall k :: k in sums <==> k in keys
    ensures forall k, d :: k in sums && d in sums[k] ==> sums[k][d] == DaySum(cs, k, d)
    ensures forall k, d :: k in sums && d !in sums[k] ==> DaySum(cs, k, d) == 0.0
  {
    keys := [];
    sums := map[];
    var i := 0;
    while i < |cs|
      invariant 0 <= i <= |cs|
      invariant keys == KeysOf(cs[..i])
      invariant forall k :: k in sums <==> k in keys
      invariant forall k, d :: k in sums && d in sums[k] ==> sums[k][d] == DaySum(cs[..i], k, d)
      invariant forall k, d :: k in sums && d !in sums[k] ==> DaySum(cs[..i], k, d) == 0.0
    {
      var c := cs[i];
      assert cs[..i + 1][..i] == cs[..i];
      if c.key !in sums {
        KeysOfExact(cs[..i]);
        forall d ensures DaySum(cs[..i], c.key, d) == 0.0 {
          DaySumNone(cs[..i], c.key, d);
        }
        sums := sums[c.key := map[]];
        keys := keys + [c.key];
      }
      var dmap := sums[c.key];
      var cur := if c.day in dmap then dmap[c.day] else 0.0;
      sums := sums[c.key := dmap[c.day := cur + c.amount]];
      i := i + 1;
    }
    assert cs[..i] == cs;
  }

  /** A densified series: its key and one value per day of the window, in day order. */
  datatype Series = Series(key: int, values: seq<real>)

  /** The series `_read_daily_demand` returns for the given contributions. */
  function DemandSeries(cs: seq<Contribution>, dateFrom: int, dateTo: int): seq<Series> {
    var keys := KeysOf(cs);
    seq(|keys|, i requires 0 <= i < |keys| =>
      Series(keys[i], seq(DayCount(dateFrom, dateTo), j requires 0 <= j < DayCount(dateFrom, dateTo) =>
        DaySum(cs, keys[i], dateFrom + j))))
  }

  /** The inner `while cur <= date_to` loop: `dmap.get(cur, 0.0)` for each day of the window. */
  method DensifyOne(dmap: map<int, real>, dateFrom: int, dateTo: int) returns (od: seq<real>)
    ensures |od| == DayCount(dateFrom, dateTo)
    ensures forall j :: 0 <= j < |od| ==> od[j] == (if dateFrom + j in dmap then dmap[dateFrom + j] else 0.0)
  {
    od := [];
    var cur := dateFrom;
    while cur <= dateTo
      invariant dateFrom <= cur && (cur <= dateTo + 1 || cur == dateFrom)
      invariant |od| == cur - dateFrom
      invariant forall j :: 0 <= j < |od| ==> od[j] == (if dateFrom + j in dmap then dmap[dateFrom + j] else 0.0)
      decreases dateTo - cur
    {
      od := od + [if cur in dmap then dmap[cur] else 0.0];
      cur := cur + 1;
    }
  }

  /**
    `_read_daily_demand`: the contributions of the chosen source accumulated per key and day,
    then one value per day of the window for each key, 0.0 on days without demand.
  */
  method ReadDailyDemand(useStockBased: bool, includeReturns: bool, g: GroupBy, dateFrom: int, dateTo: int,
                         moves: seq<Move>, sales: seq<SaleLine>, internal: set<int>) returns (out: seq<Series>)
    ensures out == DemandSeries(if useStockBased then StockContributions(moves, internal, includeReturns, g)
                                else SaleContributions(sales, g), dateFrom, dateTo)
  {
    var cs := if useStockBased then StockContributions(moves, internal, includeReturns, g) else SaleContributions(sales, g);
    var keys, sums := Accumulate(cs);
    out := [];
    var i := 0;
    while i < |keys|
      invariant 0 <= i <= |keys|
      invariant |out| == i
      invariant forall k :: 0 <= k < i ==> out[k] == DemandSeries(cs, dateFrom, dateTo)[k]
    {
      var key := keys[i];
      var od := DensifyOne(sums[key], dateFrom, dateTo);
      assert od == DemandSeries(cs, dateFrom, dateTo)[i].values;
      out := out + [Series(key, od)];
      i := i + 1;
    }
  }

  // ---------------------------------------------------------------------------------------
  // Daily rates
  // ---------------------------------------------------------------------------------------

  function Sum(s: seq<real>): real
    decreases |s|
  {
    if s == [] then 0.0 else Sum(s[..|s| - 1]) + s[|s| - 1]
  }

  lemma {:induction false} SumConstant(s: seq<real>, c: real)
    requires forall i :: 0 <= i < |s| ==> s[i] == c
    ensures Sum(s) == c * |s| as real
    decreases |s|
  {
    if s != [] {
      SumConstant(s[..|s| - 1], c);
    }
  }

  /** SMA: `sum(values) / max(n, 1)`; an empty series has rate 0. */
  function Sma(values: seq<real>): (r: real)
    ensures values == [] ==> r == 0.0
    ensures values != [] ==> r * |values| as real == Sum(values)
  {
    var n := if |values| > 0 then |values| else 1;
    Sum(values) / n as real
  }

  /** The SMA of a series of one repeated value is that value. */
  lemma SmaConstant(values: seq<real>, c: real)
    requires values != [] && forall i :: 0 <= i < |values| ==> values[i] == c
    ensures Sma(values) == c
  {
    SumConstant(values, c);
  }

  /** `sum(range(1, w + 1))`. */
  function Triangle(w: nat): nat {
    if w == 0 then 0 else Triangle(w - 1) + w
  }

  lemma {:induction false} TrianglePositive(w: nat)
    requires w > 0
    ensures Triangle(w) > 0
  {
  }

  /** `sum(v * weights[i] ...)`: the k-th value of `recent` weighs k + 1. */
  function WeightedSum(recent: seq<real>): real
    decreases |recent|
  {
    if recent == [] then 0.0
    else WeightedSum(recent[..|recent| - 1]) + recent[|recent| - 1] * |recent| as real
  }

  lemma {:induction false} WeightedSumConstant(s: seq<real>, c: real)
    requires forall i :: 0 <= i < |s| ==> s[i] == c
    ensures WeightedSum(s) == c * Triangle(|s|) as real
    decreases |s|
  {
    if s != [] {
      WeightedSumConstant(s[..|s| - 1], c);
    }
  }

  /** `min(int(wma_window or 1), n)`. */
  function WindowSize(window: int, n: nat): int {
    var w := if window != 0 then window else 1;
    if w < n then w else n
  }

  /**
    WMA: the last `w` values weighted 1 to `w`, oldest first, divided by the sum of the weights;
    0 for a window that ends up non-positive. With no values `n` is 1 and the slice is empty.
  */
  function Wma(values: seq<real>, window: int): (r: real)
    ensures window < 0 ==> r == 0.0
    ensures values == [] ==> r == 0.0
  {
    var n := if |values| > 0 then |values| else 1;
    var w := WindowSize(window, n);
    if w <= 0 then 0.0
    else
      var recent := values[(if w <= |values| then |values| - w else 0)..];
      WeightedSum(recent) / Triangle(w) as real
  }

  /** The window of a non-empty series never exceeds it, so the weights cover exactly `w` values. */
  lemma WmaWindow(values: seq<real>, window: int)
    requires values != [] && window >= 0
    ensures 1 <= WindowSize(window, |values|) <= |values|
    ensures window > 0 ==> WindowSize(window, |values|) == if window < |values| then window else |values|
  {
  }

  lemma DivCancel(x: real, t: real, c: real)
    requires t > 0.0 && x == c * t
    ensures x / t == c
  {
  }

  /** The WMA of a series of one repeated value is that value. */
  lemma {:induction false} WmaConstant(values: seq<real>, window: int, c: real)
    requires values != [] && window >= 0 && forall i :: 0 <= i < |values| ==> values[i] == c
    ensures Wma(values, window) == c
  {
    WmaWindow(values, window);
    var w := WindowSize(window, |values|);
    var recent := values[|values| - w..];
    WmaUnfold(values, window);
    assert forall i :: 0 <= i < |recent| ==> recent[i] == c by {
      forall i | 0 <= i < |recent| ensures recent[i] == c {
        assert recent[i] == values[|values| - w + i];
      }
    }
    WeightedSumConstant(recent, c);
    TrianglePositive(w);
    DivCancel(WeightedSum(recent), Triangle(w) as real, c);
  }

  /**
    On a non-empty series with a non-negative window, the WMA is the weighted sum of the last window
    over the weights. This is `Wma`'s body read as a fact, with the window's bounds: it lets
    `WmaConstant` unfold `Wma` once instead of the solver unfolding it at every step.
  */
  lemma WmaUnfold(values: seq<real>, window: int)
    requires values != [] && window >= 0
    ensures var w := WindowSize(window, |values|);
            1 <= w <= |values| &&
            Wma(values, window) == WeightedSum(values[|values| - w..]) / Triangle(w) as real
  {
  }

  /** The smoothing factor: `ets_alpha` when within [0, 1], else 0.3. */
  function Alpha(etsAlpha: real): (a: real)
    ensures 0.0 <= a <= 1.0
  {
    if 0.0 <= etsAlpha <= 1.0 then etsAlpha else 0.3
  }

  /** Exponential smoothing: the first value, then `alpha * v + (1 - alpha) * s` for each next one. */
  function Smoothed(values: seq<real>, alpha: real): (r: real)
    ensures values == [] ==> r == 0.0
    ensures |values| == 1 ==> r == values[0]
    decreases |values|
  {
    if values == [] then 0.0
    else if |values| == 1 then values[0]
    else alpha * values[|values| - 1] + (1.0 - alpha) * Smoothed(values[..|values| - 1], alpha)
  }

  /** ETS: the loop with its `init` flag. */
  method Ets(values: seq<real>, etsAlpha: real) returns (s: real)
    ensures s == Smoothed(values, Alpha(etsAlpha))
  {
    var alpha := if 0.0 <= etsAlpha <= 1.0 then etsAlpha else 0.3;
    s := 0.0;
    var init := true;
    var i := 0;
    while i < |values|
      invariant 0 <= i <= |values|
      invariant init <==> i == 0
      invariant s == Smoothed(values[..i], alpha)
    {
      var v := values[i];
      assert values[..i + 1][..i] == values[..i];
      if init {
        s := v;
        init := false;
      } else {
        s := alpha * v + (1.0 - alpha) * s;
      }
      i := i + 1;
    }
    assert values[..i] == values;
  }

  /** Smoothing a series of one repeated value gives that value. */
  lemma {:induction false} SmoothedConstant(values: seq<real>, alpha: real, c: real)
    requires values != [] && forall i :: 0 <= i < |values| ==> values[i] == c
    ensures Smoothed(values, alpha) == c
    decreases |values|
  {
    if |values| > 1 {
      SmoothedConstant(values[..|values| - 1], alpha, c);
      calc {
        Smoothed(values, alpha);
        alpha * c + (1.0 - alpha) * c;
        c;
      }
    }
  }

  /** A mix of two values in [lo, hi] with weights alpha and 1 - alpha stays in [lo, hi]. */
  lemma Mix(alpha: real, a: real, b: real, lo: real, hi: real)
    requires 0.0 <= alpha <= 1.0 && lo <= a <= hi && lo <= b <= hi
    ensures lo <= alpha * a + (1.0 - alpha) * b <= hi
  {
    assert alpha * (a - lo) >= 0.0;
    assert (1.0 - alpha) * (b - lo) >= 0.0;
    assert alpha * (hi - a) >= 0.0;
    assert (1.0 - alpha) * (hi - b) >= 0.0;
  }

  /** With a factor in [0, 1] the smoothed rate stays between the least and the greatest value. */
  lemma {:induction false} SmoothedBetween(values: seq<real>, alpha: real, lo: real, hi: real)
    requires 0.0 <= alpha <= 1.0
    requires values != [] && forall i :: 0 <= i < |values| ==> lo <= values[i] <= hi
    ensures lo <= Smoothed(values, alpha) <= hi
    decreases |values|
  {
    if |values| > 1 {
      var init := values[..|values| - 1];
      assert forall i :: 0 <= i < |init| ==> init[i] == values[i];
      SmoothedBetween(init, alpha, lo, hi);
      Mix(alpha, values[|values| - 1], Smoothed(init, alpha), lo, hi);
    }
  }

  datatype RateMethod = SMA | WMA | ETS

  /** `_rate_from_series` as a function of the method, the window and the smoothing factor. */
  function RateOf(m: RateMethod, values: seq<real>, window: int, etsAlpha: real): (r: real)
    ensures values == [] ==> r == 0.0
    ensures m == WMA && window < 0 ==> r == 0.0
  {
    match m
    case SMA => Sma(values)
    case WMA => Wma(values, window)
    case ETS => Smoothed(values, Alpha(etsAlpha))
  }

  /** `_rate_from_series`: the rate of the configured method. */
  method RateFromSeries(m: RateMethod, values: seq<real>, window: int, etsAlpha: real) returns (r: real)
    ensures r == RateOf(m, values, window, etsAlpha)
  {
    match m
    case SMA => r := Sma(values);
    case WMA => r := Wma(values, window);
    case ETS => r := Ets(values, etsAlpha);
  }

  /** A constant daily demand is its own rate, whatever the method (a non-negative window for WMA). */
  lemma RateOfConstant(m: RateMethod, values: seq<real>, window: int, etsAlpha: real, c: real)
    requires values != [] && window >= 0 && forall i :: 0 <= i < |values| ==> values[i] == c
    ensures RateOf(m, values, window, etsAlpha) == c
  {
    match m
    case SMA => SmaConstant(values, c);
    case WMA => WmaConstant(values, window, c);
    case ETS => SmoothedConstant(values, Alpha(etsAlpha), c);
  }

  // ---------------------------------------------------------------------------------------
  // action_compute
  // ---------------------------------------------------------------------------------------

  /** The values of one `predictive.dashboard.line`; `shortage` is None for False. */
  datatype LineVals = LineVals(key: int, qtyWindow: real, windowDays: nat, dailyRate: real, forecast: real,
                               onhand: real, daysLeft: real, shortage: Option<int>)

  /** The largest `days` a `timedelta` takes, and `date.max` (9999-12-31) as an ordinal. */
  const MaxDeltaDays := 999999999
  const MaxOrdinal := 3652059

  /**
    Whether `date.today() + timedelta(days=int(days_left))` raises OverflowError: only evaluated
    when rate and stock are positive, it raises when the whole days exceed what a `timedelta`
    holds or the date passes `date.max`.
  */
  predicate ShortageOverflows(rate: real, onhand: real, today: int) {
    rate > 0.0 && onhand > 0.0 &&
    ((onhand / rate).Floor > MaxDeltaDays || today + (onhand / rate).Floor > MaxOrdinal)
  }

  /**
    One line of `action_compute`: forecast = rate × horizon; the days left are on hand / rate
    when the rate is positive, else 0; a shortage day only when both rate and stock are positive.
  */
  function LineFor(s: Series, rate: real, horizon: int, onhand: real, today: int): (l: LineVals)
    ensures l.key == s.key && l.qtyWindow == Sum(s.values) && l.windowDays == |s.values|
    ensures l.dailyRate == rate && l.forecast == rate * horizon as real && l.onhand == onhand
    ensures rate > 0.0 ==> l.daysLeft * rate == onhand
    ensures rate <= 0.0 ==> l.daysLeft == 0.0
    ensures l.shortage.Some? <==> rate > 0.0 && onhand > 0.0
    ensures l.shortage.Some? ==> l.daysLeft > 0.0 && l.shortage.value == today + l.daysLeft.Floor
    ensures ShortageOverflows(rate, onhand, today) <==>
              l.shortage.Some? && (l.daysLeft.Floor > MaxDeltaDays || l.shortage.value > MaxOrdinal)
  {
    var daysLeft := if rate > 0.0 then onhand / rate else 0.0;
    var shortage := if rate > 0.0 && onhand > 0.0 then Some(today + daysLeft.Floor) else None;
    LineVals(s.key, Sum(s.values), |s.values|, rate, rate * horizon as real, onhand,
             if rate > 0.0 then daysLeft else 0.0, shortage)
  }

  /** `lines_vals.sort(key=forecast_qty, reverse=True)` keeps equal forecasts in order: a stable sort by this. */
  predicate ForecastLe(a: LineVals, b: LineVals) {
    a.forecast >= b.forecast
  }

  lemma ForecastLeTotalPreorder()
    ensures StableSort.TotalPreorder(ForecastLe)
  {
  }

  /** `lines_vals[:top_n]` when `top_n` is positive. */
  function Top(s: seq<LineVals>, topN: int): seq<LineVals> {
    if topN > 0 && topN < |s| then s[..topN] else s
  }

  function Ranked(lines: seq<LineVals>, topN: int): seq<LineVals> {
    Top(StableSort.SortBy(lines, ForecastLe), topN)
  }

  /** Cutting a list ordered by decreasing forecast keeps, in order, lines no smaller than those it drops. */
  lemma TopOfSorted(s: seq<LineVals>, topN: int) returns (dropped: seq<LineVals>)
    requires forall i, j :: 0 <= i < j < |s| ==> s[i].forecast >= s[j].forecast
    ensures var r := Top(s, topN);
            && (forall i, j :: 0 <= i < j < |r| ==> r[i].forecast >= r[j].forecast)
            && r + dropped == s
            && forall x, l :: x in r && l in dropped ==> x.forecast >= l.forecast
  {
    var t := if topN > 0 && topN < |s| then topN else |s|;
    dropped := s[t..];
    var r := Top(s, topN);
    assert r == s[..t];
    forall x, l | x in r && l in dropped
      ensures x.forecast >= l.forecast
    {
      var j :| 0 <= j < |dropped| && dropped[j] == l;
      var i :| 0 <= i < |r| && r[i] == x;
      assert s[i] == x && s[t + j] == l;
    }
  }

  /** The stable sort by `ForecastLe` orders by decreasing forecast and permutes the lines. */
  lemma SortedByForecast(lines: seq<LineVals>)
    ensures var s := StableSort.SortBy(lines, ForecastLe);
            && (forall i, j :: 0 <= i < j < |s| ==> s[i].forecast >= s[j].forecast)
            && multiset(s) == multiset(lines)
  {
    ForecastLeTotalPreorder();
    StableSort.SortBySorted(lines, ForecastLe);
    StableSort.SortByPerm(lines, ForecastLe);
    var s := StableSort.SortBy(lines, ForecastLe);
    assert forall i, j :: 0 <= i < j < |s| ==> ForecastLe(s[i], s[j]);
  }

  /**
    The ranked lines: by forecast, descending; at most `top_n` of them when it is positive, all
    otherwise; together with the lines left out they are the computed lines, and every line left
    out forecasts no more than any line kept.
  */
  lemma RankedLines(lines: seq<LineVals>, topN: int) returns (dropped: seq<LineVals>)
    ensures var r := Ranked(lines, topN);
            && (forall i, j :: 0 <= i < j < |r| ==> r[i].forecast >= r[j].forecast)
            && |r| == (if topN > 0 && topN < |lines| then topN else |lines|)
            && multiset(r) + multiset(dropped) == multiset(lines)
            && forall x, l :: x in r && l in dropped ==> x.forecast >= l.forecast
  {
    var s := StableSort.SortBy(lines, ForecastLe);
    SortedByForecast(lines);
    dropped := TopOfSorted(s, topN);
    assert multiset(Ranked(lines, topN) + dropped) == multiset(Ranked(lines, topN)) + multiset(dropped);
  }

  /** The sort and the `top_n` cut of `action_compute`, on an array of the line values. */
  method RankLines(lv: seq<LineVals>, topN: int) returns (created: seq<LineVals>)
    ensures created == Ranked(lv, topN)
  {
    var a := new LineVals[|lv|](i requires 0 <= i < |lv| => lv[i]);
    assert a[..] == lv;
    StableSort.SortInPlace(a, ForecastLe);
    var sorted := a[..];
    created := if topN > 0 && topN < |sorted| then sorted[..topN] else sorted;
  }

  /** `sum(created.mapped('forecast_qty'))`. */
  function TotalForecast(ls: seq<LineVals>): real
    decreases |ls|
  {
    if ls == [] then 0.0 else TotalForecast(ls[..|ls| - 1]) + ls[|ls| - 1].forecast
  }

  /** `sum(created.mapped('stock_onhand'))`. */
  function TotalOnhand(ls: seq<LineVals>): real
    decreases |ls|
  {
    if ls == [] then 0.0 else TotalOnhand(ls[..|ls| - 1]) + ls[|ls| - 1].onhand
  }

  /** A line at risk: a non-zero number of days left, at most the warning threshold. */
  predicate AtRisk(l: LineVals, warnDays: int) {
    l.daysLeft != 0.0 && l.daysLeft <= warnDays as real
  }

  /** `kpi_at_risk_count`. */
  function AtRiskCount(ls: seq<LineVals>, warnDays: int): (r: nat)
    ensures r <= |ls|
    ensures r == 0 <==> forall i :: 0 <= i < |ls| ==> !AtRisk(ls[i], warnDays)
    decreases |ls|
  {
    if ls == [] then 0
    else
      var r := AtRiskCount(ls[..|ls| - 1], warnDays) + (if AtRisk(ls[|ls| - 1], warnDays) then 1 else 0);
      assert forall i :: 0 <= i < |ls| - 1 ==> ls[..|ls| - 1][i] == ls[i];
      r
  }

  /** One unit sold over the default 61-day window and 50000 on hand, from 2026: the date passes `date.max`. */
  lemma SlowMoverOverflows()
    ensures ShortageOverflows(1.0 / 61.0, 50000.0, 739617)
  {
    assert 50000.0 / (1.0 / 61.0) == 3050000.0;
  }

  /** A line is never at risk without a positive rate: its days left are then 0. */
  lemma AtRiskNeedsRate(s: Series, rate: real, horizon: int, onhand: real, today: int, warnDays: int)
    requires rate <= 0.0
    ensures !AtRisk(LineFor(s, rate, horizon, onhand, today), warnDays)
  {
  }

  datatype WizardState = Draft | Ready

  const DateMessage := "Start date must be before end date."
  /** The OverflowError of a shortage date out of range. */
  const OverflowMessage := "date value out of range"

  /** `predictive.dashboard.wizard`: its settings, its result lines, counters and state. */
  class Wizard {
    const dateFrom: int
    const dateTo: int
    const horizon: int
    const topN: int
    const warnDays: int
    const rateMethod: RateMethod
    const wmaWindow: int
    const etsAlpha: real
    const useStockBased: bool
    const includeReturns: bool
    const groupBy: GroupBy
    var state: WizardState
    var lines: seq<LineVals>
    var kpiTotalItems: nat
    var kpiTotalForecast: real
    var kpiTotalOnhand: real
    var kpiAtRiskCount: nat

    constructor (dateFrom: int, dateTo: int, horizon: int, topN: int, warnDays: int, rateMethod: RateMethod,
                 wmaWindow: int, etsAlpha: real, useStockBased: bool, includeReturns: bool, groupBy: GroupBy)
      ensures this.dateFrom == dateFrom && this.dateTo == dateTo && this.horizon == horizon
      ensures this.topN == topN && this.warnDays == warnDays && this.rateMethod == rateMethod
      ensures this.wmaWindow == wmaWindow && this.etsAlpha == etsAlpha
      ensures this.useStockBased == useStockBased && this.includeReturns == includeReturns && this.groupBy == groupBy
      ensures state == Draft && lines == [] && kpiTotalItems == 0 && kpiAtRiskCount == 0
    {
      this.dateFrom := dateFrom;
      this.dateTo := dateTo;
      this.horizon := horizon;
      this.topN := topN;
      this.warnDays := warnDays;
      this.rateMethod := rateMethod;
      this.wmaWindow := wmaWindow;
      this.etsAlpha := etsAlpha;
      this.useStockBased := useStockBased;
      this.includeReturns := includeReturns;
      this.groupBy := groupBy;
      state := Draft;
      lines := [];
      kpiTotalItems := 0;
      kpiTotalForecast := 0.0;
      kpiTotalOnhand := 0.0;
      kpiAtRiskCount := 0;
    }

    /** The demand series of this wizard's settings. */
    function Demand(moves: seq<Move>, sales: seq<SaleLine>, internal: set<int>): seq<Series> {
      DemandSeries(if useStockBased then StockContributions(moves, internal, includeReturns, groupBy)
                   else SaleContributions(sales, groupBy), dateFrom, dateTo)
    }

    /** The unsorted `lines_vals`, one per series; `onhand` is `_onhand_for_key`. */
    function LinesVals(series: seq<Series>, onhand: int -> real, today: int): seq<LineVals> {
      seq(|series|, i requires 0 <= i < |series| =>
        LineFor(series[i], RateOf(rateMethod, series[i].values, wmaWindow, etsAlpha), horizon, onhand(series[i].key), today))
    }

    /** Whether the shortage date of some series' line raises OverflowError. */
    predicate AnyOverflow(series: seq<Series>, onhand: int -> real, today: int) {
      exists i :: 0 <= i < |series| &&
        ShortageOverflows(RateOf(rateMethod, series[i].values, wmaWindow, etsAlpha), onhand(series[i].key), today)
    }

    /**
      The loop of `action_compute` filling `lines_vals`: it stops at the first line whose
      shortage date overflows, and otherwise builds every line.
    */
    method BuildLines(series: seq<Series>, onhand: int -> real, today: int) returns (lv: seq<LineVals>, overflow: bool)
      ensures overflow <==> AnyOverflow(series, onhand, today)
      ensures !overflow ==> lv == LinesVals(series, onhand, today)
    {
      lv := [];
      var i := 0;
      while i < |series|
        invariant 0 <= i <= |series|
        invariant lv == LinesVals(series[..i], onhand, today)
        invariant !AnyOverflow(series[..i], onhand, today)
      {
        var od := series[i];
        var rate := RateFromSeries(rateMethod, od.values, wmaWindow, etsAlpha);
        if ShortageOverflows(rate, onhand(od.key), today) {
          return lv, true;
        }
        lv := lv + [LineFor(od, rate, horizon, onhand(od.key), today)];
        assert series[..i + 1][..i] == series[..i];
        assert forall j :: 0 <= j < i ==> series[..i + 1][j] == series[..i][j];
        i := i + 1;
      }
      assert series[..i] == series;
      overflow := false;
    }

    /**
      `action_compute`: a window that ends before it starts raises and changes nothing; so does a
      line whose shortage date overflows (the transaction, with the unlink, is rolled back);
      otherwise the old lines are replaced by the ranked new ones, the counters describe them and
      the wizard is ready. `today` is `date.today()`.
    */
    method ActionCompute(moves: seq<Move>, sales: seq<SaleLine>, internal: set<int>, onhand: int -> real, today: int)
      returns (r: Outcome<string>)
      modifies this
      ensures dateFrom > dateTo ==> r == Fail(DateMessage) && unchanged(this)
      ensures dateFrom <= dateTo && AnyOverflow(Demand(moves, sales, internal), onhand, today) ==>
                r == Fail(OverflowMessage) && unchanged(this)
      ensures dateFrom <= dateTo && !AnyOverflow(Demand(moves, sales, internal), onhand, today) ==>
                && r == Pass && state == Ready
                && lines == Ranked(LinesVals(Demand(moves, sales, internal), onhand, today), topN)
                && kpiTotalItems == |lines| && kpiTotalForecast == TotalForecast(lines)
                && kpiTotalOnhand == TotalOnhand(lines) && kpiAtRiskCount == AtRiskCount(lines, warnDays)
    {
      if dateFrom > dateTo {
        return Fail(DateMessage);
      }
      var series := ReadDailyDemand(useStockBased, includeReturns, groupBy, dateFrom, dateTo, moves, sales, internal);
      var lv, overflow := BuildLines(series, onhand, today);
      if overflow {
        return Fail(OverflowMessage);
      }
      lines := [];
      var created := RankLines(lv, topN);
      lines := created;
      state := Ready;
      kpiTotalItems := |created|;
      kpiTotalForecast := TotalForecast(created);
      kpiTotalOnhand := TotalOnhand(created);
      kpiAtRiskCount := AtRiskCount(created, warnDays);
      r := Pass;
    }
  }
}
