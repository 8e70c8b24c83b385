/**
 * `GET /api/admin/profit/margin`: completed rows of the user inside the window, grouped
 * by day into a sales total and an expense total, then turned into one margin point per
 * day.
 */
module ProfitMargin {
  import opened Wrappers
  import opened Transactions
  import opened Grouping

  /** The `{ selling, expense }` entry kept for one day. */
  datatype DayTotals = DayTotals(selling: int, expense: int)

  /** One point of the series, its margin in percent before rounding. */
  datatype MarginPoint = MarginPoint(date: string, margin: real)

  function MarginQuery(uid: string, inWindow: string -> bool): Query {
    Query(None, "completed", uid, inWindow)
  }

  /** The day a row adds to as a sale: sales are chosen by category first. */
  function SellingKey(r: Record): Option<string> {
    if IsSelling(r) then Some(DayKey(r.createdAt)) else None
  }

  /** The day a row adds to as an expense: only rows that are not sales (`else if`). */
  function ExpenseKey(r: Record): Option<string> {
    if !IsSelling(r) && IsExpense(r) then Some(DayKey(r.createdAt)) else None
  }

  /** The totals a day should hold once `rows` have been folded in. */
  function DayTotalsOf(rows: seq<Record>, day: string): DayTotals {
    DayTotals(GroupTotal(rows, SellingKey, day), GroupTotal(rows, ExpenseKey, day))
  }

  /** The `forEach` filling `dailyData`: an entry `{ selling: 0, expense: 0 }` is created
      for every day seen, then the row adds to `selling` if it is a sale, else to
      `expense` if it is an expense. */
  method GroupDays(rows: seq<Record>) returns (daily: map<string, DayTotals>, order: seq<string>)
    ensures order == KeyOrder(rows, DayKeyOf)
    ensures forall d :: d in daily <==> d in order
    ensures forall d :: d in daily ==> daily[d] == DayTotalsOf(rows, d)
  {
    daily := map[];
    order := [];
    for i := 0 to |rows|
      invariant order == KeyOrder(rows[..i], DayKeyOf)
      invariant forall d :: d in daily <==> d in order
      invariant forall d :: d in daily ==> daily[d] == DayTotalsOf(rows[..i], d)
    {
      assert rows[..i + 1][..i] == rows[..i];
      var t := rows[i];
      var date := DayKey(t.createdAt);
      if date !in daily {
        DayAbsent(rows[..i], date);
        daily := daily[date := DayTotals(0, 0)];
        order := order + [date];
      }
      if IsSelling(t) {
        daily := daily[date := daily[date].(selling := daily[date].selling + t.amount)];
      } else if IsExpense(t) {
        daily := daily[date := daily[date].(expense := daily[date].expense + t.amount)];
      }
    }
    assert rows[..|rows|] == rows;
  }

  /** A day no row carries has zero sales and zero expenses. */
  lemma {:induction false} DayAbsent(rows: seq<Record>, day: string)
    requires day !in KeyOrder(rows, DayKeyOf)
    ensures DayTotalsOf(rows, day) == DayTotals(0, 0)
  {
    if rows != [] {
      DayAbsent(rows[..|rows| - 1], day);
    }
  }

  /** `selling > 0 ? (profit / selling) * 100 : 0`: no division by zero. */
  function Margin(t: DayTotals): (m: real)
    ensures t.selling > 0 ==> m * (t.selling as real) == ((t.selling - t.expense) as real) * 100.0
    ensures t.selling <= 0 ==> m == 0.0
  {
    var profit := t.selling - t.expense;
    if t.selling > 0 then (profit as real / t.selling as real) * 100.0 else 0.0
  }

  /** With positive sales and non-negative expenses the margin is at most 100. */
  lemma MarginAtMost100(t: DayTotals)
    requires t.selling > 0 && t.expense >= 0
    ensures Margin(t) <= 100.0
  {
    var s := t.selling as real;
    var m := Margin(t);
    assert m * s == (s - t.expense as real) * 100.0;
    assert m * s <= 100.0 * s;
  }

  /** `Object.entries(dailyData).map(...)`: the entries in key-insertion order. */
  function MarginSeries(daily: map<string, DayTotals>, order: seq<string>): seq<MarginPoint>
    requires forall d :: d in order ==> d in daily
  {
    seq(|order|, i requires 0 <= i < |order| => MarginPoint(order[i], Margin(daily[order[i]])))
  }

  /** `calculateProfitMarginSeries`: one point per distinct day, in order of first
      occurrence, each carrying the margin of that day's totals. */
  method ProfitMarginSeries(rows: seq<Record>) returns (series: seq<MarginPoint>)
    ensures |series| == |KeySet(rows, DayKeyOf)|
    ensures |series| == |KeyOrder(rows, DayKeyOf)|
    ensures forall i :: 0 <= i < |series| ==>
      && series[i].date == KeyOrder(rows, DayKeyOf)[i]
      && series[i].margin == Margin(DayTotalsOf(rows, series[i].date))
  {
    var daily, order := GroupDays(rows);
    KeyOrderCoversKeySet(rows, DayKeyOf);
    series := MarginSeries(daily, order);
  }

  /** `GET /api/admin/profit/margin`. */
  method ProfitMarginRoute(user: Option<string>, table: seq<Record>, inWindow: string -> bool,
                           outcome: FetchOutcome) returns (resp: Response<seq<MarginPoint>>)
    ensures user.None? ==> resp == Error(401, "Unauthorized")
    ensures user.Some? && outcome == FetchFailed ==> resp == Error(500, "Failed to fetch transactions")
    ensures user.Some? && outcome == FetchedNull ==> resp == Error(404, "No transactions found")
    ensures user.Some? && outcome == Fetched ==>
      var rows := Select(table, MarginQuery(user.value, inWindow));
      && resp.Ok?
      && |resp.body| == |KeyOrder(rows, DayKeyOf)|
      && forall i :: 0 <= i < |resp.body| ==>
           && resp.body[i].date == KeyOrder(rows, DayKeyOf)[i]
           && resp.body[i].margin == Margin(DayTotalsOf(rows, resp.body[i].date))
  {
    if user.None? {
      return Error(401, "Unauthorized");
    }
    if outcome == FetchFailed {
      return Error(500, "Failed to fetch transactions");
    }
    var data := Fetch(table, MarginQuery(user.value, inWindow), outcome);
    if data.None? {
      return Error(404, "No transactions found");
    }
    var profitMargin := ProfitMarginSeries(data.value);
    resp := Ok(profitMargin);
  }

  /** One more row: its day gets an entry; it adds to that day's sales if it is a sale,
      otherwise to its expenses if it is an expense, and otherwise to nothing. A sale
      whose type is `expense` never reaches the expense total. */
  lemma {:induction false} DayTotalsStep(rows: seq<Record>, r: Record, day: string)
    ensures DayKey(r.createdAt) in KeyOrder(rows + [r], DayKeyOf)
    ensures DayTotalsOf(rows + [r], day).selling == DayTotalsOf(rows, day).selling
      + (if DayKey(r.createdAt) == day && IsSelling(r) then r.amount else 0)
    ensures DayTotalsOf(rows + [r], day).expense == DayTotalsOf(rows, day).expense
      + (if DayKey(r.createdAt) == day && !IsSelling(r) && IsExpense(r) then r.amount else 0)
  {
    assert (rows + [r])[..|rows|] == rows;
  }
}
