/**
 * `GET /api/admin/profit/total`: the sum of the `selling` rows minus the sum of the
 * expense rows. The two sets are chosen on different columns (`category` and `type`),
 * so they may overlap and need not cover the input.
 */
module ProfitTotal {
  import opened Wrappers
  import opened Transactions

  /** Every completed row of the user inside the window, in `created_at` order. */
  function ProfitQuery(uid: string, inWindow: string -> bool): Query {
    Query(None, "completed", uid, inWindow)
  }

  /** `totalSelling - totalExpenses` over the fetched rows. */
  function TotalProfit(rows: seq<Record>): (profit: int)
    ensures profit == Sum(Filter(rows, IsSelling)) - Sum(Filter(rows, IsExpense))
    ensures rows == [] ==> profit == 0
  {
    var totalSelling := TotalOf(Some(Filter(rows, IsSelling)));
    var totalExpenses := TotalOf(Some(Filter(rows, IsExpense)));
    totalSelling - totalExpenses
  }

  /** `GET /api/admin/profit/total`. With `data` null both filters are `undefined` and the
      route answers 500. */
  function ProfitTotalRoute(user: Option<string>, table: seq<Record>, inWindow: string -> bool,
                            outcome: FetchOutcome): (resp: Response<int>)
    ensures user.None? ==> resp == Error(401, "Unauthorized")
    ensures user.Some? && outcome == FetchFailed ==> resp == Error(500, "Failed to fetch transactions")
    ensures user.Some? && outcome == FetchedNull ==> resp == Error(500, "Failed to calculate profit margin")
    ensures user.Some? && outcome == Fetched ==>
      resp == Ok(TotalProfit(Select(table, ProfitQuery(user.value, inWindow))))
  {
    if user.None? then Error(401, "Unauthorized")
    else if outcome == FetchFailed then Error(500, "Failed to fetch transactions")
    else
      var data := Fetch(table, ProfitQuery(user.value, inWindow), outcome);
      var sellingTransactions := if data.Some? then Some(Filter(data.value, IsSelling)) else None;
      var expenseTransactions := if data.Some? then Some(Filter(data.value, IsExpense)) else None;
      if sellingTransactions.None? || expenseTransactions.None? then
        Error(500, "Failed to calculate profit margin")
      else
        Ok(TotalOf(sellingTransactions) - TotalOf(expenseTransactions))
  }

  /** One more fetched row changes the profit by its amount if it is a sale, minus its
      amount if it is an expense: a row that is both nets to zero, a row that is neither
      (such as income in another category) changes nothing. */
  lemma ProfitAppend(rows: seq<Record>, r: Record)
    ensures TotalProfit(rows + [r]) ==
      TotalProfit(rows) + (if IsSelling(r) then r.amount else 0) - (if IsExpense(r) then r.amount else 0)
  {
    FilterAppend(rows, r, IsSelling);
    FilterAppend(rows, r, IsExpense);
    var selling, expenses := Filter(rows, IsSelling), Filter(rows, IsExpense);
    assert (selling + [r])[..|selling|] == selling;
    assert (expenses + [r])[..|expenses|] == expenses;
    assert selling + [] == selling;
    assert expenses + [] == expenses;
  }
}
