/**
 * The two scalar routes: total revenue (`/api/admin/revenue/total`) and total
 * expenses (`/api/admin/expenses/total`).
 */
module Totals {
  import opened Wrappers
  import opened Transactions

  /** Completed income rows of the signed-in user inside the date window. */
  function RevenueQuery(uid: string, inWindow: string -> bool): Query {
    Query(Some("income"), "completed", uid, inWindow)
  }

  /** Completed expense rows of the signed-in user inside the date window. */
  function ExpensesQuery(uid: string, inWindow: string -> bool): Query {
    Query(Some("expense"), "completed", uid, inWindow)
  }

  /** `GET /api/admin/revenue/total`. */
  function RevenueTotalRoute(user: Option<string>, table: seq<Record>, inWindow: string -> bool,
                             outcome: FetchOutcome): (resp: Response<int>)
    ensures user.None? ==> resp == Error(401, "Unauthorized")
    ensures user.Some? && outcome == FetchFailed ==> resp == Error(500, "Failed to fetch total revenue")
    ensures user.Some? && outcome == FetchedNull ==> resp == Ok(0)
    ensures user.Some? && outcome == Fetched ==>
      resp == Ok(Sum(Select(table, RevenueQuery(user.value, inWindow))))
  {
    if user.None? then Error(401, "Unauthorized")
    else if outcome == FetchFailed then Error(500, "Failed to fetch total revenue")
    else Ok(TotalOf(Fetch(table, RevenueQuery(user.value, inWindow), outcome)))
  }

  /** `GET /api/admin/expenses/total`. */
  function ExpensesTotalRoute(user: Option<string>, table: seq<Record>, inWindow: string -> bool,
                              outcome: FetchOutcome): (resp: Response<int>)
    ensures user.None? ==> resp == Error(401, "Unauthorized")
    ensures user.Some? && outcome == FetchFailed ==> resp == Error(500, "Failed to fetch total expenses")
    ensures user.Some? && outcome == FetchedNull ==> resp == Ok(0)
    ensures user.Some? && outcome == Fetched ==>
      resp == Ok(Sum(Select(table, ExpensesQuery(user.value, inWindow))))
  {
    if user.None? then Error(401, "Unauthorized")
    else if outcome == FetchFailed then Error(500, "Failed to fetch total expenses")
    else Ok(TotalOf(Fetch(table, ExpensesQuery(user.value, inWindow), outcome)))
  }

  /** Adding a row to the table raises total revenue by exactly its amount when it is a
      completed income row of the user inside the window, and leaves it unchanged otherwise. */
  lemma RevenueTotalAppend(uid: string, table: seq<Record>, r: Record, inWindow: string -> bool)
    ensures RevenueTotalRoute(Some(uid), table + [r], inWindow, Fetched).Ok?
    ensures RevenueTotalRoute(Some(uid), table + [r], inWindow, Fetched).body ==
      RevenueTotalRoute(Some(uid), table, inWindow, Fetched).body +
      (if r.kind == "income" && r.status == "completed" && r.userUid == uid && inWindow(r.createdAt)
       then r.amount else 0)
  {
    var q := RevenueQuery(uid, inWindow);
    SumSelectAppend(table, r, q);
    assert Matches(q, r) <==> r.kind == q.kind.value && r.status == "completed" && r.userUid == uid && inWindow(r.createdAt);
  }

  /** Adding a row to the table raises total expenses by exactly its amount when it is a
      completed expense row of the user inside the window, and leaves it unchanged otherwise. */
  lemma ExpensesTotalAppend(uid: string, table: seq<Record>, r: Record, inWindow: string -> bool)
    ensures ExpensesTotalRoute(Some(uid), table + [r], inWindow, Fetched).Ok?
    ensures ExpensesTotalRoute(Some(uid), table + [r], inWindow, Fetched).body ==
      ExpensesTotalRoute(Some(uid), table, inWindow, Fetched).body +
      (if r.kind == "expense" && r.status == "completed" && r.userUid == uid && inWindow(r.createdAt)
       then r.amount else 0)
  {
    var q := ExpensesQuery(uid, inWindow);
    SumSelectAppend(table, r, q);
    assert Matches(q, r) <==> r.kind == q.kind.value && r.status == "completed" && r.userUid == uid && inWindow(r.createdAt);
  }
}
