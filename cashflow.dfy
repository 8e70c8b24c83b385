/**
 * `GET /api/admin/cashflow`: every completed row of the user inside the window, grouped
 * by day, amounts added whatever the row's type.
 */
module CashFlow {
  import opened Wrappers
  import opened Transactions
  import opened Grouping

  /** Every completed row of the user inside the window, in `created_at` order. */
  function CashFlowQuery(uid: string, inWindow: string -> bool): Query {
    Query(None, "completed", uid, inWindow)
  }

  /** `GET /api/admin/cashflow`. When `data` is null the reduce is skipped and the body
      carries no `cashFlow` (modelled as `None`). */
  method CashFlowRoute(user: Option<string>, table: seq<Record>, inWindow: string -> bool,
                       outcome: FetchOutcome) returns (resp: Response<Option<Buckets>>)
    ensures user.None? ==> resp == Error(401, "Unauthorized")
    ensures user.Some? && outcome == FetchFailed ==> resp == Error(500, "Failed to fetch cash flow data")
    ensures user.Some? && outcome == FetchedNull ==> resp == Ok(None)
    ensures user.Some? && outcome == Fetched ==>
      var rows := Select(table, CashFlowQuery(user.value, inWindow));
      && resp.Ok? && resp.body.Some?
      && resp.body.value.order == KeyOrder(rows, DayKeyOf)
      && (forall d :: d in resp.body.value.totals <==> d in KeySet(rows, DayKeyOf))
      && (forall d :: d in resp.body.value.totals ==>
            resp.body.value.totals[d] == GroupTotal(rows, DayKeyOf, d))
  {
    if user.None? {
      return Error(401, "Unauthorized");
    }
    if outcome == FetchFailed {
      return Error(500, "Failed to fetch cash flow data");
    }
    var data := Fetch(table, CashFlowQuery(user.value, inWindow), outcome);
    if data.None? {
      return Ok(None);
    }
    var cashFlow := GroupSums(data.value, DayKeyOf);
    KeyOrderCoversKeySet(data.value, DayKeyOf);
    resp := Ok(Some(cashFlow));
  }

  /** Every row has a day, so the days together hold the sum of all amounts. */
  lemma {:induction false} CashFlowConserves(rows: seq<Record>)
    ensures TotalOverKeys(rows, DayKeyOf, KeyOrder(rows, DayKeyOf)) == Sum(rows)
  {
    GroupsConserve(rows, DayKeyOf);
    KeyedSumIsSum(rows);
  }

  lemma {:induction false} KeyedSumIsSum(rows: seq<Record>)
    ensures KeyedSum(rows, DayKeyOf) == Sum(rows)
  {
    if rows != [] {
      KeyedSumIsSum(rows[..|rows| - 1]);
    }
  }

  /** The row's type is never consulted: rows that agree on amounts and timestamps give
      the same cash flow. */
  lemma {:induction false} CashFlowIgnoresType(rows: seq<Record>, others: seq<Record>)
    requires |rows| == |others|
    requires forall i :: 0 <= i < |rows| ==>
      rows[i].amount == others[i].amount && rows[i].createdAt == others[i].createdAt
    ensures KeyOrder(rows, DayKeyOf) == KeyOrder(others, DayKeyOf)
    ensures forall d :: GroupTotal(rows, DayKeyOf, d) == GroupTotal(others, DayKeyOf, d)
  {
    GroupsDependOnKeysAndAmounts(rows, others, DayKeyOf);
  }

  /** Lexicographic order on strings, the order of ISO-8601 dates. */
  predicate LexLe(a: string, b: string) {
    a == [] || (b != [] && (a[0] < b[0] || (a[0] == b[0] && LexLe(a[1..], b[1..]))))
  }

  /** Rows ordered by day (as the query's ascending `created_at` order gives for ISO
      timestamps) produce days in ascending order, each once. */
  lemma CashFlowDaysAscending(rows: seq<Record>)
    requires forall i, j :: 0 <= i < j < |rows| ==> LexLe(DayKey(rows[i].createdAt), DayKey(rows[j].createdAt))
    ensures forall i, j :: 0 <= i < j < |KeyOrder(rows, DayKeyOf)| ==>
      LexLe(KeyOrder(rows, DayKeyOf)[i], KeyOrder(rows, DayKeyOf)[j])
      && KeyOrder(rows, DayKeyOf)[i] != KeyOrder(rows, DayKeyOf)[j]
  {
    KeyOrderSorted(rows, DayKeyOf, LexLe);
    KeyOrderDistinct(rows, DayKeyOf);
  }
}
