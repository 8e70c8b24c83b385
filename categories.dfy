/**
 * `GET /api/admin/revenue/category` and `GET /api/admin/expenses/category`: completed
 * income (respectively expense) rows of the user inside the window, summed per category,
 * rows with a falsy category skipped.
 */
module Categories {
  import opened Wrappers
  import opened Transactions
  import opened Grouping

  function RevenueByCategoryQuery(uid: string, inWindow: string -> bool): Query {
    Query(Some("income"), "completed", uid, inWindow)
  }

  function ExpensesByCategoryQuery(uid: string, inWindow: string -> bool): Query {
    Query(Some("expense"), "completed", uid, inWindow)
  }

  /** `if (!category) return acc`: null, undefined and `""` are falsy and give no key. */
  function CategoryKey(r: Record): Option<string> {
    if r.category.Some? && r.category.value != "" then r.category else None
  }

  /** The sum of the amounts of the rows whose category is truthy. */
  function CategorizedSum(rows: seq<Record>): int {
    if rows == [] then 0
    else
      CategorizedSum(rows[..|rows| - 1])
      + (if CategoryKey(rows[|rows| - 1]).Some? then rows[|rows| - 1].amount else 0)
  }

  /** What the body of a by-category route states about its buckets. */
  ghost predicate CategoryBuckets(rows: seq<Record>, b: Buckets) {
    && b.order == KeyOrder(rows, CategoryKey)
    && (forall c :: c in b.totals <==> c != "" && exists i :: 0 <= i < |rows| && rows[i].category == Some(c))
    && (forall c :: c in b.totals ==> b.totals[c] == GroupTotal(rows, CategoryKey, c))
  }

  /** `GET /api/admin/revenue/category`. */
  method RevenueByCategoryRoute(user: Option<string>, table: seq<Record>, inWindow: string -> bool,
                                outcome: FetchOutcome) returns (resp: Response<Option<Buckets>>)
    ensures user.None? ==> resp == Error(401, "Unauthorized")
    ensures user.Some? && outcome == FetchFailed ==> resp == Error(500, "Failed to fetch revenue by category")
    ensures user.Some? && outcome == FetchedNull ==> resp == Ok(None)
    ensures user.Some? && outcome == Fetched ==>
      && resp.Ok? && resp.body.Some?
      && CategoryBuckets(Select(table, RevenueByCategoryQuery(user.value, inWindow)), resp.body.value)
  {
    if user.None? {
      return Error(401, "Unauthorized");
    }
    if outcome == FetchFailed {
      return Error(500, "Failed to fetch revenue by category");
    }
    var data := Fetch(table, RevenueByCategoryQuery(user.value, inWindow), outcome);
    if data.None? {
      return Ok(None);
    }
    var revenueByCategory := GroupSums(data.value, CategoryKey);
    CategoryKeysPresent(data.value);
    resp := Ok(Some(revenueByCategory));
  }

  /** `GET /api/admin/expenses/category`. */
  method ExpensesByCategoryRoute(user: Option<string>, table: seq<Record>, inWindow: string -> bool,
                                 outcome: FetchOutcome) returns (resp: Response<Option<Buckets>>)
    ensures user.None? ==> resp == Error(401, "Unauthorized")
    ensures user.Some? && outcome == FetchFailed ==> resp == Error(500, "Failed to fetch expenses by category")
    ensures user.Some? && outcome == FetchedNull ==> resp == Ok(None)
    ensures user.Some? && outcome == Fetched ==>
      && resp.Ok? && resp.body.Some?
      && CategoryBuckets(Select(table, ExpensesByCategoryQuery(user.value, inWindow)), resp.body.value)
  {
    if user.None? {
      return Error(401, "Unauthorized");
    }
    if outcome == FetchFailed {
      return Error(500, "Failed to fetch expenses by category");
    }
    var data := Fetch(table, ExpensesByCategoryQuery(user.value, inWindow), outcome);
    if data.None? {
      return Ok(None);
    }
    var expensesByCategory := GroupSums(data.value, CategoryKey);
    CategoryKeysPresent(data.value);
    resp := Ok(Some(expensesByCategory));
  }

  /** The categories that get a bucket are exactly the truthy categories present. */
  lemma CategoryKeysPresent(rows: seq<Record>)
    ensures forall c :: c in KeyOrder(rows, CategoryKey) <==>
      c != "" && exists i :: 0 <= i < |rows| && rows[i].category == Some(c)
  {
    forall c
      ensures c in KeyOrder(rows, CategoryKey) <==>
        c != "" && exists i :: 0 <= i < |rows| && rows[i].category == Some(c)
    {
      KeyOrderMembers(rows, CategoryKey, c);
      if c != "" && exists i :: 0 <= i < |rows| && rows[i].category == Some(c) {
        var i :| 0 <= i < |rows| && rows[i].category == Some(c);
        assert CategoryKey(rows[i]) == Some(c);
      }
    }
  }

  /** Conservation: the buckets together hold the amount of every row with a truthy
      category, and nothing else. */
  lemma CategoriesConserve(rows: seq<Record>)
    ensures TotalOverKeys(rows, CategoryKey, KeyOrder(rows, CategoryKey)) == CategorizedSum(rows)
  {
    GroupsConserve(rows, CategoryKey);
    KeyedSumIsCategorizedSum(rows);
  }

  lemma {:induction false} KeyedSumIsCategorizedSum(rows: seq<Record>)
    ensures KeyedSum(rows, CategoryKey) == CategorizedSum(rows)
  {
    if rows != [] {
      KeyedSumIsCategorizedSum(rows[..|rows| - 1]);
    }
  }
}
