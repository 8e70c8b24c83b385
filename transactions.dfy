/**
 * Rows of the `transactions` table, the database queries the admin routes issue,
 * and the summing `reduce` they share.
 */
module Transactions {
  import opened Wrappers

  /** One row of the `transactions` table. `amount` is in minor currency units;
      `kind` is the `type` column (`"income"` or `"expense"`). */
  datatype Record = Record(
    amount: int,
    kind: string,
    category: Option<string>,
    status: string,
    userUid: string,
    createdAt: string)

  /** The filters a route puts on its query: equality on `type` (when present),
      `status` and `user_uid`, and the `created_at` window, which is left abstract. */
  datatype Query = Query(
    kind: Option<string>,
    status: string,
    owner: string,
    inWindow: string -> bool)

  predicate Matches(q: Query, r: Record) {
    && (q.kind.None? || r.kind == q.kind.value)
    && r.status == q.status
    && r.userUid == q.owner
    && q.inWindow(r.createdAt)
  }

  /** `Array.prototype.filter`: the rows satisfying `keep`, in order. */
  function Filter(rows: seq<Record>, keep: Record -> bool): (kept: seq<Record>)
    ensures |kept| <= |rows|
    ensures forall i :: 0 <= i < |kept| ==> keep(kept[i])
    ensures forall i :: 0 <= i < |rows| && keep(rows[i]) ==> rows[i] in kept
  {
    if rows == [] then []
    else (if keep(rows[0]) then [rows[0]] else []) + Filter(rows[1..], keep)
  }

  lemma {:induction false} FilterAppend(rows: seq<Record>, r: Record, keep: Record -> bool)
    ensures Filter(rows + [r], keep) == Filter(rows, keep) + (if keep(r) then [r] else [])
  {
    if rows == [] {
      assert rows + [r] == [r];
    } else {
      assert (rows + [r])[1..] == rows[1..] + [r];
      FilterAppend(rows[1..], r, keep);
    }
  }

  /** The rows a query returns, in table order: the table filtered by the query. */
  function Select(table: seq<Record>, q: Query): (rows: seq<Record>)
    ensures |rows| <= |table|
    ensures forall i :: 0 <= i < |rows| ==> Matches(q, rows[i])
    ensures forall i :: 0 <= i < |table| && Matches(q, table[i]) ==> table[i] in rows
  {
    Filter(table, r => Matches(q, r))
  }

  lemma SelectAppend(table: seq<Record>, r: Record, q: Query)
    ensures Select(table + [r], q) == Select(table, q) + (if Matches(q, r) then [r] else [])
  {
    FilterAppend(table, r, r => Matches(q, r));
  }

  /** The sum of the amounts: what every summing `reduce` computes. */
  function Sum(rows: seq<Record>): int {
    if rows == [] then 0 else Sum(rows[..|rows| - 1]) + rows[|rows| - 1].amount
  }

  lemma {:induction false} SumCons(r: Record, rows: seq<Record>)
    ensures Sum([r] + rows) == r.amount + Sum(rows)
  {
    if rows != [] {
      var init := rows[..|rows| - 1];
      assert ([r] + rows)[..|rows|] == [r] + init;
      SumCons(r, init);
    }
  }

  /** Adding a row to the table changes a query's sum by that row's amount exactly when
      the row matches the query. */
  lemma SumSelectAppend(table: seq<Record>, r: Record, q: Query)
    ensures Sum(Select(table + [r], q)) == Sum(Select(table, q)) + (if Matches(q, r) then r.amount else 0)
  {
    SelectAppend(table, r, q);
    var rows := Select(table, q);
    if Matches(q, r) {
      assert (rows + [r])[..|rows|] == rows;
    } else {
      assert rows + [] == rows;
    }
  }

  /** `rows.reduce((sum, t) => sum + t.amount, acc)`, a left fold from the first row. */
  function FoldAmounts(acc: int, rows: seq<Record>): (total: int)
    ensures total == acc + Sum(rows)
    decreases rows
  {
    if rows == [] then acc
    else
      assert rows == [rows[0]] + rows[1..];
      SumCons(rows[0], rows[1..]);
      FoldAmounts(acc + rows[0].amount, rows[1..])
  }

  /** `data?.reduce((sum, t) => sum + t.amount, 0) || 0`: `undefined` when `data` is
      null, and `|| 0` maps that (and a zero sum) to 0. */
  function TotalOf(data: Option<seq<Record>>): (total: int)
    ensures data.None? ==> total == 0
    ensures data.Some? ==> total == Sum(data.value)
  {
    match data
    case None => 0
    case Some(rows) =>
      var sum := FoldAmounts(0, rows);
      if sum != 0 then sum else 0
  }

  /** How the database call came back: rows, `data: null` without an error, or an error. */
  datatype FetchOutcome = Fetched | FetchedNull | FetchFailed

  /** The `data` field of the query's answer. */
  function Fetch(table: seq<Record>, q: Query, outcome: FetchOutcome): Option<seq<Record>>
  {
    if outcome == Fetched then Some(Select(table, q)) else None
  }

  /** A route's JSON answer: a body with status 200, or `{ error }` with a status code. */
  datatype Response<T> = Ok(body: T) | Error(status: int, message: string)

  /** The prefix of a timestamp before its first `'T'` (`created_at.split('T')[0]`). */
  function DayKey(createdAt: string): (day: string)
    ensures day <= createdAt
    ensures 'T' !in day
    ensures day == createdAt || createdAt[|day|] == 'T'
  {
    if createdAt == [] || createdAt[0] == 'T' then []
    else [createdAt[0]] + DayKey(createdAt[1..])
  }

  /** A row's day: every row has one. */
  function DayKeyOf(r: Record): Option<string> {
    Some(DayKey(r.createdAt))
  }

  /** Counted as a sale by the profit routes: chosen by category, whatever the row's type. */
  predicate IsSelling(r: Record) {
    r.category == Some("selling")
  }

  /** Counted as an expense by the profit routes: chosen by type, whatever the category. */
  predicate IsExpense(r: Record) {
    r.kind == "expense"
  }
}
