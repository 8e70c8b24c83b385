/**
 * The keyed `reduce` shared by the cash-flow and by-category routes: rows are folded
 * into an object `acc`, adding each row's amount under the row's key, and rows without
 * a key are skipped. A JavaScript object remembers the order in which its keys were
 * first inserted, so the result is a map together with that key order.
 */
module Grouping {
  import opened Wrappers
  import opened Transactions

  /** A `Record<string, number>` accumulator: its entries, and its keys in insertion order. */
  datatype Buckets = Buckets(totals: map<string, int>, order: seq<string>)

  predicate Distinct(keys: seq<string>) {
    forall i, j :: 0 <= i < j < |keys| ==> keys[i] != keys[j]
  }

  /** The keys of the rows in order of first occurrence; keyless rows are skipped. */
  function KeyOrder(rows: seq<Record>, keyOf: Record -> Option<string>): seq<string> {
    if rows == [] then []
    else
      var order := KeyOrder(rows[..|rows| - 1], keyOf);
      match keyOf(rows[|rows| - 1])
      case None => order
      case Some(k) => if k in order then order else order + [k]
  }

  /** The set of keys the rows carry. */
  function KeySet(rows: seq<Record>, keyOf: Record -> Option<string>): set<string> {
    set i | 0 <= i < |rows| && keyOf(rows[i]).Some? :: keyOf(rows[i]).value
  }

  /** The sum of the amounts of the rows whose key is `k`. */
  function GroupTotal(rows: seq<Record>, keyOf: Record -> Option<string>, k: string): int {
    if rows == [] then 0
    else
      GroupTotal(rows[..|rows| - 1], keyOf, k)
      + (if keyOf(rows[|rows| - 1]) == Some(k) then rows[|rows| - 1].amount else 0)
  }

  /** The sum of the amounts of the rows that have a key. */
  function KeyedSum(rows: seq<Record>, keyOf: Record -> Option<string>): int {
    if rows == [] then 0
    else
      KeyedSum(rows[..|rows| - 1], keyOf)
      + (if keyOf(rows[|rows| - 1]).Some? then rows[|rows| - 1].amount else 0)
  }

  /** The sum, over `keys`, of the group totals. */
  function TotalOverKeys(rows: seq<Record>, keyOf: Record -> Option<string>, keys: seq<string>): int {
    if keys == [] then 0
    else TotalOverKeys(rows, keyOf, keys[..|keys| - 1]) + GroupTotal(rows, keyOf, keys[|keys| - 1])
  }

  /** The reduce itself. The callback's `if (acc[key])` tests truthiness, so a key whose
      running total is 0 is overwritten with the row's amount rather than added to; the
      key keeps its place either way. */
  method GroupSums(rows: seq<Record>, keyOf: Record -> Option<string>) returns (b: Buckets)
    ensures b.order == KeyOrder(rows, keyOf)
    ensures forall k :: k in b.totals <==> k in b.order
    ensures forall k :: k in b.totals ==> b.totals[k] == GroupTotal(rows, keyOf, k)
  {
    var acc: map<string, int> := map[];
    var order: seq<string> := [];
    for i := 0 to |rows|
      invariant order == KeyOrder(rows[..i], keyOf)
      invariant forall k :: k in acc <==> k in order
      invariant forall k :: k in acc ==> acc[k] == GroupTotal(rows[..i], keyOf, k)
    {
      assert rows[..i + 1][..i] == rows[..i];
      var r := rows[i];
      match keyOf(r) {
        case None =>
        case Some(k) =>
          if k !in acc {
            GroupTotalAbsent(rows[..i], keyOf, k);
            order := order + [k];
          }
          if k in acc && acc[k] != 0 {
            acc := acc[k := acc[k] + r.amount];
          } else {
            acc := acc[k := r.amount];
          }
      }
    }
    assert rows[..|rows|] == rows;
    b := Buckets(acc, order);
  }

  /** A key that never occurs has total 0. */
  lemma {:induction false} GroupTotalAbsent(rows: seq<Record>, keyOf: Record -> Option<string>, k: string)
    requires k !in KeyOrder(rows, keyOf)
    ensures GroupTotal(rows, keyOf, k) == 0
  {
    if rows != [] {
      GroupTotalAbsent(rows[..|rows| - 1], keyOf, k);
    }
  }

  /** The key order holds exactly the keys some row carries. */
  lemma {:induction false} KeyOrderMembers(rows: seq<Record>, keyOf: Record -> Option<string>, k: string)
    ensures k in KeyOrder(rows, keyOf) <==> exists i :: 0 <= i < |rows| && keyOf(rows[i]) == Some(k)
  {
    if rows != [] {
      var init := rows[..|rows| - 1];
      KeyOrderMembers(init, keyOf, k);
      if k in KeyOrder(rows, keyOf) {
        if k in KeyOrder(init, keyOf) {
          var i :| 0 <= i < |init| && keyOf(init[i]) == Some(k);
          assert rows[i] == init[i];
        } else {
          assert keyOf(rows[|rows| - 1]) == Some(k);
        }
      } else {
        forall i | 0 <= i < |rows|
          ensures keyOf(rows[i]) != Some(k)
        {
          if i < |init| {
            assert rows[i] == init[i];
          }
        }
      }
    }
  }

  /** No key is inserted twice. */
  lemma {:induction false} KeyOrderDistinct(rows: seq<Record>, keyOf: Record -> Option<string>)
    ensures Distinct(KeyOrder(rows, keyOf))
  {
    if rows != [] {
      KeyOrderDistinct(rows[..|rows| - 1], keyOf);
    }
  }

  /** Keys are ordered by first occurrence: the keys of any prefix of the rows come first,
      in the same order. */
  lemma {:induction false} KeyOrderPrefix(rows: seq<Record>, keyOf: Record -> Option<string>, m: nat)
    requires m <= |rows|
    ensures KeyOrder(rows[..m], keyOf) <= KeyOrder(rows, keyOf)
  {
    if m < |rows| {
      var init := rows[..|rows| - 1];
      assert rows[..m] == init[..m];
      KeyOrderPrefix(init, keyOf, m);
    } else {
      assert rows[..m] == rows;
    }
  }

  lemma {:induction false} DistinctCardinality(keys: seq<string>)
    requires Distinct(keys)
    ensures |set k | k in keys| == |keys|
  {
    if keys != [] {
      var init := keys[..|keys| - 1];
      var last := keys[|keys| - 1];
      DistinctCardinality(init);
      assert (set k | k in keys) == (set k | k in init) + {last};
      assert last !in (set k | k in init);
    }
  }

  /** There are as many buckets as distinct keys, and their keys are exactly the keys present. */
  lemma KeyOrderCoversKeySet(rows: seq<Record>, keyOf: Record -> Option<string>)
    ensures forall k :: k in KeyOrder(rows, keyOf) <==> k in KeySet(rows, keyOf)
    ensures |KeyOrder(rows, keyOf)| == |KeySet(rows, keyOf)|
  {
    var order := KeyOrder(rows, keyOf);
    forall k
      ensures k in order <==> k in KeySet(rows, keyOf)
    {
      KeyOrderMembers(rows, keyOf, k);
    }
    assert (set k | k in order) == KeySet(rows, keyOf);
    KeyOrderDistinct(rows, keyOf);
    DistinctCardinality(order);
  }

  lemma {:induction false} TotalOverKeysStep(rows: seq<Record>, r: Record, keyOf: Record -> Option<string>,
                                             keys: seq<string>)
    requires Distinct(keys)
    ensures TotalOverKeys(rows + [r], keyOf, keys) ==
      TotalOverKeys(rows, keyOf, keys) + (if keyOf(r).Some? && keyOf(r).value in keys then r.amount else 0)
  {
    if keys != [] {
      var init := keys[..|keys| - 1];
      TotalOverKeysStep(rows, r, keyOf, init);
      assert (rows + [r])[..|rows|] == rows;
      assert keys == init + [keys[|keys| - 1]];
    }
  }

  /** Conservation: the buckets together hold the amount of every keyed row. */
  lemma {:induction false} GroupsConserve(rows: seq<Record>, keyOf: Record -> Option<string>)
    ensures TotalOverKeys(rows, keyOf, KeyOrder(rows, keyOf)) == KeyedSum(rows, keyOf)
  {
    if rows != [] {
      var init := rows[..|rows| - 1];
      var r := rows[|rows| - 1];
      var order := KeyOrder(init, keyOf);
      assert rows == init + [r];
      GroupsConserve(init, keyOf);
      KeyOrderDistinct(init, keyOf);
      TotalOverKeysStep(init, r, keyOf, order);
      match keyOf(r)
      case None =>
      case Some(k) =>
        if k !in order {
          GroupTotalAbsent(init, keyOf, k);
          assert (order + [k])[..|order|] == order;
        }
    }
  }

  /** When the rows arrive with non-decreasing keys under `le`, the buckets are in
      non-decreasing key order as well. */
  lemma {:induction false} KeyOrderSorted(rows: seq<Record>, keyOf: Record -> Option<string>,
                                          le: (string, string) -> bool)
    requires forall i, j :: 0 <= i < j < |rows| && keyOf(rows[i]).Some? && keyOf(rows[j]).Some? ==>
      le(keyOf(rows[i]).value, keyOf(rows[j]).value)
    ensures forall i, j :: 0 <= i < j < |KeyOrder(rows, keyOf)| ==>
      le(KeyOrder(rows, keyOf)[i], KeyOrder(rows, keyOf)[j])
  {
    if rows != [] {
      var init := rows[..|rows| - 1];
      var r := rows[|rows| - 1];
      var order := KeyOrder(init, keyOf);
      KeyOrderSorted(init, keyOf, le);
      match keyOf(r)
      case None =>
      case Some(k) =>
        if k !in order {
          forall i | 0 <= i < |order|
            ensures le(order[i], k)
          {
            KeyOrderMembers(init, keyOf, order[i]);
            var a :| 0 <= a < |init| && keyOf(init[a]) == Some(order[i]);
            assert rows[a] == init[a];
          }
        }
    }
  }

  /** The buckets depend on the rows' keys and amounts only. */
  lemma {:induction false} GroupsDependOnKeysAndAmounts(rows: seq<Record>, others: seq<Record>,
                                                         keyOf: Record -> Option<string>)
    requires |rows| == |others|
    requires forall i :: 0 <= i < |rows| ==>
      keyOf(rows[i]) == keyOf(others[i]) && rows[i].amount == others[i].amount
    ensures KeyOrder(rows, keyOf) == KeyOrder(others, keyOf)
    ensures forall k :: GroupTotal(rows, keyOf, k) == GroupTotal(others, keyOf, k)
  {
    if rows != [] {
      var n := |rows| - 1;
      GroupsDependOnKeysAndAmounts(rows[..n], others[..n], keyOf);
    }
  }
}
