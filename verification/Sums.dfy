/** Weighted sums over the rows of a table, and totals over a balance map. */
module Sums {

  function Sum<T>(rows: seq<T>, weight: T -> int): int {
    if rows == [] then 0
    else Sum(rows[..|rows| - 1], weight) + weight(rows[|rows| - 1])
  }

  lemma SumPush<T>(rows: seq<T>, row: T, weight: T -> int)
    ensures Sum(rows + [row], weight) == Sum(rows, weight) + weight(row)
  {
    assert (rows + [row])[..|rows|] == rows;
  }

  lemma {:induction false} SumConcat<T>(a: seq<T>, b: seq<T>, weight: T -> int)
    ensures Sum(a + b, weight) == Sum(a, weight) + Sum(b, weight)
  {
    if b == [] {
      assert a + b == a;
    } else {
      var front, last := b[..|b| - 1], b[|b| - 1];
      assert a + b == (a + front) + [last];
      SumPush(a + front, last, weight);
      SumConcat(a, front, weight);
    }
  }

  lemma SumFirst<T>(rows: seq<T>, weight: T -> int)
    requires rows != []
    ensures Sum(rows, weight) == weight(rows[0]) + Sum(rows[1..], weight)
  {
    assert rows == [rows[0]] + rows[1..];
    SumConcat([rows[0]], rows[1..], weight);
    assert [rows[0]] == [] + [rows[0]];
    SumPush([], rows[0], weight);
  }

  lemma {:induction false} SumUpdate<T>(rows: seq<T>, i: nat, row: T, weight: T -> int)
    requires i < |rows|
    ensures Sum(rows[i := row], weight) == Sum(rows, weight) - weight(rows[i]) + weight(row)
  {
    var before, after := rows[..i], rows[i + 1..];
    assert rows == before + ([rows[i]] + after);
    assert rows[i := row] == before + ([row] + after);
    SumConcat(before, [rows[i]] + after, weight);
    SumConcat(before, [row] + after, weight);
    SumFirst([rows[i]] + after, weight);
    SumFirst([row] + after, weight);
  }

  /** Rows that weigh the same sum to the same. */
  lemma {:induction false} SumAgree<T>(rows: seq<T>, v: T -> int, w: T -> int)
    requires forall i :: 0 <= i < |rows| ==> v(rows[i]) == w(rows[i])
    ensures Sum(rows, v) == Sum(rows, w)
  {
    if rows != [] {
      SumAgree(rows[..|rows| - 1], v, w);
    }
  }

  lemma {:induction false} SumZero<T>(rows: seq<T>, weight: T -> int)
    requires forall i :: 0 <= i < |rows| ==> weight(rows[i]) == 0
    ensures Sum(rows, weight) == 0
  {
    if rows != [] {
      SumZero(rows[..|rows| - 1], weight);
    }
  }

  lemma {:induction false} SumNonNegative<T>(rows: seq<T>, weight: T -> int)
    requires forall i :: 0 <= i < |rows| ==> weight(rows[i]) >= 0
    ensures Sum(rows, weight) >= 0
  {
    if rows != [] {
      SumNonNegative(rows[..|rows| - 1], weight);
    }
  }

  /** A later prefix weighs at least the earlier one and the row after it. */
  lemma {:induction false} SumPasses<T>(rows: seq<T>, i: nat, k: nat, weight: T -> int)
    requires i < k <= |rows| && forall j :: 0 <= j < |rows| ==> weight(rows[j]) >= 0
    ensures Sum(rows[..i], weight) + weight(rows[i]) <= Sum(rows[..k], weight)
  {
    assert rows[..k][..k - 1] == rows[..k - 1];
    if i < k - 1 {
      SumPasses(rows, i, k - 1, weight);
    }
  }

  /** One row of a table of non-negative weights weighs no more than the table. */
  lemma SumBoundsRow<T>(rows: seq<T>, i: nat, weight: T -> int)
    requires i < |rows|
    requires forall k :: 0 <= k < |rows| ==> weight(rows[k]) >= 0
    ensures weight(rows[i]) <= Sum(rows, weight)
  {
    assert rows == rows[..i] + rows[i..];
    SumConcat(rows[..i], rows[i..], weight);
    SumFirst(rows[i..], weight);
    SumNonNegative(rows[..i], weight);
    SumNonNegative(rows[i..][1..], weight);
  }

  /** The sum of a balance map over the keys `chosen` picks. */
  ghost function Total<K(!new)>(m: map<K, int>, chosen: K -> bool): int
    decreases |m|
  {
    if m == map[] then 0
    else
      var k :| k in m;
      (if chosen(k) then m[k] else 0) + Total(m - {k}, chosen)
  }

  lemma {:induction false} TotalPick<K(!new)>(m: map<K, int>, k: K, chosen: K -> bool)
    requires k in m
    ensures Total(m, chosen) == (if chosen(k) then m[k] else 0) + Total(m - {k}, chosen)
    decreases |m|
  {
    var first :| first in m
      && Total(m, chosen) == (if chosen(first) then m[first] else 0) + Total(m - {first}, chosen);
    if first != k {
      TotalPick(m - {first}, k, chosen);
      TotalPick(m - {k}, first, chosen);
      assert m - {first} - {k} == m - {k} - {first};
    }
  }

  function At<K>(m: map<K, int>, k: K): int {
    if k in m then m[k] else 0
  }

  lemma TotalUpdate<K(!new)>(m: map<K, int>, k: K, v: int, chosen: K -> bool)
    ensures Total(m[k := v], chosen)
         == Total(m, chosen) + (if chosen(k) then v - At(m, k) else 0)
  {
    TotalPick(m[k := v], k, chosen);
    assert m[k := v] - {k} == m - {k};
    if k in m {
      TotalPick(m, k, chosen);
    } else {
      assert m - {k} == m;
    }
  }
}
