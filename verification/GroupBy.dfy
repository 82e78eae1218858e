/** Grouped sums, as a query with GROUP BY and ORDER BY computes them. */
module GroupBy {
  import opened Basics
  import opened Sums

  predicate Ascending(s: seq<int>) {
    forall i, k :: 0 <= i < k < |s| ==> s[i] < s[k]
  }

  /** Adds a group, keeping the order, unless it is there. */
  function Insert(groups: seq<int>, g: int): seq<int> {
    if groups == [] then [g]
    else
      var n := |groups| - 1;
      if groups[n] < g then groups + [g]
      else if groups[n] == g then groups
      else Insert(groups[..n], g) + [groups[n]]
  }

  lemma {:induction false} InsertIs(groups: seq<int>, g: int)
    requires Ascending(groups)
    ensures Ascending(Insert(groups, g))
    ensures forall x :: x in Insert(groups, g) <==> x in groups || x == g
  {
    if groups != [] {
      var n := |groups| - 1;
      assert groups == groups[..n] + [groups[n]];
      if groups[n] > g {
        var front := Insert(groups[..n], g);
        InsertIs(groups[..n], g);
        forall i | 0 <= i < |front| ensures front[i] < groups[n] {
          assert front[i] in front;
        }
      }
    }
  }

  /** The groups of a table in ascending order; `group` is `None` for a row the filter drops. */
  function Groups<T>(rows: seq<T>, group: T -> Option<int>): seq<int> {
    if rows == [] then []
    else
      var before := Groups(rows[..|rows| - 1], group);
      var g := group(rows[|rows| - 1]);
      if g.None? then before else Insert(before, g.value)
  }

  /** The groups are listed in order, once each, and are those of the rows. */
  lemma {:induction false} GroupsAre<T>(rows: seq<T>, group: T -> Option<int>)
    ensures Ascending(Groups(rows, group))
    ensures forall g :: g in Groups(rows, group) <==> exists r :: r in rows && group(r) == Some(g)
  {
    if rows != [] {
      var n := |rows| - 1;
      assert rows == rows[..n] + [rows[n]];
      GroupsAre(rows[..n], group);
      if group(rows[n]).Some? {
        InsertIs(Groups(rows[..n], group), group(rows[n]).value);
      }
    }
  }

  /** The weight of a row within one group, and within any. */
  function Within<T>(group: T -> Option<int>, value: T -> int, g: int): T -> int {
    (r: T) => if group(r) == Some(g) then value(r) else 0
  }

  function Kept<T>(group: T -> Option<int>, value: T -> int): T -> int {
    (r: T) => if group(r).Some? then value(r) else 0
  }

  /** The grouped sum as a function of the group. */
  function TotalOf<T>(rows: seq<T>, group: T -> Option<int>, value: T -> int): int -> int {
    (g: int) => Sum(rows, Within(group, value, g))
  }

  /** A group drawn from a list without repeats is met once. */
  lemma {:induction false} MetOnce(groups: seq<int>, weight: int -> int, more: int -> int, g: int, v: int)
    requires Ascending(groups) && forall x :: more(x) == weight(x) + if x == g then v else 0
    ensures Sum(groups, more) == Sum(groups, weight) + if g in groups then v else 0
  {
    if groups != [] {
      var n := |groups| - 1;
      assert groups == groups[..n] + [groups[n]];
      MetOnce(groups[..n], weight, more, g, v);
    }
  }

  /** Grouped sums add up to the sum of all kept rows, over any list of groups that repeats
      none and misses none. */
  lemma {:induction false} GroupsPartition<T>(groups: seq<int>, rows: seq<T>, group: T -> Option<int>, value: T -> int)
    requires Ascending(groups)
    requires forall r :: r in rows && group(r).Some? ==> group(r).value in groups
    ensures Sum(groups, TotalOf(rows, group, value)) == Sum(rows, Kept(group, value))
  {
    if rows == [] {
      SumZero(groups, TotalOf(rows, group, value));
    } else {
      var n := |rows| - 1;
      var front, last := rows[..n], rows[n];
      assert rows == front + [last] && last in rows;
      GroupsPartition(groups, front, group, value);
      var weight, more := TotalOf(front, group, value), TotalOf(rows, group, value);
      match group(last) {
        case Some(g) => MetOnce(groups, weight, more, g, value(last));
        case None => SumAgree(groups, weight, more);
      }
    }
  }
}
