/** The financial report: daily rows against header totals, in cents. */
module FinancialReport {
  import opened Basics
  import opened Sums
  import opened GroupBy

  /** `completedOn` is the day of `completed_at`. */
  datatype OrderRow = OrderRow(
    org: nat, branch: nat, completed: bool, completedOn: Option<int>,
    grandTotal: int, discount: int, tax: int)

  datatype RefundRow = RefundRow(order: nat, amount: int)

  /** Branch 0 is how the service sees no branch. */
  datatype Filter = Filter(org: nat, from: int, to: int, branch: nat)

  predicate Matches(f: Filter, o: OrderRow) {
    && o.org == f.org && o.completed
    && o.completedOn.Some? && f.from <= o.completedOn.value <= f.to
    && (f.branch != 0 ==> o.branch == f.branch)
  }

  function OrderDay(f: Filter): OrderRow -> Option<int> {
    (o: OrderRow) => if Matches(f, o) then o.completedOn else None
  }

  /** A refund is joined with its order and reported on the order's day. */
  function RefundDay(orders: seq<OrderRow>, f: Filter): RefundRow -> Option<int> {
    (r: RefundRow) => if r.order < |orders| && Matches(f, orders[r.order]) then orders[r.order].completedOn else None
  }

  function Gross(): OrderRow -> int {
    (o: OrderRow) => o.grandTotal
  }

  function Discount(): OrderRow -> int {
    (o: OrderRow) => o.discount
  }

  function Tax(): OrderRow -> int {
    (o: OrderRow) => o.tax
  }

  function One(): OrderRow -> int {
    (o: OrderRow) => 1
  }

  function Refunded(): RefundRow -> int {
    (r: RefundRow) => r.amount
  }

  datatype Daily = Daily(date: int, gross: int, discounts: int, tax: int, refunds: int, net: int)

  datatype Report = Report(gross: int, discounts: int, tax: int, refunds: int, net: int, totalOrders: int,
      daily: seq<Daily>)

  /** One row of the `financial_report` query. */
  datatype DayRow = DayRow(date: int, gross: int, discounts: int, tax: int)

  function DayRowOf(orders: seq<OrderRow>, f: Filter, day: int): DayRow {
    DayRow(day,
           TotalOf(orders, OrderDay(f), Gross())(day),
           TotalOf(orders, OrderDay(f), Discount())(day),
           TotalOf(orders, OrderDay(f), Tax())(day))
  }

  function DayRows(orders: seq<OrderRow>, f: Filter): seq<DayRow> {
    var days := Groups(orders, OrderDay(f));
    seq(|days|, i requires 0 <= i < |days| => DayRowOf(orders, f, days[i]))
  }

  function RefundDays(orders: seq<OrderRow>, refunds: seq<RefundRow>, f: Filter): seq<int> {
    Groups(refunds, RefundDay(orders, f))
  }

  /** What the report shows for one day; a day without refunds shows none. */
  function DailyOf(orders: seq<OrderRow>, refunds: seq<RefundRow>, f: Filter, day: int): Daily {
    var row := DayRowOf(orders, f, day);
    var refunded := TotalOf(refunds, RefundDay(orders, f), Refunded())(day);
    Daily(day, row.gross, row.discounts, row.tax, refunded, row.gross - row.discounts - refunded)
  }

  // ---- Sums of the daily columns ----

  function GrossOn(): Daily -> int { (d: Daily) => d.gross }
  function DiscountsOn(): Daily -> int { (d: Daily) => d.discounts }
  function TaxOn(): Daily -> int { (d: Daily) => d.tax }
  function RefundsOn(): Daily -> int { (d: Daily) => d.refunds }
  function NetOn(): Daily -> int { (d: Daily) => d.net }

  ghost predicate IsDaily(daily: seq<Daily>, orders: seq<OrderRow>, refunds: seq<RefundRow>, f: Filter,
      days: seq<int>) {
    |daily| == |days| && forall i :: 0 <= i < |days| ==> daily[i] == DailyOf(orders, refunds, f, days[i])
  }

  /** A column of the daily rows sums to the sum over the days it was computed from. */
  lemma {:induction false} ColumnSum(daily: seq<Daily>, days: seq<int>, column: Daily -> int, weight: int -> int)
    requires |daily| == |days| && forall i :: 0 <= i < |days| ==> column(daily[i]) == weight(days[i])
    ensures Sum(daily, column) == Sum(days, weight)
  {
    if days != [] {
      var n := |days| - 1;
      ColumnSum(daily[..n], days[..n], column, weight);
    }
  }

  lemma {:induction false} NetIsTheRest(daily: seq<Daily>)
    requires forall i :: 0 <= i < |daily| ==> daily[i].net == daily[i].gross - daily[i].discounts - daily[i].refunds
    ensures Sum(daily, NetOn()) == Sum(daily, GrossOn()) - Sum(daily, DiscountsOn()) - Sum(daily, RefundsOn())
  {
    if daily != [] {
      NetIsTheRest(daily[..|daily| - 1]);
    }
  }

  /** The day of every reported refund is a day of some reported order. */
  lemma RefundDaysAreOrderDays(orders: seq<OrderRow>, refunds: seq<RefundRow>, f: Filter, day: int)
    requires day in RefundDays(orders, refunds, f)
    ensures day in Groups(orders, OrderDay(f))
  {
    GroupsAre(refunds, RefundDay(orders, f));
    GroupsAre(orders, OrderDay(f));
    var r :| r in refunds && RefundDay(orders, f)(r) == Some(day);
    assert orders[r.order] in orders && OrderDay(f)(orders[r.order]) == Some(day);
  }

  /** An order column, summed over the daily rows, is its sum over the reported orders. */
  lemma OrderColumn(orders: seq<OrderRow>, f: Filter, value: OrderRow -> int)
    ensures Sum(Groups(orders, OrderDay(f)), TotalOf(orders, OrderDay(f), value))
        == Sum(orders, Kept(OrderDay(f), value))
  {
    GroupsAre(orders, OrderDay(f));
    GroupsPartition(Groups(orders, OrderDay(f)), orders, OrderDay(f), value);
  }

  /** Refunds summed over the order days are the refunds summed over their own days. */
  lemma RefundColumn(orders: seq<OrderRow>, refunds: seq<RefundRow>, f: Filter)
    ensures var total := TotalOf(refunds, RefundDay(orders, f), Refunded());
      Sum(Groups(orders, OrderDay(f)), total) == Sum(RefundDays(orders, refunds, f), total)
        == Sum(refunds, Kept(RefundDay(orders, f), Refunded()))
  {
    GroupsAre(orders, OrderDay(f));
    GroupsAre(refunds, RefundDay(orders, f));
    forall r | r in refunds && RefundDay(orders, f)(r).Some?
        ensures RefundDay(orders, f)(r).value in Groups(orders, OrderDay(f)) {
      RefundDaysAreOrderDays(orders, refunds, f, RefundDay(orders, f)(r).value);
    }
    GroupsPartition(Groups(orders, OrderDay(f)), refunds, RefundDay(orders, f), Refunded());
    GroupsPartition(RefundDays(orders, refunds, f), refunds, RefundDay(orders, f), Refunded());
  }

  // ---- The report ----

  function SalesTotals(orders: seq<OrderRow>, f: Filter): (int, int) {
    (Sum(orders, Kept(OrderDay(f), Gross())), Sum(orders, Kept(OrderDay(f), One())))
  }

  /** The refund query's rows as the dictionary the service makes of them. */
  function RefundByDate(orders: seq<OrderRow>, refunds: seq<RefundRow>, f: Filter): map<int, int> {
    map day | day in RefundDays(orders, refunds, f) :: TotalOf(refunds, RefundDay(orders, f), Refunded())(day)
  }

  /** A day the dictionary misses had no refunds. */
  lemma MissingDay(orders: seq<OrderRow>, refunds: seq<RefundRow>, f: Filter, day: int)
    ensures TotalOf(refunds, RefundDay(orders, f), Refunded())(day) == At(RefundByDate(orders, refunds, f), day)
  {
    if day !in RefundDays(orders, refunds, f) {
      GroupsAre(refunds, RefundDay(orders, f));
      forall i | 0 <= i < |refunds| ensures Within(RefundDay(orders, f), Refunded(), day)(refunds[i]) == 0 {
        assert refunds[i] in refunds;
      }
      SumZero(refunds, Within(RefundDay(orders, f), Refunded(), day));
    }
  }

  /** Every column of the daily rows sums to the header figure. */
  ghost predicate DailyAddsUp(r: Report) {
    && Sum(r.daily, GrossOn()) == r.gross && Sum(r.daily, DiscountsOn()) == r.discounts
    && Sum(r.daily, TaxOn()) == r.tax && Sum(r.daily, RefundsOn()) == r.refunds
    && Sum(r.daily, NetOn()) == r.net
  }

  lemma LineIsDaily(line: Daily, orders: seq<OrderRow>, refunds: seq<RefundRow>, f: Filter, day: int)
    requires var row := DayRowOf(orders, f, day);
      var refunded := At(RefundByDate(orders, refunds, f), day);
      line == Daily(day, row.gross, row.discounts, row.tax, refunded, row.gross - row.discounts - refunded)
    ensures line == DailyOf(orders, refunds, f, day)
  {
    MissingDay(orders, refunds, f, day);
  }

  /** The loop over the query's rows. */
  method DailyLoop(rows: seq<DayRow>, refundByDate: map<int, int>,
                   ghost orders: seq<OrderRow>, ghost refunds: seq<RefundRow>, ghost f: Filter)
    returns (daily: seq<Daily>, discounts: int, tax: int)
    requires rows == DayRows(orders, f) && refundByDate == RefundByDate(orders, refunds, f)
    ensures IsDaily(daily, orders, refunds, f, Groups(orders, OrderDay(f)))
    ensures discounts == Sum(daily, DiscountsOn()) && tax == Sum(daily, TaxOn())
  {
    ghost var days := Groups(orders, OrderDay(f));
    daily, discounts, tax := [], 0, 0;
    for i := 0 to |rows|
      invariant IsDaily(daily, orders, refunds, f, days[..i])
      invariant discounts == Sum(daily, DiscountsOn()) && tax == Sum(daily, TaxOn())
    {
      var row := rows[i];
      var refunded := At(refundByDate, row.date);
      var line := Daily(row.date, row.gross, row.discounts, row.tax, refunded, row.gross - row.discounts - refunded);
      LineIsDaily(line, orders, refunds, f, days[i]);
      SumPush(daily, line, DiscountsOn());
      SumPush(daily, line, TaxOn());
      daily := daily + [line];
      discounts, tax := discounts + row.discounts, tax + row.tax;
    }
    assert days[..|days|] == days;
  }

  /** The sum over the dictionary's values. */
  method RefundLoop(days: seq<int>, refundByDate: map<int, int>,
                    ghost orders: seq<OrderRow>, ghost refunds: seq<RefundRow>, ghost f: Filter)
    returns (total: int)
    requires days == RefundDays(orders, refunds, f) && refundByDate == RefundByDate(orders, refunds, f)
    ensures total == Sum(days, TotalOf(refunds, RefundDay(orders, f), Refunded()))
  {
    total := 0;
    for i := 0 to |days|
      invariant total == Sum(days[..i], TotalOf(refunds, RefundDay(orders, f), Refunded()))
    {
      assert days[..i + 1] == days[..i] + [days[i]];
      SumPush(days[..i], days[i], TotalOf(refunds, RefundDay(orders, f), Refunded()));
      total := total + refundByDate[days[i]];
    }
    assert days[..|days|] == days;
  }

  method GetFinancialReport(orders: seq<OrderRow>, refunds: seq<RefundRow>, f: Filter) returns (r: Report)
    ensures DailyAddsUp(r)
    ensures r.gross == Sum(orders, Kept(OrderDay(f), Gross())) && r.totalOrders == Sum(orders, Kept(OrderDay(f), One()))
    ensures r.discounts == Sum(orders, Kept(OrderDay(f), Discount())) && r.tax == Sum(orders, Kept(OrderDay(f), Tax()))
    ensures r.refunds == Sum(refunds, Kept(RefundDay(orders, f), Refunded()))
    ensures IsDaily(r.daily, orders, refunds, f, Groups(orders, OrderDay(f)))
  {
    var totals := SalesTotals(orders, f);
    var rows := DayRows(orders, f);
    var refundDays := RefundDays(orders, refunds, f);
    var refundByDate := RefundByDate(orders, refunds, f);
    var daily, discounts, tax := DailyLoop(rows, refundByDate, orders, refunds, f);
    var totalRefunds := RefundLoop(refundDays, refundByDate, orders, refunds, f);
    r := Report(totals.0, discounts, tax, totalRefunds, totals.0 - discounts - totalRefunds, totals.1, daily);
    ReportAddsUp(r, orders, refunds, f);
  }

  lemma ReportAddsUp(r: Report, orders: seq<OrderRow>, refunds: seq<RefundRow>, f: Filter)
    requires IsDaily(r.daily, orders, refunds, f, Groups(orders, OrderDay(f)))
    requires r.gross == Sum(orders, Kept(OrderDay(f), Gross()))
    requires r.discounts == Sum(r.daily, DiscountsOn()) && r.tax == Sum(r.daily, TaxOn())
    requires r.refunds == Sum(RefundDays(orders, refunds, f), TotalOf(refunds, RefundDay(orders, f), Refunded()))
    requires r.net == r.gross - r.discounts - r.refunds
    ensures DailyAddsUp(r) && r.refunds == Sum(refunds, Kept(RefundDay(orders, f), Refunded()))
    ensures r.discounts == Sum(orders, Kept(OrderDay(f), Discount())) && r.tax == Sum(orders, Kept(OrderDay(f), Tax()))
  {
    var days := Groups(orders, OrderDay(f));
    OrderColumn(orders, f, Gross());
    ColumnSum(r.daily, days, GrossOn(), TotalOf(orders, OrderDay(f), Gross()));
    OrderColumn(orders, f, Discount());
    ColumnSum(r.daily, days, DiscountsOn(), TotalOf(orders, OrderDay(f), Discount()));
    OrderColumn(orders, f, Tax());
    ColumnSum(r.daily, days, TaxOn(), TotalOf(orders, OrderDay(f), Tax()));
    RefundColumn(orders, refunds, f);
    ColumnSum(r.daily, days, RefundsOn(), TotalOf(refunds, RefundDay(orders, f), Refunded()));
    NetIsTheRest(r.daily);
  }

  // ---- Reports against one another ----

  lemma {:induction false} SumOfBoth<T>(rows: seq<T>, all: T -> int, some: T -> int, others: T -> int)
    requires forall i :: 0 <= i < |rows| ==> all(rows[i]) == some(rows[i]) + others(rows[i])
    ensures Sum(rows, all) == Sum(rows, some) + Sum(rows, others)
  {
    if rows != [] {
      SumOfBoth(rows[..|rows| - 1], all, some, others);
    }
  }

  /** A report over a period is the report up to a day and the one from the next day on. */
  lemma PeriodsAddUp(orders: seq<OrderRow>, f: Filter, day: int, value: OrderRow -> int)
    requires f.from <= day < f.to
    ensures Sum(orders, Kept(OrderDay(f), value))
         == Sum(orders, Kept(OrderDay(f.(to := day)), value)) + Sum(orders, Kept(OrderDay(f.(from := day + 1)), value))
  {
    SumOfBoth(orders, Kept(OrderDay(f), value), Kept(OrderDay(f.(to := day)), value),
        Kept(OrderDay(f.(from := day + 1)), value));
  }

  function BranchOf(f: Filter): OrderRow -> Option<int> {
    (o: OrderRow) => if Matches(f, o) then Some(o.branch) else None
  }

  function BranchTotal(orders: seq<OrderRow>, f: Filter, value: OrderRow -> int): int -> int {
    (b: int) => if b > 0 then Sum(orders, Kept(OrderDay(f.(branch := b)), value)) else 0
  }

  /** A report without a branch is the reports of all branches together. */
  lemma BranchesAddUp(orders: seq<OrderRow>, f: Filter, value: OrderRow -> int)
    requires f.branch == 0 && forall o :: o in orders ==> o.branch != 0
    ensures Sum(orders, Kept(OrderDay(f), value)) == Sum(Groups(orders, BranchOf(f)), BranchTotal(orders, f, value))
  {
    var branches := Groups(orders, BranchOf(f));
    GroupsAre(orders, BranchOf(f));
    GroupsPartition(branches, orders, BranchOf(f), value);
    SumAgree(orders, Kept(BranchOf(f), value), Kept(OrderDay(f), value));
    forall i | 0 <= i < |branches|
      ensures TotalOf(orders, BranchOf(f), value)(branches[i]) == BranchTotal(orders, f, value)(branches[i])
    {
      var b := branches[i];
      assert b in branches;
      SumAgree(orders, Within(BranchOf(f), value, b), Kept(OrderDay(f.(branch := b)), value));
    }
    SumAgree(branches, TotalOf(orders, BranchOf(f), value), BranchTotal(orders, f, value));
  }

  /** Orders of other organisations and orders that are not completed do not count. */
  lemma OthersDoNotCount(orders: seq<OrderRow>, f: Filter, value: OrderRow -> int)
    requires forall o :: o in orders ==> o.org != f.org || !o.completed
    ensures Sum(orders, Kept(OrderDay(f), value)) == 0
  {
    forall i | 0 <= i < |orders| ensures Kept(OrderDay(f), value)(orders[i]) == 0 {
      assert orders[i] in orders;
    }
    SumZero(orders, Kept(OrderDay(f), value));
  }
}
