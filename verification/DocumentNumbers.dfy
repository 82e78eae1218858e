/** Document numbers: a counter per document type and day, and the printed form. */
module DocumentNumbers {
  import opened Basics
  import opened Sums
  import opened Decimal

  datatype DateParts = DateParts(year: nat, month: nat, day: nat)

  predicate OnCalendar(d: DateParts) {
    1000 <= d.year <= 9999 && 1 <= d.month <= 12 && 1 <= d.day <= 31
  }

  type Date = d: DateParts | OnCalendar(d) witness DateParts(2024, 1, 1)

  /** The six generators; order numbers carry the branch code. */
  datatype Generator =
    | OrderNumber(code: string) | PurchaseNumber | ReceivingNumber | TransferNumber | ReturnNumber | RefundNumber

  function Prefix(g: Generator): string {
    match g
    case OrderNumber(code) => code
    case PurchaseNumber => "PO"
    case ReceivingNumber => "REC"
    case TransferNumber => "TRF"
    case ReturnNumber => "RET"
    case RefundNumber => "REF"
  }

  function DocType(g: Generator): string {
    if g.OrderNumber? then "ORD-" + g.code else Prefix(g)
  }

  /** `strftime("%Y%m%d")` */
  function DateText(d: Date): string {
    Padded(d.year, 4) + Padded(d.month, 2) + Padded(d.day, 2)
  }

  function Print(prefix: string, date: Date, n: nat): string {
    prefix + "-" + DateText(date) + "-" + Padded(n, 4)
  }

  // ---- Reading a number back ----

  function ParseDate(s: string): Option<Date> {
    if |s| != 8 || !AllDigits(s) then None
    else
      var d := DateParts(Value(s[..4]), Value(s[4..6]), Value(s[6..]));
      if OnCalendar(d) then Some(d) else None
  }

  /** The last two dashes separate prefix, date and sequence. */
  function Parse(s: string): Option<(string, Date, nat)> {
    match SplitLast(s)
    case None => None
    case Some((head, tail)) =>
      if !AllDigits(tail) || Padded(Value(tail), 4) != tail then None
      else
        match SplitLast(head)
        case None => None
        case Some((prefix, day)) =>
          var date := ParseDate(day);
          if date.None? then None else Some((prefix, date.value, Value(tail)))
  }

  lemma PaddedWidth(n: nat)
    ensures n < 100 ==> |Padded(n, 2)| == 2
    ensures n < 10000 ==> |Padded(n, 4)| == 4
  {
    if n < 10000 {
      LongerWhenLarger(n, 9999);
      assert |Digits(9999)| == |Digits(999)| + 1 == |Digits(99)| + 2 == 4;
    }
    if n < 100 {
      LongerWhenLarger(n, 99);
    }
  }

  lemma DateRoundTrip(d: Date)
    ensures AllDigits(DateText(d)) && ParseDate(DateText(d)) == Some(d)
  {
    PaddedWidth(d.year);
    PaddedWidth(d.month);
    PaddedWidth(d.day);
    ValueOfPadded(d.year, 4);
    ValueOfPadded(d.month, 2);
    ValueOfPadded(d.day, 2);
    var s := DateText(d);
    assert s[..4] == Padded(d.year, 4) && s[4..6] == Padded(d.month, 2) && s[6..] == Padded(d.day, 2);
  }

  /** Every number parses back to what it was printed from, whatever dashes the prefix has and
      however long the sequence grew. */
  lemma ParseOfPrint(prefix: string, date: Date, n: nat)
    ensures Parse(Print(prefix, date, n)) == Some((prefix, date, n))
  {
    DateRoundTrip(date);
    ValueOfPadded(n, 4);
    SplitLastIs(prefix + "-" + DateText(date), Padded(n, 4));
    SplitLastIs(prefix, DateText(date));
  }

  lemma DateOfText(s: string)
    requires ParseDate(s).Some?
    ensures DateText(ParseDate(s).value) == s
  {
    assert s == s[..4] + s[4..6] + s[6..];
    PaddedOfValue(s[..4]);
    PaddedOfValue(s[4..6]);
    PaddedOfValue(s[6..]);
  }

  /** And nothing else parses: what parses is exactly what was printed. */
  lemma PrintOfParse(s: string)
    ensures match Parse(s)
            case None => true
            case Some((prefix, date, n)) => Print(prefix, date, n) == s
  {
    if Parse(s).Some? {
      var (head, tail) := SplitLast(s).value;
      SplitLastJoins(s);
      SplitLastJoins(head);
      DateOfText(SplitLast(head).value.1);
    }
  }

  /** So two printed numbers are the same only for the same prefix, day and sequence. */
  lemma PrintIsInjective(p: string, d: Date, n: nat, p1: string, d1: Date, n1: nat)
    requires Print(p, d, n) == Print(p1, d1, n1)
    ensures p == p1 && d == d1 && n == n1
  {
    ParseOfPrint(p, d, n);
    ParseOfPrint(p1, d1, n1);
  }

  // ---- The counters ----

  datatype Counter = Counter(docType: string, date: Date)

  /** The width of the `doc_type` column. */
  const WIDTH := 50

  predicate Fits(g: Generator) {
    |DocType(g)| <= WIDTH
  }

  /** The committed state after one call and what the call returned. */
  function Issue(counters: map<Counter, nat>, g: Generator, today: Date): (map<Counter, nat>, Result<string>) {
    if !Fits(g) then (counters, Err(Integrity))
    else
      var c := Counter(DocType(g), today);
      var n := At(counters, c) + 1;
      (counters[c := n], Ok(Print(Prefix(g), today, n)))
  }

  class Sequences {
    var lastNumber: map<Counter, nat>

    constructor ()
      ensures lastNumber == map[]
    {
      lastNumber := map[];
    }

    /** Insert 1 or add 1, and return the new number. */
    method NextSequence(docType: string, date: Date) returns (n: nat)
      modifies this
      ensures n == At(old(lastNumber), Counter(docType, date)) + 1
      ensures lastNumber == old(lastNumber)[Counter(docType, date) := n]
    {
      var c := Counter(docType, date);
      if c in lastNumber {
        lastNumber := lastNumber[c := lastNumber[c] + 1];
      } else {
        lastNumber := lastNumber[c := 1];
      }
      return lastNumber[c];
    }

    method Generate(g: Generator, today: Date) returns (r: Result<string>)
      modifies this
      ensures (lastNumber, r) == Issue(old(lastNumber), g, today)
    {
      if !Fits(g) {
        return Err(Integrity);
      }
      var n := NextSequence(DocType(g), today);
      return Ok(Print(Prefix(g), today, n));
    }
  }

  // ---- Runs ----

  datatype Call = Call(g: Generator, today: Date)

  function After(counters: map<Counter, nat>, calls: seq<Call>): map<Counter, nat> {
    if calls == [] then counters
    else
      var last := calls[|calls| - 1];
      Issue(After(counters, calls[..|calls| - 1]), last.g, last.today).0
  }

  /** What call `i` of the run returns. */
  function Returned(counters: map<Counter, nat>, calls: seq<Call>, i: nat): Result<string>
    requires i < |calls|
  {
    Issue(After(counters, calls[..i]), calls[i].g, calls[i].today).1
  }

  function Draws(c: Counter): Call -> int {
    (call: Call) => if Fits(call.g) && Counter(DocType(call.g), call.today) == c then 1 else 0
  }

  /** A counter has no gaps: it grew by the calls that drew from it. */
  lemma {:induction false} CountersCount(counters: map<Counter, nat>, calls: seq<Call>, c: Counter)
    ensures At(After(counters, calls), c) == At(counters, c) + Sum(calls, Draws(c))
  {
    if calls != [] {
      CountersCount(counters, calls[..|calls| - 1], c);
    }
  }

  lemma CounterGrows(counters: map<Counter, nat>, calls: seq<Call>, i: nat, k: nat, c: Counter)
    requires i < k <= |calls| && Draws(c)(calls[i]) == 1
    ensures At(After(counters, calls[..i]), c) < At(After(counters, calls[..k]), c)
  {
    CountersCount(counters, calls[..i], c);
    CountersCount(counters, calls[..k], c);
    SumPasses(calls, i, k, Draws(c));
  }

  /** Order numbers of all branches go to one table, the others to one table each. */
  predicate SameTable(a: Generator, b: Generator) {
    (a.OrderNumber? && b.OrderNumber?) || a == b
  }

  function OwnCounter(call: Call): Counter {
    Counter(DocType(call.g), call.today)
  }

  /** The sequence number call `i` of the run draws. */
  function Drawn(counters: map<Counter, nat>, calls: seq<Call>, i: nat): nat
    requires i < |calls|
  {
    At(After(counters, calls[..i]), OwnCounter(calls[i])) + 1
  }

  lemma ReturnedIs(counters: map<Counter, nat>, calls: seq<Call>, i: nat)
    requires i < |calls| && Fits(calls[i].g)
    ensures Returned(counters, calls, i) == Ok(Print(Prefix(calls[i].g), calls[i].today, Drawn(counters, calls, i)))
  {
  }

  /** Later calls on the same counter draw larger numbers. */
  lemma DrawnGrows(counters: map<Counter, nat>, calls: seq<Call>, i: nat, k: nat)
    requires i < k < |calls| && Fits(calls[i].g) && OwnCounter(calls[i]) == OwnCounter(calls[k])
    ensures Drawn(counters, calls, i) < Drawn(counters, calls, k)
  {
    DrawsFromOwn(calls[i]);
    CounterGrows(counters, calls, i, k, OwnCounter(calls[i]));
  }

  lemma DrawsFromOwn(call: Call)
    requires Fits(call.g)
    ensures Draws(OwnCounter(call))(call) == 1
  {
  }

  /** Within one table the prefix determines the counter. */
  lemma PrefixDecidesType(a: Generator, b: Generator)
    requires SameTable(a, b) && Prefix(a) == Prefix(b)
    ensures DocType(a) == DocType(b)
  {
  }

  function Same(call: Call): Call -> int {
    (other: Call) => if other == call then 1 else 0
  }

  lemma SeriesAreApart(a: Generator, b: Generator)
    ensures DocType(a) == DocType(b) <==> a == b
  {
    var p, q := DocType(a), DocType(b);
    if a.OrderNumber? && b.OrderNumber? {
      assert a.code == p[4..] && b.code == q[4..];
    } else if a != b {
      assert p[0] != q[0] || p[1] != q[1] || p[|p| - 1] != q[|q| - 1];
    }
  }

  lemma DrawnCounts(calls: seq<Call>, i: nat)
    requires i < |calls| && Fits(calls[i].g)
    ensures Drawn(map[], calls, i) == 1 + Sum(calls[..i], Same(calls[i]))
  {
    var call, earlier := calls[i], calls[..i];
    CountersCount(map[], earlier, OwnCounter(call));
    forall k | 0 <= k < |earlier| ensures Draws(OwnCounter(call))(earlier[k]) == Same(call)(earlier[k]) {
      SeriesAreApart(earlier[k].g, call.g);
    }
    SumAgree(earlier, Draws(OwnCounter(call)), Same(call));
  }

  /** A number says which document it is: the one after as many as its generator has printed
      that day. */
  lemma NumbersCountTheirDocuments(calls: seq<Call>, i: nat)
    requires i < |calls| && Fits(calls[i].g)
    ensures Returned(map[], calls, i).Ok?
    ensures match Parse(Returned(map[], calls, i).value)
            case None => false
            case Some((prefix, date, n)) =>
              prefix == Prefix(calls[i].g) && date == calls[i].today && n == 1 + Sum(calls[..i], Same(calls[i]))
  {
    DrawnCounts(calls, i);
    ReturnedIs(map[], calls, i);
    ParseOfPrint(Prefix(calls[i].g), calls[i].today, Drawn(map[], calls, i));
  }

  lemma PrintsDiffer(a: Call, b: Call, m: nat, n: nat)
    requires SameTable(a.g, b.g) && (OwnCounter(a) == OwnCounter(b) ==> m != n)
    ensures Print(Prefix(a.g), a.today, m) != Print(Prefix(b.g), b.today, n)
  {
    if Print(Prefix(a.g), a.today, m) == Print(Prefix(b.g), b.today, n) {
      PrintIsInjective(Prefix(a.g), a.today, m, Prefix(b.g), b.today, n);
      PrefixDecidesType(a.g, b.g);
    }
  }

  /** In any run, on any branch codes and days and from any counters, no table is given the
      same number twice. */
  lemma NumbersNeverRepeat(counters: map<Counter, nat>, calls: seq<Call>, i: nat, k: nat)
    requires i < k < |calls| && SameTable(calls[i].g, calls[k].g)
    requires Fits(calls[i].g) && Fits(calls[k].g)
    ensures Returned(counters, calls, i).Ok? && Returned(counters, calls, k).Ok?
    ensures Returned(counters, calls, i) != Returned(counters, calls, k)
  {
    ReturnedIs(counters, calls, i);
    ReturnedIs(counters, calls, k);
    if OwnCounter(calls[i]) == OwnCounter(calls[k]) {
      DrawnGrows(counters, calls, i, k);
    }
    PrintsDiffer(calls[i], calls[k], Drawn(counters, calls, i), Drawn(counters, calls, k));
  }

  /** Across tables numbers do meet: a branch coded like a document prefix prints the same
      numbers, and nothing else does. */
  lemma NumbersMeetAcrossTablesExactly(a: Generator, b: Generator, today: Date, day: Date, m: nat, n: nat)
    requires !SameTable(a, b)
    ensures Print(Prefix(a), today, m) == Print(Prefix(b), day, n) <==>
              today == day && m == n
                  && ((a.OrderNumber? && a.code == Prefix(b)) || (b.OrderNumber? && b.code == Prefix(a)))
  {
    if Print(Prefix(a), today, m) == Print(Prefix(b), day, n) {
      PrintIsInjective(Prefix(a), today, m, Prefix(b), day, n);
      if !a.OrderNumber? && !b.OrderNumber? {
        PrefixesDiffer(a, b);
      }
    }
  }

  lemma PrefixesDiffer(a: Generator, b: Generator)
    requires a != b && !a.OrderNumber? && !b.OrderNumber?
    ensures Prefix(a) != Prefix(b)
  {
    var p, q := Prefix(a), Prefix(b);
    var first, second, last := p[0], p[1], p[|p| - 1];
    assert first != q[0] || second != q[1] || last != q[|q| - 1];
  }
}
