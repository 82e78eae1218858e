/** Printing numbers in decimal, and reading them back. */
module Decimal {
  import opened Basics

  predicate IsDigit(c: char) {
    '0' <= c <= '9'
  }

  predicate AllDigits(s: string) {
    forall i :: 0 <= i < |s| ==> IsDigit(s[i])
  }

  function Digit(d: nat): (c: char)
    requires d < 10
    ensures IsDigit(c)
  {
    ('0' as int + d) as char
  }

  /** `str(n)` */
  function Digits(n: nat): (s: string)
    ensures AllDigits(s) && s != ""
  {
    if n < 10 then [Digit(n)] else Digits(n / 10) + [Digit(n % 10)]
  }

  function Value(s: string): nat
    requires AllDigits(s)
  {
    if s == "" then 0
    else
      var last := s[|s| - 1];
      10 * Value(s[..|s| - 1]) + (last as int - '0' as int)
  }

  lemma {:induction false} ValueOfDigits(n: nat)
    ensures Value(Digits(n)) == n
  {
    var s := Digits(n);
    if n < 10 {
      assert s[..|s| - 1] == "";
    } else {
      assert s[..|s| - 1] == Digits(n / 10);
      ValueOfDigits(n / 10);
    }
  }

  lemma {:induction false} LongerWhenLarger(a: nat, b: nat)
    requires a <= b
    ensures |Digits(a)| <= |Digits(b)|
  {
    if a >= 10 {
      LongerWhenLarger(a / 10, b / 10);
    }
  }

  function Zeros(n: nat): (s: string)
    ensures |s| == n && AllDigits(s)
  {
    seq(n, _ => '0')
  }

  /** `f"{n:0{width}d}"`: zeros on the left up to the width, and all digits beyond it. */
  function Padded(n: nat, width: nat): (s: string)
    ensures AllDigits(s) && |s| >= width
  {
    var s := Digits(n);
    if |s| >= width then s else Zeros(width - |s|) + s
  }

  lemma {:induction false} LeadingZeros(k: nat, s: string)
    requires AllDigits(s)
    ensures Value(Zeros(k) + s) == Value(s)
  {
    var all := Zeros(k) + s;
    if s != "" {
      assert all[..|all| - 1] == Zeros(k) + s[..|s| - 1];
      LeadingZeros(k, s[..|s| - 1]);
    } else if k > 0 {
      assert all[..|all| - 1] == Zeros(k - 1) + s;
      LeadingZeros(k - 1, s);
    }
  }

  lemma ValueOfPadded(n: nat, width: nat)
    ensures Value(Padded(n, width)) == n
  {
    ValueOfDigits(n);
    if |Digits(n)| < width {
      LeadingZeros(width - |Digits(n)|, Digits(n));
    }
  }

  lemma PaddedStep(v: nat, d: nat, width: nat)
    requires d < 10 && width > 0
    ensures Padded(10 * v + d, width + 1) == Padded(v, width) + [Digit(d)]
  {
    if v == 0 {
      assert Zeros(width) == Zeros(width - 1) + Digits(0);
    }
  }

  /** Padding to its own length reproduces any string of digits. */
  lemma {:induction false} PaddedOfValue(s: string)
    requires AllDigits(s) && s != ""
    ensures Padded(Value(s), |s|) == s
  {
    var front, d := s[..|s| - 1], s[|s| - 1] as int - '0' as int;
    assert s == front + [Digit(d)];
    if front == "" {
      assert Value(s) == d;
    } else {
      PaddedOfValue(front);
      PaddedStep(Value(front), d, |front|);
    }
  }

  /** What stands before and after the last dash. */
  function SplitLast(s: string): Option<(string, string)> {
    if s == "" then None
    else if s[|s| - 1] == '-' then Some((s[..|s| - 1], ""))
    else
      var r := SplitLast(s[..|s| - 1]);
      if r.None? then None else Some((r.value.0, r.value.1 + [s[|s| - 1]]))
  }

  lemma {:induction false} SplitLastJoins(s: string)
    ensures SplitLast(s).Some? ==> s == SplitLast(s).value.0 + "-" + SplitLast(s).value.1
  {
    if s != "" && s[|s| - 1] != '-' {
      SplitLastJoins(s[..|s| - 1]);
      assert s == s[..|s| - 1] + [s[|s| - 1]];
    }
  }

  lemma {:induction false} SplitLastIs(prefix: string, rest: string)
    requires forall i :: 0 <= i < |rest| ==> rest[i] != '-'
    ensures SplitLast(prefix + "-" + rest) == Some((prefix, rest))
  {
    var s := prefix + "-" + rest;
    if rest == "" {
      assert s[..|s| - 1] == prefix;
    } else {
      assert s[..|s| - 1] == prefix + "-" + rest[..|rest| - 1];
      SplitLastIs(prefix, rest[..|rest| - 1]);
      assert rest == rest[..|rest| - 1] + [rest[|rest| - 1]];
    }
  }

  /** Digits after a dash can be told from what comes before it. */
  lemma SplitAtDash(p: string, d: string, q: string, e: string)
    requires AllDigits(d) && AllDigits(e) && p + "-" + d == q + "-" + e
    ensures p == q && d == e
  {
    SplitLastIs(p, d);
    SplitLastIs(q, e);
  }
}
