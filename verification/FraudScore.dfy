/** Risk scoring of payment slips and the status `verify_slip` derives from it.
    Scores are in hundredths, money in cents. */
module FraudScore {
  import opened Basics
  import opened Sums

  datatype Signal =
    | VeryLowOcr | LowOcr | LowAmountConfidence | LowReferenceConfidence
    | AmountLower | AmountHigher | AmountMismatch
    | ReferenceMissing | ReferenceDuplicate | ImageDuplicate | ReceiverMismatch | SenderIsReceiver
    | OldTransaction | FutureTransaction | SenderMissing | ReceiverMissing | DateMissing
    | ManyFailures | RoundAmount

  function Score(s: Signal): int {
    match s
    case VeryLowOcr => 30
    case LowOcr => 15
    case LowAmountConfidence => 25
    case LowReferenceConfidence => 20
    case AmountLower => 60
    case AmountHigher => 25
    case AmountMismatch => 50
    case ReferenceMissing => 80
    case ReferenceDuplicate => 100
    case ImageDuplicate => 100
    case ReceiverMismatch => 70
    case SenderIsReceiver => 60
    case OldTransaction => 20
    case FutureTransaction => 40
    case SenderMissing => 30
    case ReceiverMissing => 30
    case DateMissing => 20
    case ManyFailures => 40
    case RoundAmount => 15
  }

  datatype Level = Trusted | Doubtful | Refused

  /** `day` counts days and `now` seconds from the same epoch. */
  datatype Evidence = Evidence(
    confidence: real, amountConfidence: real, referenceConfidence: real,
    amount: Option<int>, expected: Option<int>, reference: Option<string>,
    referenceDuplicate: bool, imageDuplicate: bool,
    sender: Option<string>, receiver: Option<string>, receiverMatches: bool,
    senderAccount: string, receiverAccount: string,
    day: Option<int>, now: int, failures: int)

  const SECONDS_PER_DAY := 86400

  /** `timedelta.days`, which rounds down. */
  function AgeInDays(e: Evidence): int
    requires e.day.Some?
  {
    (e.now - e.day.value * SECONDS_PER_DAY) / SECONDS_PER_DAY
  }

  function Shortfall(e: Evidence): int {
    if e.amount.Some? && e.expected.Some? then e.expected.value - e.amount.value else 0
  }

  /** When each signal is raised. */
  predicate Raised(s: Signal, e: Evidence) {
    match s
    case VeryLowOcr => e.confidence < 0.6
    case LowOcr => 0.6 <= e.confidence < 0.8
    case LowAmountConfidence => e.amountConfidence < 0.9
    case LowReferenceConfidence => e.referenceConfidence < 0.9
    case AmountLower => Shortfall(e) > 0 && 10 * Shortfall(e) > e.expected.value
    case AmountHigher => Shortfall(e) < 0
    case AmountMismatch => Shortfall(e) > 0 && 10 * Shortfall(e) <= e.expected.value
    case ReferenceMissing => e.reference.None?
    case ReferenceDuplicate => e.reference.Some? && e.referenceDuplicate
    case ImageDuplicate => e.imageDuplicate
    case ReceiverMismatch => !e.receiverMatches
    case SenderIsReceiver => e.senderAccount != "" && e.senderAccount == e.receiverAccount
    case OldTransaction => e.day.Some? && AgeInDays(e) > 7
    case FutureTransaction => e.day.Some? && AgeInDays(e) < 0
    case SenderMissing => e.sender.None?
    case ReceiverMissing => e.receiver.None?
    case DateMissing => e.day.None?
    case ManyFailures => e.failures >= 2
    case RoundAmount => e.amount.Some? && e.amount.value >= 1000000 && e.amount.value % 100000 == 0
  }

  function TotalScore(signals: seq<Signal>): int {
    Min(Sum(signals, Score), 100)
  }

  function LevelOf(total: int): Level {
    if total >= 50 then Refused else if total >= 20 then Doubtful else Trusted
  }

  function Rank(level: Level): int {
    match level
    case Trusted => 0
    case Doubtful => 1
    case Refused => 2
  }

  ghost predicate NoRepeats(signals: seq<Signal>) {
    forall i, k :: 0 <= i < k < |signals| ==> signals[i] != signals[k]
  }

  /** The order in which `assess` looks at the signals. */
  function Turn(s: Signal): nat {
    match s
    case VeryLowOcr => 0
    case LowOcr => 1
    case LowAmountConfidence => 2
    case LowReferenceConfidence => 3
    case AmountLower => 4
    case AmountHigher => 5
    case AmountMismatch => 6
    case ReferenceMissing => 7
    case ReferenceDuplicate => 8
    case ImageDuplicate => 9
    case ReceiverMismatch => 10
    case SenderIsReceiver => 11
    case OldTransaction => 12
    case FutureTransaction => 13
    case SenderMissing => 14
    case ReceiverMissing => 15
    case DateMissing => 16
    case ManyFailures => 17
    case RoundAmount => 18
  }

  function AtTurn(n: nat): Signal {
    match n
    case 0 => VeryLowOcr
    case 1 => LowOcr
    case 2 => LowAmountConfidence
    case 3 => LowReferenceConfidence
    case 4 => AmountLower
    case 5 => AmountHigher
    case 6 => AmountMismatch
    case 7 => ReferenceMissing
    case 8 => ReferenceDuplicate
    case 9 => ImageDuplicate
    case 10 => ReceiverMismatch
    case 11 => SenderIsReceiver
    case 12 => OldTransaction
    case 13 => FutureTransaction
    case 14 => SenderMissing
    case 15 => ReceiverMissing
    case 16 => DateMissing
    case 17 => ManyFailures
    case _ => RoundAmount
  }

  lemma AtTurnOf(s: Signal)
    ensures AtTurn(Turn(s)) == s && Turn(s) < 19
  {
  }

  /** The signals raised in the first `n` turns, in order. */
  function RaisedBefore(e: Evidence, n: nat): seq<Signal> {
    if n == 0 then []
    else RaisedBefore(e, n - 1) + if Raised(AtTurn(n - 1), e) then [AtTurn(n - 1)] else []
  }

  lemma {:induction false} RaisedBeforeIs(e: Evidence, n: nat)
    requires n <= 19
    ensures forall s :: s in RaisedBefore(e, n) <==> Turn(s) < n && Raised(s, e)
    ensures NoRepeats(RaisedBefore(e, n))
  {
    if n > 0 {
      RaisedBeforeIs(e, n - 1);
      assert Turn(AtTurn(n - 1)) == n - 1;
      forall s ensures Turn(s) == n - 1 ==> s == AtTurn(n - 1) {
        AtTurnOf(s);
      }
    }
  }

  /** `assess`: exactly the raised signals, each once, and their capped sum. */
  method Assess(e: Evidence) returns (signals: seq<Signal>, total: int, level: Level)
    ensures forall s :: s in signals <==> Raised(s, e)
    ensures NoRepeats(signals)
    ensures total == TotalScore(signals) && level == LevelOf(total)
  {
    signals, total := [], 0;
    for turn := 0 to 19
      invariant signals == RaisedBefore(e, turn) && total == Sum(signals, Score)
    {
      var s := AtTurn(turn);
      if Raised(s, e) {
        SumPush(signals, s, Score);
        signals, total := signals + [s], total + Score(s);
      } else {
        assert signals + [] == signals;
      }
    }
    RaisedBeforeIs(e, 19);
    forall s ensures Turn(s) < 19 {
      AtTurnOf(s);
    }
    total := Min(total, 100);
    level := LevelOf(total);
  }

  // ---- Properties of the score ----

  /** Raising more signals never lowers the score. */
  lemma {:induction false} MoreSignalsScoreHigher(a: seq<Signal>, b: seq<Signal>)
    requires multiset(a) <= multiset(b)
    ensures Sum(a, Score) <= Sum(b, Score)
    decreases |a|
  {
    if a == [] {
      SumNonNegative(b, Score);
    } else {
      var s := a[0];
      assert a == [s] + a[1..];
      assert s in multiset(a);
      assert s in b;
      var i :| 0 <= i < |b| && b[i] == s;
      var rest := b[..i] + b[i + 1..];
      assert b == b[..i] + ([s] + b[i + 1..]);
      assert multiset(b) == multiset(rest) + multiset{s};
      assert multiset(a) == multiset([s]) + multiset(a[1..]);
      forall x ensures multiset(a[1..])[x] <= multiset(rest)[x] {
        assert multiset(a)[x] <= multiset(b)[x];
      }
      MoreSignalsScoreHigher(a[1..], rest);
      SumFirst(a, Score);
      SumConcat(b[..i], [s] + b[i + 1..], Score);
      SumFirst([s] + b[i + 1..], Score);
      SumConcat(b[..i], b[i + 1..], Score);
    }
  }

  /** So the level is monotone in the raised signals, and the score stays within 0..1. */
  lemma LevelIsMonotone(a: seq<Signal>, b: seq<Signal>)
    requires multiset(a) <= multiset(b)
    ensures Rank(LevelOf(TotalScore(a))) <= Rank(LevelOf(TotalScore(b)))
    ensures 0 <= TotalScore(a) <= TotalScore(b) <= 100
  {
    MoreSignalsScoreHigher(a, b);
    SumNonNegative(a, Score);
  }

  /** A slip is trusted exactly when nothing was raised, or only one of the two mild signals. */
  lemma TrustedExactly(signals: seq<Signal>)
    ensures LevelOf(TotalScore(signals)) == Trusted
        <==> signals == [] || signals == [LowOcr] || signals == [RoundAmount]
  {
    if |signals| == 1 {
      assert signals == [] + [signals[0]];
      SumPush([], signals[0], Score);
    } else if |signals| >= 2 {
      SumFirst(signals, Score);
      SumFirst(signals[1..], Score);
      SumNonNegative(signals[1..][1..], Score);
      assert Score(signals[0]) >= 15 && Score(signals[1..][0]) >= 15;
    }
  }

  // ---- The decision of verify_slip ----

  datatype SlipStatus =
    | SlipPending | SlipReview | SlipVerified | SlipRejected
    | SlipAmountMismatch | SlipDuplicateReference | SlipDuplicateImage | SlipOcrFailed

  /** The parsed fields of a slip; a field that was not found has confidence 0. */
  datatype Parsed = Parsed(
    confidence: real, amount: Option<int>, amountConfidence: real,
    reference: Option<string>, referenceConfidence: real,
    sender: Option<string>, receiver: Option<string>, senderAccount: string, receiverAccount: string,
    day: Option<int>, hasTime: bool)

  function EvidenceOf(p: Parsed, grandTotal: int, referenceDuplicate: bool, failures: int, now: int): Evidence {
    Evidence(p.confidence,
             if p.amount.Some? then p.amountConfidence else 0.0,
             if p.reference.Some? then p.referenceConfidence else 0.0,
             p.amount, Some(grandTotal), p.reference, referenceDuplicate, false,
             p.sender, p.receiver, true, p.senderAccount, p.receiverAccount, p.day, now, failures)
  }

  function FromLevel(level: Level): SlipStatus {
    match level
    case Trusted => SlipVerified
    case Doubtful => SlipReview
    case Refused => SlipRejected
  }

  function FinalStatus(level: Level, p: Parsed, grandTotal: int, referenceDuplicate: bool): SlipStatus {
    if referenceDuplicate then SlipDuplicateReference
    else if p.amount.Some? && grandTotal > 0 && p.amount.value != grandTotal then SlipAmountMismatch
    else FromLevel(level)
  }

  /** The decision, by signals that are exactly the raised ones.  With both a date and a time
      the date-time arithmetic in `assess` is handed a datetime for a time and raises. */
  ghost predicate Decides(p: Parsed, grandTotal: int, referenceDuplicate: bool, failures: int, now: int,
      r: Result<SlipStatus>) {
    if p.day.Some? && p.hasTime then r == Err(Crash)
    else
      exists signals ::
        && NoRepeats(signals)
        && (forall s :: s in signals <==> Raised(s, EvidenceOf(p, grandTotal, referenceDuplicate, failures, now)))
        && r == Ok(FinalStatus(LevelOf(TotalScore(signals)), p, grandTotal, referenceDuplicate))
  }

  method Decide(p: Parsed, grandTotal: int, referenceDuplicate: bool, failures: int, now: int)
      returns (r: Result<SlipStatus>)
    ensures Decides(p, grandTotal, referenceDuplicate, failures, now, r)
  {
    if p.day.Some? && p.hasTime {
      return Err(Crash);
    }
    var signals, total, level := Assess(EvidenceOf(p, grandTotal, referenceDuplicate, failures, now));
    return Ok(FinalStatus(level, p, grandTotal, referenceDuplicate));
  }

  /** A trusted slip raised nothing but, perhaps, one of the two mild signals. */
  lemma TrustedRaisesOnly(e: Evidence, signals: seq<Signal>, s: Signal)
    requires s in signals <==> Raised(s, e)
    requires LevelOf(TotalScore(signals)) == Trusted
    requires s != LowOcr && s != RoundAmount
    ensures !Raised(s, e)
  {
    TrustedExactly(signals);
  }

  lemma OnlyTrustVerifies(level: Level, p: Parsed, grandTotal: int, referenceDuplicate: bool)
    requires FinalStatus(level, p, grandTotal, referenceDuplicate) == SlipVerified
    ensures level == Trusted && !referenceDuplicate
  {
    match level
    case Trusted => case Doubtful => case Refused =>
  }

  lemma VerifiedRaisesOnly(p: Parsed, grandTotal: int, referenceDuplicate: bool, failures: int, now: int, s: Signal)
    requires Decides(p, grandTotal, referenceDuplicate, failures, now, Ok(SlipVerified))
    requires s != LowOcr && s != RoundAmount
    ensures !Raised(s, EvidenceOf(p, grandTotal, referenceDuplicate, failures, now)) && !referenceDuplicate
  {
    var e := EvidenceOf(p, grandTotal, referenceDuplicate, failures, now);
    var signals :|
      && (forall s :: s in signals <==> Raised(s, e))
      && SlipVerified == FinalStatus(LevelOf(TotalScore(signals)), p, grandTotal, referenceDuplicate);
    OnlyTrustVerifies(LevelOf(TotalScore(signals)), p, grandTotal, referenceDuplicate);
    TrustedRaisesOnly(e, signals, s);
  }

  /** A verified slip has amount, reference, sender, receiver and date, its amount is the order
      total, and its reference was not found elsewhere. */
  lemma VerifiedMeansComplete(p: Parsed, grandTotal: int, referenceDuplicate: bool, failures: int, now: int)
    requires Decides(p, grandTotal, referenceDuplicate, failures, now, Ok(SlipVerified))
    ensures p.amount == Some(grandTotal) && p.reference.Some? && !referenceDuplicate
    ensures p.sender.Some? && p.receiver.Some? && p.day.Some? && !p.hasTime
    ensures failures < 2 && p.confidence >= 0.6
  {
    VerifiedRaisesOnly(p, grandTotal, referenceDuplicate, failures, now, LowAmountConfidence);
    VerifiedRaisesOnly(p, grandTotal, referenceDuplicate, failures, now, ReferenceMissing);
    VerifiedRaisesOnly(p, grandTotal, referenceDuplicate, failures, now, SenderMissing);
    VerifiedRaisesOnly(p, grandTotal, referenceDuplicate, failures, now, ReceiverMissing);
    VerifiedRaisesOnly(p, grandTotal, referenceDuplicate, failures, now, DateMissing);
    VerifiedRaisesOnly(p, grandTotal, referenceDuplicate, failures, now, AmountLower);
    VerifiedRaisesOnly(p, grandTotal, referenceDuplicate, failures, now, AmountHigher);
    VerifiedRaisesOnly(p, grandTotal, referenceDuplicate, failures, now, AmountMismatch);
    VerifiedRaisesOnly(p, grandTotal, referenceDuplicate, failures, now, ManyFailures);
    VerifiedRaisesOnly(p, grandTotal, referenceDuplicate, failures, now, VeryLowOcr);
  }

  // ---- The reference lookup ----

  /** A verification row as the lookup sees it. */
  datatype Row = Row(reference: Option<string>, rejected: bool)

  function Matching(reference: string): Row -> int {
    (row: Row) => if row.reference == Some(reference) && !row.rejected then 1 else 0
  }

  /** `scalar_one_or_none` on the rows with this reference: more than one row raises. */
  function LookUp(rows: seq<Row>, reference: Option<string>): Result<bool> {
    if reference.None? then Ok(false)
    else
      var n := Sum(rows, Matching(reference.value));
      if n > 1 then Err(Crash) else Ok(n == 1)
  }

  /** `verify_slip` inserts its own row before the lookup, so a slip that has a reference finds
      itself: whatever the table holds, no slip ends `verified`. */
  lemma OwnRowIsFound(rows: seq<Row>, p: Parsed, grandTotal: int, failures: int, now: int)
    ensures var found := LookUp(rows + [Row(p.reference, false)], p.reference);
      found.Ok? ==> !Decides(p, grandTotal, found.value, failures, now, Ok(SlipVerified))
  {
    var found := LookUp(rows + [Row(p.reference, false)], p.reference);
    if found.Ok? && Decides(p, grandTotal, found.value, failures, now, Ok(SlipVerified)) {
      VerifiedMeansComplete(p, grandTotal, found.value, failures, now);
      SumPush(rows, Row(p.reference, false), Matching(p.reference.value));
      SumNonNegative(rows, Matching(p.reference.value));
    }
  }

  // ---- What the signals mean ----

  /** What each signal comes to when it is the only one. */
  lemma LoneSignalLevel(s: Signal)
    ensures LevelOf(TotalScore([s])) == Trusted <==> s in {LowOcr, RoundAmount}
    ensures LevelOf(TotalScore([s])) == Refused <==>
              s in {AmountLower, AmountMismatch, ReferenceMissing, ReferenceDuplicate, ImageDuplicate, ReceiverMismatch,
                    SenderIsReceiver}
  {
    assert [s] == [] + [s];
    SumPush([], s, Score);
  }

  /** One amount signal is raised, and only one, exactly when the slip shows another amount than
      the order's total. */
  lemma AmountSignals(e: Evidence)
    requires e.amount.Some? && e.expected.Some?
    ensures e.amount != e.expected <==> Raised(AmountLower, e) || Raised(AmountHigher, e) || Raised(AmountMismatch, e)
    ensures !(Raised(AmountLower, e) && Raised(AmountMismatch, e))
    ensures Raised(AmountHigher, e) <==> e.amount.value > e.expected.value
    ensures Raised(AmountLower, e) ==> 10 * e.amount.value < 9 * e.expected.value
  {
  }

  /** A transfer is old from the eighth day after its own on, and in the future before its day. */
  lemma TransactionAge(e: Evidence)
    requires e.day.Some?
    ensures Raised(OldTransaction, e) <==> e.now >= (e.day.value + 8) * SECONDS_PER_DAY
    ensures Raised(FutureTransaction, e) <==> e.now < e.day.value * SECONDS_PER_DAY
  {
  }
}
