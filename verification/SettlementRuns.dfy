/** Runs of the settlement services, and the invariant they keep. */
module SettlementRuns {
  import opened Basics
  import opened Sums
  import opened RunningLedger
  import opened OrderWorkflow
  import opened FraudScore
  import opened Settlement

  datatype Step =
    | CheckOut(org: nat, id: nat, redeem: nat, amounts: seq<int>, keyed: bool)
    | TakePayment(org: nat, id: nat, amount: int)
    | GiveRefund(org: nat, id: nat, amount: int)
    | Submit(org: nat, id: nat, read: Option<int>, reference: Option<string>, outcome: SlipStatus)
    | Reject(org: nat, id: nat)
    | Approve(org: nat, id: nat)
    | Complete(org: nat, id: nat)
    | Advance(org: nat, id: nat, target: Status)
    | CallOff(org: nat, id: nat)
    | Open(org: nat, customer: Option<nat>, grandTotal: int)
    | Earn(org: nat, id: nat, points: Quantity)
    | Spend(org: nat, id: nat, points: Quantity)
    | Enrol(org: nat)
    | Retire(id: nat)

  function Apply(t: Till, step: Step): Result<Till> {
    match step
    case CheckOut(org, id, redeem, amounts, keyed) => Checkout(t, org, id, redeem, amounts, keyed)
    case TakePayment(org, id, amount) => CreatePayment(t, org, id, amount)
    case GiveRefund(org, id, amount) => ProcessRefund(t, org, id, amount)
    case Submit(org, id, read, reference, outcome) => SubmitSlip(t, org, id, read, reference, outcome)
    case Reject(org, id) => RejectSlip(t, org, id)
    case Approve(org, id) => ApproveSlip(t, org, id)
    case Complete(org, id) => CompleteBill(t, org, id)
    case Advance(org, id, target) => UpdateStatus(t, org, id, target)
    case CallOff(org, id) => CancelBill(t, org, id)
    case Open(org, customer, grandTotal) => OpenBill(t, org, customer, grandTotal)
    case Earn(org, id, points) => EarnPoints(t, org, id, points)
    case Spend(org, id, points) => RedeemPoints(t, org, id, points)
    case Enrol(org) => Ok(t.(customers := t.customers + [Customer(org, false, 0)]))
    case Retire(id) =>
      if id < |t.customers| then Ok(t.(customers := t.customers[id := t.customers[id].(deleted := true)]))
          else Err(NotFound)
  }

  function Next(t: Till, step: Step): Till {
    var r := Apply(t, step);
    if r.Ok? then r.value else t
  }

  function Run(t: Till, steps: seq<Step>): Till
    decreases |steps|
  {
    if steps == [] then t else Run(Next(t, steps[0]), steps[1..])
  }

  lemma RunOne(t: Till, step: Step, rest: seq<Step>)
    ensures Run(t, [step] + rest) == Run(Next(t, step), rest)
  {
    assert ([step] + rest)[1..] == rest;
  }

  lemma RunThree(t: Till, a: Step, b: Step, c: Step, rest: seq<Step>)
    ensures Run(t, [a, b, c] + rest) == Run(Next(Next(Next(t, a), b), c), rest)
  {
    assert [a, b, c] + rest == [a] + ([b] + ([c] + rest));
    RunOne(t, a, [b] + ([c] + rest));
    RunOne(Next(t, a), b, [c] + rest);
    RunOne(Next(Next(t, a), b), c, rest);
  }

  const EMPTY := Till([], [], [], [], [], [])

  // ---- The invariant ----

  ghost predicate BalancesOk(t: Till) {
    forall c :: 0 <= c < |t.customers| ==> 0 <= t.customers[c].points == Balance(t.points, c)
  }

  predicate EntriesOk(t: Till) {
    forall e :: e in t.points ==> e.key < |t.customers| && e.counts
  }

  /** Every customer's balance is the sum of the customer's transactions, which chain. */
  ghost predicate PointsOk(t: Till) {
    BalancesOk(t) && EntriesOk(t) && Chained(t.points) && NonNegative(t.points)
  }

  predicate BillRefsOk(t: Till) {
    forall b :: b in t.bills && b.customer.Some? ==> b.customer.value < |t.customers|
  }

  /** A slip's payment is a payment of its order, over the slip's amount. */
  predicate SlipOk(t: Till, v: nat)
    requires v < |t.slips|
  {
    var slip := t.slips[v];
    slip.order < |t.bills|
    && (slip.payment.Some? ==>
          slip.payment.value < |t.payments|
          && t.payments[slip.payment.value] == Payment(slip.order, SlipAmount(slip, t.bills[slip.order])))
  }

  ghost predicate SlipsOk(t: Till) {
    && (forall v :: 0 <= v < |t.slips| ==> SlipOk(t, v))
    && (forall u, v :: 0 <= u < v < |t.slips| && t.slips[u].payment.Some? ==> t.slips[u].payment != t.slips[v].payment)
    && (forall p :: p in t.payments ==> p.amount > 0)
    && (forall r :: r in t.refunds ==> r.amount > 0 && r.order < |t.bills|)
    && (forall p :: p in t.payments ==> p.order < |t.bills|)
  }

  /** Counts the transactions that earned points for an order, by checkout or by a slip. */
  function EarnsFor(slips: seq<Slip>, order: nat): PointsEntry -> int {
    (e: PointsEntry) =>
      match e.info
      case EarnedAtCheckout(o) => if o == order then 1 else 0
      case EarnedBySlip(v) => if v < |slips| && slips[v].order == order then 1 else 0
      case _ => 0
  }

  function EarnCount(t: Till, order: nat): int {
    Sum(t.points, EarnsFor(t.slips, order))
  }

  ghost predicate EarnOk(t: Till, i: nat)
    requires i < |t.bills|
  {
    var bill := t.bills[i];
    && bill.earned >= 0
    && EarnCount(t, i) == (if bill.earned > 0 then 1 else 0)
    && (bill.earned > 0 ==> Settled(bill.status))
  }

  predicate OccasionKnown(t: Till, e: PointsEntry) {
    match e.info
    case EarnedAtCheckout(o) => o < |t.bills|
    case EarnedBySlip(v) => v < |t.slips|
    case _ => true
  }

  ghost predicate EarnsOk(t: Till) {
    && (forall e :: e in t.points ==> OccasionKnown(t, e))
    && (forall i :: 0 <= i < |t.bills| ==> EarnOk(t, i))
  }

  ghost predicate Inv(t: Till) {
    PointsOk(t) && BillRefsOk(t) && SlipsOk(t) && EarnsOk(t)
  }

  // ---- Points ----

  lemma PostBalances(t: Till, c: nat, change: int, occasion: Occasion)
    requires BalancesOk(t) && c < |t.customers| && t.customers[c].points + change >= 0
    ensures BalancesOk(PostPoints(t, c, change, occasion))
  {
    var t1 := PostPoints(t, c, change, occasion);
    var e := t1.points[|t.points|];
    forall k | 0 <= k < |t1.customers| ensures 0 <= t1.customers[k].points == Balance(t1.points, k) {
      assert 0 <= t.customers[k].points == Balance(t.points, k);
      BalancePush(t.points, e, k);
    }
  }

  lemma PostLedger(es: seq<PointsEntry>, e: PointsEntry)
    requires Chained(es) && NonNegative(es)
    requires e.counts && e.before == Balance(es, e.key) && e.after == e.before + e.change && e.before >= 0
        && e.after >= 0
    ensures Chained(es + [e]) && NonNegative(es + [e])
  {
    ChainedPush(es, e);
  }

  lemma PostPointsOk(t: Till, c: nat, change: int, occasion: Occasion)
    requires PointsOk(t) && c < |t.customers| && t.customers[c].points + change >= 0
    ensures PointsOk(PostPoints(t, c, change, occasion))
  {
    var t1 := PostPoints(t, c, change, occasion);
    assert 0 <= t.customers[c].points == Balance(t.points, c);
    PostBalances(t, c, change, occasion);
    PostLedger(t.points, t1.points[|t.points|]);
  }

  /** Nothing but what it depends on matters to the points. */
  lemma PointsFrame(t: Till, t1: Till)
    requires PointsOk(t) && t1.points == t.points && |t1.customers| == |t.customers|
    requires forall c :: 0 <= c < |t.customers| ==> t1.customers[c].points == t.customers[c].points
    ensures PointsOk(t1)
  {
    forall c | 0 <= c < |t1.customers| ensures 0 <= t1.customers[c].points == Balance(t1.points, c) {
      assert 0 <= t.customers[c].points == Balance(t.points, c);
    }
  }

  // ---- Earning at most once ----

  /** Later tables that keep ids meaning what they meant. */
  predicate Extends(t: Till, t1: Till) {
    && |t.bills| <= |t1.bills| && |t.slips| <= |t1.slips|
    && (forall v :: 0 <= v < |t.slips| ==> t1.slips[v].order == t.slips[v].order)
  }

  lemma OccasionsKept(t: Till, t1: Till, n: nat)
    requires EarnsOk(t) && Extends(t, t1) && n == |t.points| <= |t1.points| && t1.points[..n] == t.points
    ensures forall i :: Sum(t1.points[..n], EarnsFor(t1.slips, i)) == EarnCount(t, i)
    ensures forall e :: e in t.points ==> OccasionKnown(t1, e)
  {
    forall i ensures Sum(t.points, EarnsFor(t1.slips, i)) == EarnCount(t, i) {
      forall k | 0 <= k < |t.points| ensures EarnsFor(t1.slips, i)(t.points[k]) == EarnsFor(t.slips, i)(t.points[k]) {
        assert t.points[k] in t.points && OccasionKnown(t, t.points[k]);
      }
      SumAgree(t.points, EarnsFor(t1.slips, i), EarnsFor(t.slips, i));
    }
  }

  /** A bill that neither earned nor left a settled status. */
  predicate BillKept(b: Bill, b1: Bill) {
    b1.earned == b.earned && (Settled(b.status) ==> Settled(b1.status))
  }

  /** The entries a step appends to the points ledger. */
  function Appended(t: Till, t1: Till): seq<PointsEntry>
    requires |t.points| <= |t1.points|
  {
    t1.points[|t.points|..]
  }

  predicate Earns(e: PointsEntry) {
    e.info.EarnedAtCheckout? || e.info.EarnedBySlip?
  }

  lemma CountAppended(t: Till, t1: Till, i: nat)
    requires EarnsOk(t) && Extends(t, t1) && |t.points| <= |t1.points| && t1.points[..|t.points|] == t.points
    ensures EarnCount(t1, i) == EarnCount(t, i) + Sum(Appended(t, t1), EarnsFor(t1.slips, i))
  {
    OccasionsKept(t, t1, |t.points|);
    SumConcat(t.points, Appended(t, t1), EarnsFor(t1.slips, i));
    assert t1.points == t.points + Appended(t, t1);
  }

  /** No order below the new ones had any entry; a new bill starts without earnings. */
  lemma NewBillCountsNothing(t: Till, t1: Till, i: nat)
    requires EarnsOk(t) && SlipsOk(t) && |t.bills| <= i
    ensures EarnCount(t, i) == 0
  {
    forall k | 0 <= k < |t.points| ensures EarnsFor(t.slips, i)(t.points[k]) == 0 {
      assert t.points[k] in t.points && OccasionKnown(t, t.points[k]);
      if t.points[k].info.EarnedBySlip? {
        assert SlipOk(t, t.points[k].info.slip);
      }
    }
    SumZero(t.points, EarnsFor(t.slips, i));
  }

  /** A step that appends no earning entry. */
  lemma EarnsFrame(t: Till, t1: Till)
    requires EarnsOk(t) && SlipsOk(t) && Extends(t, t1)
    requires |t.points| <= |t1.points| && t1.points[..|t.points|] == t.points
    requires forall e :: e in Appended(t, t1) ==> !Earns(e)
    requires forall i :: 0 <= i < |t.bills| ==> BillKept(t.bills[i], t1.bills[i])
    requires forall i :: |t.bills| <= i < |t1.bills| ==> t1.bills[i].earned == 0
    ensures EarnsOk(t1)
  {
    OccasionsKept(t, t1, |t.points|);
    assert t1.points == t.points + Appended(t, t1);
    forall i | 0 <= i < |t1.bills| ensures EarnOk(t1, i) {
      CountAppended(t, t1, i);
      var more := Appended(t, t1);
      forall k | 0 <= k < |more| ensures EarnsFor(t1.slips, i)(more[k]) == 0 {
        assert more[k] in more;
      }
      SumZero(more, EarnsFor(t1.slips, i));
      if i < |t.bills| {
        assert EarnOk(t, i);
      } else {
        NewBillCountsNothing(t, t1, i);
      }
    }
  }

  lemma QuietEntries(es: seq<PointsEntry>, slips: seq<Slip>, i: nat)
    requires forall k :: 0 <= k < |es| ==> !Earns(es[k])
    ensures Sum(es, EarnsFor(slips, i)) == 0
  {
    SumZero(es, EarnsFor(slips, i));
  }

  /** A step whose last appended entry is the only earning one, for an order without earnings
      that it settles. */
  lemma EarnsNow(t: Till, t1: Till, id: nat, e: PointsEntry)
    requires EarnsOk(t) && Extends(t, t1) && |t.bills| == |t1.bills| && id < |t.bills|
    requires |t.points| < |t1.points| && t1.points[..|t.points|] == t.points && t1.points[|t1.points| - 1] == e
    requires forall k :: |t.points| <= k < |t1.points| - 1 ==> !Earns(t1.points[k])
    requires e.info == EarnedAtCheckout(id)
        || (e.info.EarnedBySlip? && e.info.slip < |t1.slips| && t1.slips[e.info.slip].order == id)
    requires t.bills[id].earned == 0 && t1.bills[id].earned > 0 && Settled(t1.bills[id].status)
    requires forall i :: 0 <= i < |t.bills| && i != id ==> t1.bills[i] == t.bills[i]
    ensures EarnsOk(t1)
  {
    OccasionsKept(t, t1, |t.points|);
    forall i | 0 <= i < |t1.bills| ensures EarnOk(t1, i) {
      assert EarnOk(t, i);
      CountsOneMore(t, t1, id, e, i);
    }
    forall x | x in t1.points ensures OccasionKnown(t1, x) {
      if x !in t.points {
        var k :| |t.points| <= k < |t1.points| && t1.points[k] == x;
      }
    }
  }

  lemma CountsOneMore(t: Till, t1: Till, id: nat, e: PointsEntry, i: nat)
    requires EarnsOk(t) && Extends(t, t1)
    requires |t.points| < |t1.points| && t1.points[..|t.points|] == t.points && t1.points[|t1.points| - 1] == e
    requires forall k :: |t.points| <= k < |t1.points| - 1 ==> !Earns(t1.points[k])
    requires e.info == EarnedAtCheckout(id)
        || (e.info.EarnedBySlip? && e.info.slip < |t1.slips| && t1.slips[e.info.slip].order == id)
    ensures EarnCount(t1, i) == EarnCount(t, i) + if i == id then 1 else 0
  {
    var extra := Appended(t, t1);
    var quiet := extra[..|extra| - 1];
    assert extra == quiet + [e];
    CountAppended(t, t1, i);
    SumPush(quiet, e, EarnsFor(t1.slips, i));
    QuietEntries(quiet, t1.slips, i);
  }

  // ---- Steps ----

  lemma RedeemKeeps(t: Till, id: nat, redeem: nat)
    requires Inv(t) && id < |t.bills| && t.bills[id] in t.bills
    requires Redeem(t, id, redeem).Ok?
    ensures var t1 := Redeem(t, id, redeem).value.0;
      && Inv(t1) && t1.bills == t.bills && t1.slips == t.slips && t1.payments == t.payments && t1.refunds == t.refunds
      && |t1.customers| == |t.customers|
  {
    var (t1, redeemed) := Redeem(t, id, redeem).value;
    if redeem > 0 {
      PostPointsOk(t, t.bills[id].customer.value, 0 - redeemed, RedeemedAtCheckout(id));
      EarnsFrame(t, t1);
      forall v | 0 <= v < |t1.slips| ensures SlipOk(t1, v) {
        assert SlipOk(t, v);
      }
    }
  }

  lemma SettleKeepsPoints(t: Till, id: nat, redeem: nat, redeemed: int, amounts: seq<int>)
    requires PointsOk(t) && id < |t.bills|
    requires t.bills[id].customer.Some? ==> t.bills[id].customer.value < |t.customers|
    requires Settle(t, id, redeem, redeemed, amounts).Ok?
    ensures PointsOk(Settle(t, id, redeem, redeemed, amounts).value)
  {
    var t1 := Settle(t, id, redeem, redeemed, amounts).value;
    var bill := t.bills[id];
    var earned := EarnedOn(bill, redeemed);
    if earned > 0 {
      var c := bill.customer.value;
      assert 0 <= t.customers[c].points;
      PostPointsOk(t, c, earned, EarnedAtCheckout(id));
      PointsFrame(PostPoints(t, c, earned, EarnedAtCheckout(id)), t1);
    } else {
      PointsFrame(t, t1);
    }
  }

  lemma SettleKeepsEarns(t: Till, id: nat, redeem: nat, redeemed: int, amounts: seq<int>)
    requires EarnsOk(t) && SlipsOk(t) && id < |t.bills| && !Settled(t.bills[id].status)
    requires t.bills[id].customer.Some? ==> t.bills[id].customer.value < |t.customers|
    requires Settle(t, id, redeem, redeemed, amounts).Ok?
    ensures EarnsOk(Settle(t, id, redeem, redeemed, amounts).value)
  {
    var t1 := Settle(t, id, redeem, redeemed, amounts).value;
    assert EarnOk(t, id);
    if EarnedOn(t.bills[id], redeemed) > 0 {
      EarnsNow(t, t1, id, t1.points[|t.points|]);
    } else {
      EarnsFrame(t, t1);
    }
  }

  lemma SettleKeeps(t: Till, id: nat, redeem: nat, redeemed: int, amounts: seq<int>)
    requires Inv(t) && id < |t.bills| && t.bills[id] in t.bills && !Settled(t.bills[id].status)
    requires Settle(t, id, redeem, redeemed, amounts).Ok?
    ensures Inv(Settle(t, id, redeem, redeemed, amounts).value)
  {
    SettleKeepsPoints(t, id, redeem, redeemed, amounts);
    SettleKeepsEarns(t, id, redeem, redeemed, amounts);
    SettleKeepsTables(t, id, redeem, redeemed, amounts);
  }

  lemma SettleKeepsTables(t: Till, id: nat, redeem: nat, redeemed: int, amounts: seq<int>)
    requires SlipsOk(t) && BillRefsOk(t) && id < |t.bills| && t.bills[id] in t.bills
    requires Settle(t, id, redeem, redeemed, amounts).Ok?
    ensures SlipsOk(Settle(t, id, redeem, redeemed, amounts).value)
    ensures BillRefsOk(Settle(t, id, redeem, redeemed, amounts).value)
  {
    var t1 := Settle(t, id, redeem, redeemed, amounts).value;
    var rows := PaymentRows(id, amounts);
    forall i | 0 <= i < |rows| ensures rows[i].amount > 0 && rows[i].order < |t.bills| {
      assert amounts[i] in amounts;
    }
    assert t1.payments == t.payments + rows;
    PaymentsAppended(t, t1, rows);
  }

  /** More payments and a changed bill leave the slips right. */
  lemma PaymentsAppended(t: Till, t1: Till, more: seq<Payment>)
    requires SlipsOk(t) && t1.payments == t.payments + more && t1.slips == t.slips && t1.refunds == t.refunds
    requires |t1.bills| == |t.bills| && forall i :: 0 <= i < |t.bills| ==>
        t1.bills[i].grandTotal == t.bills[i].grandTotal
    requires forall p :: p in more ==> p.amount > 0 && p.order < |t.bills|
    ensures SlipsOk(t1)
  {
    forall v | 0 <= v < |t1.slips| ensures SlipOk(t1, v) {
      assert SlipOk(t, v);
    }
  }

  lemma CheckoutKeeps(t: Till, org: nat, id: nat, redeem: nat, amounts: seq<int>, keyed: bool)
    requires Inv(t) && Checkout(t, org, id, redeem, amounts, keyed).Ok?
    ensures Inv(Checkout(t, org, id, redeem, amounts, keyed).value)
  {
    assert t.bills[id] in t.bills;
    if Checkoutable(t.bills[id].status) {
      var (t1, redeemed) := Redeem(t, id, redeem).value;
      RedeemKeeps(t, id, redeem);
      SettleKeeps(t1, id, redeem, redeemed, amounts);
    }
  }

  lemma PayKeeps(t: Till, id: nat, amount: int)
    requires Inv(t) && id < |t.bills| && Pay(t, id, amount).Ok?
    ensures Inv(Pay(t, id, amount).value)
  {
    var t1 := Pay(t, id, amount).value;
    assert t.bills[id] in t.bills;
    PointsFrame(t, t1);
    EarnsFrame(t, t1);
    PaymentsAppended(t, t1, [Payment(id, amount)]);
  }

  /** A changed bill, keeping what matters, changes nothing else. */
  lemma BillChangeKeeps(t: Till, id: nat, bill: Bill)
    requires Inv(t) && id < |t.bills|
    requires BillKept(t.bills[id], bill) && bill.customer == t.bills[id].customer
        && bill.grandTotal == t.bills[id].grandTotal
    ensures Inv(WithBill(t, id, bill))
  {
    var t1 := WithBill(t, id, bill);
    assert t.bills[id] in t.bills;
    PointsFrame(t, t1);
    EarnsFrame(t, t1);
    assert t1.payments == t.payments + [];
    PaymentsAppended(t, t1, []);
  }

  lemma RefundKeeps(t: Till, org: nat, id: nat, amount: int)
    requires Inv(t) && ProcessRefund(t, org, id, amount).Ok?
    ensures Inv(ProcessRefund(t, org, id, amount).value)
  {
    var t1 := ProcessRefund(t, org, id, amount).value;
    var t0 := WithBill(t, id, t1.bills[id]);
    BillChangeKeeps(t, id, t1.bills[id]);
    PointsFrame(t0, t1);
    EarnsFrame(t0, t1);
    forall v | 0 <= v < |t1.slips| ensures SlipOk(t1, v) {
      assert SlipOk(t0, v);
    }
  }

  /** A new slip, with no payment or with the latest one. */
  lemma SlipAppended(t: Till, slip: Slip)
    requires Inv(t) && slip.order < |t.bills|
    requires slip.payment.Some? ==>
      slip.payment.value < |t.payments|
      && t.payments[slip.payment.value] == Payment(slip.order, SlipAmount(slip, t.bills[slip.order]))
      && forall v :: 0 <= v < |t.slips| ==> t.slips[v].payment != slip.payment
    ensures Inv(t.(slips := t.slips + [slip]))
  {
    var t1 := t.(slips := t.slips + [slip]);
    PointsFrame(t, t1);
    EarnsFrame(t, t1);
    forall v | 0 <= v < |t1.slips| ensures SlipOk(t1, v) {
      if v < |t.slips| {
        assert SlipOk(t, v);
      }
    }
  }

  lemma SubmitKeeps(t: Till, org: nat, order: nat, amount: Option<int>, reference: Option<string>, outcome: SlipStatus)
    requires Inv(t) && SubmitSlip(t, org, order, amount, reference, outcome).Ok?
    ensures Inv(SubmitSlip(t, org, order, amount, reference, outcome).value)
  {
    var t1 := SubmitSlip(t, org, order, amount, reference, outcome).value;
    if t1 != t {
      if outcome != SlipVerified {
        SlipAppended(t, Slip(order, outcome, amount, reference, None));
      } else {
        var paid := if amount.Some? then amount.value else t.bills[order].grandTotal;
        PayKeeps(t, order, paid);
        forall v | 0 <= v < |t.slips| ensures t.slips[v].payment != Some(|t.payments|) {
          assert SlipOk(t, v);
        }
        SlipAppended(Pay(t, order, paid).value, Slip(order, SlipVerified, amount, reference, Some(|t.payments|)));
      }
    }
  }

  lemma RejectKeeps(t: Till, org: nat, id: nat)
    requires Inv(t) && RejectSlip(t, org, id).Ok?
    ensures Inv(RejectSlip(t, org, id).value)
  {
    var t1 := RejectSlip(t, org, id).value;
    PointsFrame(t, t1);
    EarnsFrame(t, t1);
    forall v | 0 <= v < |t1.slips| ensures SlipOk(t1, v) {
      assert SlipOk(t, v);
    }
  }

  lemma ApprovedKeepsPoints(t: Till, id: nat)
    requires PointsOk(t) && id < |t.slips| && t.slips[id].order < |t.bills|
    requires var bill := t.bills[t.slips[id].order]; bill.customer.Some? ==> bill.customer.value < |t.customers|
    ensures PointsOk(Approved(t, id))
  {
    var bill := t.bills[t.slips[id].order];
    var points := ApprovalPoints(bill);
    if points > 0 {
      var c := bill.customer.value;
      assert 0 <= t.customers[c].points;
      PostPointsOk(t, c, points, EarnedBySlip(id));
      PointsFrame(PostPoints(t, c, points, EarnedBySlip(id)), Approved(t, id));
    } else {
      PointsFrame(t, Approved(t, id));
    }
  }

  lemma ApprovedKeepsEarns(t: Till, id: nat)
    requires EarnsOk(t) && SlipsOk(t) && id < |t.slips| && t.slips[id].order < |t.bills|
    requires var bill := t.bills[t.slips[id].order]; bill.customer.Some? ==> bill.customer.value < |t.customers|
    ensures EarnsOk(Approved(t, id))
  {
    var t1 := Approved(t, id);
    var order := t.slips[id].order;
    assert EarnOk(t, order);
    if ApprovalPoints(t.bills[order]) > 0 {
      EarnsNow(t, t1, order, t1.points[|t.points|]);
    } else {
      EarnsFrame(t, t1);
    }
  }

  lemma ApprovedKeepsSlips(t: Till, id: nat)
    requires SlipsOk(t) && BillRefsOk(t) && id < |t.slips| && t.slips[id].order < |t.bills|
    requires var bill := t.bills[t.slips[id].order]; bill.customer.Some? ==> bill.customer.value < |t.customers|
    requires t.slips[id].payment.None? ==> SlipAmount(t.slips[id], t.bills[t.slips[id].order]) > 0
    ensures SlipsOk(Approved(t, id)) && BillRefsOk(Approved(t, id))
  {
    var t1 := Approved(t, id);
    assert t.bills[t.slips[id].order] in t.bills;
    forall v | 0 <= v < |t1.slips|
      ensures SlipOk(t1, v) && t.slips[v].payment != Some(|t.payments|)
    {
      assert SlipOk(t, v);
    }
  }

  lemma ApproveKeeps(t: Till, org: nat, id: nat)
    requires Inv(t) && ApproveSlip(t, org, id).Ok?
    ensures Inv(ApproveSlip(t, org, id).value)
  {
    if !AlreadyApproved(t, id) {
      ApprovedKeepsPoints(t, id);
      ApprovedKeepsEarns(t, id);
      ApprovedKeepsSlips(t, id);
    }
  }

  lemma OpenKeeps(t: Till, org: nat, customer: Option<nat>, grandTotal: int)
    requires Inv(t) && OpenBill(t, org, customer, grandTotal).Ok?
    ensures Inv(OpenBill(t, org, customer, grandTotal).value)
  {
    var t1 := OpenBill(t, org, customer, grandTotal).value;
    PointsFrame(t, t1);
    EarnsFrame(t, t1);
    forall v | 0 <= v < |t1.slips| ensures SlipOk(t1, v) {
      assert SlipOk(t, v);
    }
  }

  /** Nothing but customers and points changed, and no entry earned for an order. */
  lemma CustomersChangeKeeps(t: Till, t1: Till)
    requires Inv(t) && PointsOk(t1)
    requires t1.bills == t.bills && t1.slips == t.slips && t1.payments == t.payments && t1.refunds == t.refunds
    requires |t.customers| <= |t1.customers| && |t.points| <= |t1.points| && t1.points[..|t.points|] == t.points
    requires forall e :: e in Appended(t, t1) ==> !Earns(e)
    ensures Inv(t1)
  {
    EarnsFrame(t, t1);
    forall v | 0 <= v < |t1.slips| ensures SlipOk(t1, v) {
      assert SlipOk(t, v);
    }
  }

  lemma ManualPointsKeep(t: Till, t1: Till, c: nat, change: int)
    requires Inv(t) && c < |t.customers| && t.customers[c].points + change >= 0
    requires t1 == PostPoints(t, c, change, Manual)
    ensures Inv(t1)
  {
    PostPointsOk(t, c, change, Manual);
    CustomersChangeKeeps(t, t1);
  }

  lemma EarnPointsKeeps(t: Till, org: nat, c: nat, points: Quantity)
    requires Inv(t) && EarnPoints(t, org, c, points).Ok?
    ensures Inv(EarnPoints(t, org, c, points).value)
  {
    assert 0 <= t.customers[c].points;
    ManualPointsKeep(t, EarnPoints(t, org, c, points).value, c, points);
  }

  lemma RedeemPointsKeeps(t: Till, org: nat, c: nat, points: Quantity)
    requires Inv(t) && RedeemPoints(t, org, c, points).Ok?
    ensures Inv(RedeemPoints(t, org, c, points).value)
  {
    ManualPointsKeep(t, RedeemPoints(t, org, c, points).value, c, 0 - points);
  }

  lemma RetireKeeps(t: Till, c: nat)
    requires Inv(t) && Apply(t, Retire(c)).Ok?
    ensures Inv(Apply(t, Retire(c)).value)
  {
    var t1 := Apply(t, Retire(c)).value;
    PointsFrame(t, t1);
    CustomersChangeKeeps(t, t1);
  }

  lemma EnrolKeeps(t: Till, org: nat)
    requires Inv(t)
    ensures Inv(t.(customers := t.customers + [Customer(org, false, 0)]))
  {
    EnrolKeepsPoints(t, org);
    CustomersChangeKeeps(t, t.(customers := t.customers + [Customer(org, false, 0)]));
  }

  lemma EnrolKeepsPoints(t: Till, org: nat)
    requires PointsOk(t)
    ensures PointsOk(t.(customers := t.customers + [Customer(org, false, 0)]))
  {
    var c := |t.customers|;
    forall k | 0 <= k < |t.points| ensures ChangeOf(c)(t.points[k]) == 0 {
      assert t.points[k] in t.points;
    }
    SumZero(t.points, ChangeOf<nat, Occasion>(c));
    forall i | 0 <= i < c ensures 0 <= t.customers[i].points == Balance(t.points, i) {
    }
  }

  lemma StatusStepKeeps(t: Till, step: Step)
    requires step.Complete? || step.Advance? || step.CallOff?
    requires Inv(t) && Apply(t, step).Ok?
    ensures Inv(Apply(t, step).value)
  {
    var bill := Apply(t, step).value.bills[step.id];
    BillChangeKeeps(t, step.id, bill);
  }

  predicate MovesMoney(step: Step) {
    step.CheckOut? || step.TakePayment? || step.GiveRefund? || step.Submit? || step.Reject? || step.Approve?
  }

  lemma MoneyStepKeeps(t: Till, step: Step)
    requires MovesMoney(step) && Inv(t) && Apply(t, step).Ok?
    ensures Inv(Apply(t, step).value)
  {
    if step.CheckOut? {
      CheckoutKeeps(t, step.org, step.id, step.redeem, step.amounts, step.keyed);
    } else if step.TakePayment? {
      PayKeeps(t, step.id, step.amount);
    } else if step.GiveRefund? {
      RefundKeeps(t, step.org, step.id, step.amount);
    } else if step.Submit? {
      SubmitKeeps(t, step.org, step.id, step.read, step.reference, step.outcome);
    } else if step.Reject? {
      RejectKeeps(t, step.org, step.id);
    } else {
      ApproveKeeps(t, step.org, step.id);
    }
  }

  lemma CustomerStepKeeps(t: Till, step: Step)
    requires step.Earn? || step.Spend? || step.Enrol? || step.Retire?
    requires Inv(t) && Apply(t, step).Ok?
    ensures Inv(Apply(t, step).value)
  {
    if step.Earn? {
      EarnPointsKeeps(t, step.org, step.id, step.points);
    } else if step.Spend? {
      RedeemPointsKeeps(t, step.org, step.id, step.points);
    } else if step.Enrol? {
      EnrolKeeps(t, step.org);
    } else {
      RetireKeeps(t, step.id);
    }
  }

  lemma ApplyKeeps(t: Till, step: Step)
    requires Inv(t) && Apply(t, step).Ok?
    ensures Inv(Apply(t, step).value)
  {
    if MovesMoney(step) {
      MoneyStepKeeps(t, step);
    } else if step.Open? {
      OpenKeeps(t, step.org, step.customer, step.grandTotal);
    } else if step.Complete? || step.Advance? || step.CallOff? {
      StatusStepKeeps(t, step);
    } else {
      CustomerStepKeeps(t, step);
    }
  }

  lemma {:induction false} RunKeeps(t: Till, steps: seq<Step>)
    requires Inv(t)
    ensures Inv(Run(t, steps))
    decreases |steps|
  {
    if steps != [] {
      if Apply(t, steps[0]).Ok? {
        ApplyKeeps(t, steps[0]);
      }
      RunKeeps(Next(t, steps[0]), steps[1..]);
    }
  }

  lemma EmptyOk()
    ensures Inv(EMPTY)
  {
  }
}
