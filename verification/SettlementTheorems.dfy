/** What checkout, payments, refunds, points and slip moderation guarantee over whole runs. */
module SettlementTheorems {
  import opened Basics
  import opened Sums
  import opened RunningLedger
  import opened OrderWorkflow
  import opened FraudScore
  import opened Settlement
  import opened SettlementRuns

  // ---- Points ----

  /** After any run every balance is the sum of the customer's transactions and the
      `points_after` of the latest, it is not negative, and the transactions chain. */
  lemma PointsAlwaysAgree(steps: seq<Step>, c: nat)
    requires c < |Run(EMPTY, steps).customers|
    ensures var t := Run(EMPTY, steps);
      && t.customers[c].points == Balance(t.points, c) == LastAfter(t.points, c)
      && t.customers[c].points >= 0
      && Chained(t.points) && NonNegative(t.points)
  {
    EmptyOk();
    RunKeeps(EMPTY, steps);
    ChainedBalance(Run(EMPTY, steps).points, c);
  }

  /** After any run an order has earned points at most once, by checkout or by a slip. */
  lemma EarnsAtMostOnce(steps: seq<Step>, order: nat)
    ensures 0 <= EarnCount(Run(EMPTY, steps), order) <= 1
  {
    var t := Run(EMPTY, steps);
    EmptyOk();
    RunKeeps(EMPTY, steps);
    if order < |t.bills| {
      assert EarnOk(t, order);
    } else {
      NewBillCountsNothing(t, t, order);
    }
  }

  // ---- Checkout ----

  /** What a checkout that took effect redeemed; the order keeps an older figure otherwise. */
  function RedeemedBy(t1: Till, id: nat, redeem: nat): int
    requires id < |t1.bills|
  {
    if redeem > 0 then t1.bills[id].redeemed else 0
  }

  predicate TakesEffect(t: Till, org: nat, id: nat, redeem: nat, amounts: seq<int>, keyed: bool) {
    Checkout(t, org, id, redeem, amounts, keyed).Ok? && Checkoutable(t.bills[id].status)
  }

  /** Money and points of an effective checkout add up: payments less change plus the points
      are the total, and with a customer redeemed plus earned points are the whole baht of the
      total -- unless the total is negative and nothing was redeemed. */
  lemma CheckoutAddsUp(t: Till, org: nat, id: nat, redeem: nat, amounts: seq<int>, keyed: bool)
    requires Inv(t) && TakesEffect(t, org, id, redeem, amounts, keyed)
    ensures var t1 := Checkout(t, org, id, redeem, amounts, keyed).value;
      id < |t1.bills| &&
      var bill, bill1 := t.bills[id], t1.bills[id];
      var redeemed := RedeemedBy(t1, id, redeem);
      && bill1.status == Paid
      && bill1.paid == Sum(amounts, Itself()) && bill1.change >= 0
      && bill1.paid - bill1.change + 100 * redeemed == bill.grandTotal == bill1.grandTotal
      && redeemed <= redeem
      && (redeemed < 0 <==> redeem > 0 && Baht(bill.grandTotal) < 0)
      && (bill.customer.Some? ==> (redeemed + bill1.earned == Baht(bill.grandTotal)
          <==> Baht(bill.grandTotal) >= 0 || redeem > 0))
  {
    assert EarnOk(t, id);
  }

  /** Only the order's customer is touched: the balance loses what was redeemed, gains what was
      earned, and stays non-negative. */
  lemma CheckoutMovesPoints(t: Till, org: nat, id: nat, redeem: nat, amounts: seq<int>, keyed: bool)
    requires Inv(t) && TakesEffect(t, org, id, redeem, amounts, keyed)
    ensures var t1 := Checkout(t, org, id, redeem, amounts, keyed).value;
      id < |t1.bills| &&
      match t.bills[id].customer
      case None => t1.customers == t.customers && RedeemedBy(t1, id, redeem) == 0 == t1.bills[id].earned
      case Some(c) =>
        c < |t.customers| &&
        var points := t.customers[c].points - RedeemedBy(t1, id, redeem) + t1.bills[id].earned;
        points >= 0 && t1.customers == t.customers[c := t.customers[c].(points := points)]
  {
    OpenBillFacts(t, id);
    OnlyTheCustomerMoves(t, id, redeem, amounts);
  }

  lemma OpenBillFacts(t: Till, id: nat)
    requires Inv(t) && id < |t.bills| && !Settled(t.bills[id].status)
    ensures t.bills[id].earned == 0
    ensures t.bills[id].customer.Some? ==>
        t.bills[id].customer.value < |t.customers| && t.customers[t.bills[id].customer.value].points >= 0
  {
    assert EarnOk(t, id);
    assert t.bills[id] in t.bills;
  }

  lemma OnlyTheCustomerMoves(t: Till, id: nat, redeem: nat, amounts: seq<int>)
    requires id < |t.bills| && t.bills[id].earned == 0
    requires t.bills[id].customer.Some? ==> t.bills[id].customer.value < |t.customers|
    requires var r := Redeem(t, id, redeem); r.Ok? && Settle(r.value.0, id, redeem, r.value.1, amounts).Ok?
    ensures var (t0, redeemed) := Redeem(t, id, redeem).value;
      var t1 := Settle(t0, id, redeem, redeemed, amounts).value;
      id < |t1.bills| && t1.bills[id].earned >= 0 && RedeemedBy(t1, id, redeem) == redeemed &&
      match t.bills[id].customer
      case None => t1.customers == t.customers && redeemed == 0 == t1.bills[id].earned
      case Some(c) => 
        var points := t.customers[c].points - redeemed + t1.bills[id].earned;
        t1.customers == t.customers[c := t.customers[c].(points := points)]
  {
  }

  /** The guards of a checkout without a key, gathered from its parts. */
  lemma CheckoutSucceedsExactly(t: Till, org: nat, id: nat, redeem: nat, amounts: seq<int>)
    requires OwnsBill(t, org, id)
    ensures var bill := t.bills[id];
      Checkout(t, org, id, redeem, amounts, false).Ok? <==>
        && !Settled(bill.status)
        && (bill.customer.Some? ==> FindsCustomer(t, org, bill.customer.value))
        && (redeem > 0 ==> bill.customer.Some? && redeem <= t.customers[bill.customer.value].points)
        && (redeem > 0 ==> bill.grandTotal <= -100 || bill.grandTotal >= 100)
        && amounts != [] && (forall a :: a in amounts ==> a > 0)
        && var redeemed := if redeem > 0 then Min(redeem, Baht(bill.grandTotal)) else 0;
           Sum(amounts, Itself()) + 100 * redeemed >= bill.grandTotal
  {
  }

  /** An order just checked out can be completed exactly when the payments alone cover the
      total, that is, when the change covers the points. */
  lemma CompletesAfterCheckout(t: Till, org: nat, id: nat, redeem: nat, amounts: seq<int>, keyed: bool)
    requires Inv(t) && TakesEffect(t, org, id, redeem, amounts, keyed)
    ensures var t1 := Checkout(t, org, id, redeem, amounts, keyed).value;
      id < |t1.bills|
      && (CompleteBill(t1, org, id).Ok? <==> Sum(amounts, Itself()) >= t.bills[id].grandTotal)
      && (CompleteBill(t1, org, id).Ok? <==> t1.bills[id].change >= 100 * RedeemedBy(t1, id, redeem))
  {
    CheckoutAddsUp(t, org, id, redeem, amounts, keyed);
  }

  /** A customer with 10 points and an order of `grandTotal`, both of organisation 1. */
  function Prepared(grandTotal: int): seq<Step> {
    [Enrol(1), Open(1, Some(0), grandTotal), Earn(1, 0, 10)]
  }

  function PreparedTill(grandTotal: int): Till {
    Till([Bill(1, Some(0), Pending, grandTotal, 0, 0, 0, 0)], [Customer(1, false, 10)],
         [Entry(0, 10, 0, 10, true, Manual)], [], [], [])
  }

  lemma Prepares(grandTotal: int)
    ensures Run(EMPTY, Prepared(grandTotal)) == PreparedTill(grandTotal)
  {
    var steps := Prepared(grandTotal);
    var enrolled := EMPTY.(customers := [Customer(1, false, 0)]);
    var placed := enrolled.(bills := [Bill(1, Some(0), Pending, grandTotal, 0, 0, 0, 0)]);
    assert Next(EMPTY, steps[0]) == enrolled;
    assert Next(enrolled, steps[1]) == placed;
    assert steps == steps + [];
    RunThree(EMPTY, steps[0], steps[1], steps[2], []);
  }

  /** What one payment that covers the rest settles on the prepared order. */
  lemma PreparedCheckout(grandTotal: int, redeem: nat, amount: int)
    requires 0 < redeem <= 10 && amount > 0
    requires var redeemed := Min(redeem, Baht(grandTotal)); redeemed != 0 && amount + 100 * redeemed >= grandTotal
    ensures var r := Checkout(PreparedTill(grandTotal), 1, 0, redeem, [amount], false);
      var redeemed := Min(redeem, Baht(grandTotal));
      && r.Ok? && |r.value.bills| == 1
      && r.value.bills[0].org == 1 && r.value.bills[0].grandTotal == grandTotal
      && r.value.bills[0].status == Paid && r.value.bills[0].paid == amount
      && var points := 10 - redeemed + EarnedOn(PreparedTill(grandTotal).bills[0], redeemed);
         r.value.customers == [Customer(1, false, points)]
  {
    var t := PreparedTill(grandTotal);
    var redeemed := Min(redeem, Baht(grandTotal));
    var t1 := Redeem(t, 0, redeem).value.0;
    assert t1 == PostPoints(t, 0, 0 - redeemed, RedeemedAtCheckout(0));
    assert t1.customers == [Customer(1, false, 10 - redeemed)];
    assert [amount] == [] + [amount];
    SumPush([], amount, Itself());
    CheckoutSucceedsExactly(t, 1, 0, redeem, [amount]);
  }

  /** On an order of -5 baht, redeeming one of 10 points leaves 15. */
  lemma NegativeTotalRaisesPoints()
    ensures var t := Run(EMPTY, Prepared(-500));
      && TakesEffect(t, 1, 0, 1, [1], false)
      && t.customers == [Customer(1, false, 10)]
      && Checkout(t, 1, 0, 1, [1], false).value.customers == [Customer(1, false, 15)]
  {
    Prepares(-500);
    PreparedCheckout(-500, 1, 1);
  }

  /** An order of 10 baht settled with 4 points and 6 baht is paid and cannot be completed. */
  lemma PartRedeemedStaysIncomplete()
    ensures var t := Run(EMPTY, Prepared(1000));
      && TakesEffect(t, 1, 0, 4, [600], false)
      && var t1 := Checkout(t, 1, 0, 4, [600], false).value;
         |t1.bills| == 1 && t1.bills[0].status == Paid && CompleteBill(t1, 1, 0) == Err(BadRequest)
  {
    Prepares(1000);
    PreparedCheckout(1000, 4, 600);
  }

  // ---- The status machine ----

  /** Bills keep their place, owner, customer and total, and only move along the workflow. */
  predicate BillMoves(b: Bill, b1: Bill) {
    && b1.org == b.org && b1.customer == b.customer && b1.grandTotal == b.grandTotal
    && (b1.status == b.status || Moves(b.status, b1.status) || (Cancellable(b.status) && b1.status == Cancelled))
  }

  lemma StatusMoves(t: Till, step: Step, id: nat)
    requires id < |t.bills|
    ensures id < |Next(t, step).bills| && BillMoves(t.bills[id], Next(t, step).bills[id])
  {
  }

  /** An order becomes completed only when it is fully paid, and completing it moves no money. */
  lemma CompletedWasPaid(t: Till, step: Step, id: nat)
    requires id < |t.bills| && t.bills[id].status != Completed
    requires id < |Next(t, step).bills| && Next(t, step).bills[id].status == Completed
    ensures t.bills[id].paid >= t.bills[id].grandTotal && Completable(t.bills[id].status)
    ensures Next(t, step) == WithBill(t, id, t.bills[id].(status := Completed))
  {
  }

  /** Once settled, an order stays settled and cannot be cancelled. */
  lemma {:induction false} SettledForever(t: Till, steps: seq<Step>, id: nat)
    requires id < |t.bills| && Settled(t.bills[id].status)
    ensures id < |Run(t, steps).bills| && Settled(Run(t, steps).bills[id].status)
    decreases |steps|
  {
    if steps != [] {
      StatusMoves(t, steps[0], id);
      SettledForever(Next(t, steps[0]), steps[1..], id);
    }
  }

  /** Whatever happens after a checkout, another one charges nothing: it fails, or it returns
      the order unchanged. */
  lemma NeverChargedTwice(t: Till, org: nat, id: nat, redeem: nat, amounts: seq<int>, keyed: bool, steps: seq<Step>,
      again: Step)
    requires TakesEffect(t, org, id, redeem, amounts, keyed)
    requires again.CheckOut? && again.id == id
    ensures var later := Run(Checkout(t, org, id, redeem, amounts, keyed).value, steps);
      Next(later, again) == later && !TakesEffect(later, again.org, id, again.redeem, again.amounts, again.keyed)
  {
    var t1 := Checkout(t, org, id, redeem, amounts, keyed).value;
    SettledForever(t1, steps, id);
  }

  /** The effective checkouts of an order in a run. */
  function Checkouts(t: Till, steps: seq<Step>, id: nat): nat
    decreases |steps|
  {
    if steps == [] then 0
    else
      var s := steps[0];
      (if s.CheckOut? && s.id == id && TakesEffect(t, s.org, id, s.redeem, s.amounts, s.keyed) then 1 else 0)
      + Checkouts(Next(t, s), steps[1..], id)
  }

  /** In any run an order is checked out at most once, and never after it was settled. */
  lemma {:induction false} CheckedOutAtMostOnce(t: Till, steps: seq<Step>, id: nat)
    ensures Checkouts(t, steps, id) <= if id < |t.bills| && Settled(t.bills[id].status) then 0 else 1
    decreases |steps|
  {
    if steps != [] {
      if id < |t.bills| {
        StatusMoves(t, steps[0], id);
      }
      CheckedOutAtMostOnce(Next(t, steps[0]), steps[1..], id);
    }
  }

  // ---- Moderation ----

  predicate Final(status: SlipStatus) {
    status == SlipVerified || status == SlipRejected
  }

  /** A slip keeps its order and amount, its payment once it has one, and a final status. */
  predicate SlipMoves(s: Slip, s1: Slip) {
    && s1.order == s.order && s1.amount == s.amount
    && (s.payment.Some? ==> s1.payment == s.payment)
    && (Final(s.status) ==> s1.status == s.status)
  }

  lemma SlipStep(t: Till, step: Step, v: nat)
    requires v < |t.slips|
    ensures v < |Next(t, step).slips| && SlipMoves(t.slips[v], Next(t, step).slips[v])
  {
  }

  /** Verified and rejected are absorbing, and a slip is given a payment at most once. */
  lemma {:induction false} SlipsSettle(t: Till, steps: seq<Step>, v: nat)
    requires v < |t.slips|
    ensures v < |Run(t, steps).slips| && SlipMoves(t.slips[v], Run(t, steps).slips[v])
    decreases |steps|
  {
    if steps != [] {
      SlipStep(t, steps[0], v);
      SlipsSettle(Next(t, steps[0]), steps[1..], v);
    }
  }

  /** After any run two slips never share a payment. */
  lemma PaymentsAreNotShared(steps: seq<Step>, u: nat, v: nat)
    requires var slips := Run(EMPTY, steps).slips;
      u < |slips| && v < |slips| && slips[u].payment.Some? && slips[u].payment == slips[v].payment
    ensures u == v
  {
    EmptyOk();
    RunKeeps(EMPTY, steps);
  }

  /** Approving, or rejecting, twice in a row is doing so once, on the whole state. */
  lemma ModeratingTwiceIsOnce(t: Till, org: nat, v: nat)
    ensures ApproveSlip(t, org, v).Ok? ==> ApproveSlip(ApproveSlip(t, org, v).value, org, v) == ApproveSlip(t, org, v)
    ensures RejectSlip(t, org, v).Ok? ==> RejectSlip(RejectSlip(t, org, v).value, org, v) == RejectSlip(t, org, v)
  {
  }

  /** An approval that takes effect pays the order: the amount is the total plus the change. */
  lemma ApprovalPays(t: Till, org: nat, v: nat)
    requires ApproveSlip(t, org, v).Ok? && !AlreadyApproved(t, v)
    ensures var t1 := ApproveSlip(t, org, v).value;
      var order := t.slips[v].order;
      && order < |t1.bills| && v < |t1.slips|
      && var bill := t1.bills[order];
      bill.status == Paid && bill.paid == bill.grandTotal + bill.change && bill.change >= 0
      && t1.slips[v].status == SlipVerified && t1.slips[v].payment.Some?
      && (t.slips[v].payment.None? ==> t1.payments == t.payments + [Payment(order, bill.paid)])
      && (t.slips[v].payment.Some? ==> t1.payments == t.payments)
  {
  }

  /** A slip the checks verify is paid in full by its own payment: the order's total. */
  lemma AutoVerifiedPaysTheTotal(t: Till, org: nat, order: nat, p: Parsed, duplicate: bool, failures: int, now: int)
    requires OwnsBill(t, org, order)
        && Decides(p, t.bills[order].grandTotal, duplicate, failures, now, Ok(SlipVerified))
    requires t.bills[order].status != Completed && SubmitSlip(t, org, order, p.amount, p.reference, SlipVerified).Ok?
    ensures var t1 := SubmitSlip(t, org, order, p.amount, p.reference, SlipVerified).value;
      && t1.payments == t.payments + [Payment(order, t.bills[order].grandTotal)]
      && t1.slips == t.slips + [Slip(order, SlipVerified, Some(t.bills[order].grandTotal), p.reference,
          Some(|t.payments|))]
      && order < |t1.bills| && t1.bills[order].paid == t.bills[order].paid + t.bills[order].grandTotal
  {
    VerifiedMeansComplete(p, t.bills[order].grandTotal, duplicate, failures, now);
  }

  /** As the code stands a submission never gets that far: whatever the tables hold, it leaves
      bills, payments and points alone, and no slip it records is verified. */
  lemma SubmissionsNeverPay(t: Till, org: nat, order: nat, p: Parsed, failures: int, now: int, r: Result<Till>)
    requires VerifiesSlip(t, org, order, p, failures, now, r)
    ensures r.Ok? ==>
      || r.value == t
      || exists status :: status != SlipVerified &&
           r.value == t.(slips := t.slips + [Slip(order, status, p.amount, p.reference, None)])
  {
    OwnRowIsFound(SlipRows(t.slips), p, if order < |t.bills| then t.bills[order].grandTotal else 0, failures, now);
  }
}
