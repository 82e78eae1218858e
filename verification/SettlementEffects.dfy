/** What each settlement service does to every table, told in terms of the request and the till
    before it, without the functions the services are made of. */
module SettlementEffects {
  import opened Basics
  import opened Sums
  import opened RunningLedger
  import opened OrderWorkflow
  import opened FraudScore
  import opened Settlement
  import opened SettlementRuns
  import opened SettlementTheorems

  // ---- Loyalty points ----

  predicate Enrolled(t: Till, org: nat, c: nat) {
    c < |t.customers| && t.customers[c].org == org && !t.customers[c].deleted
  }

  /** One customer's balance moved by `change`, in one transaction, and nothing else did. */
  predicate MovesPoints(t: Till, t1: Till, c: nat, change: int, occasion: Occasion) {
    c < |t.customers| &&
    var before := t.customers[c].points;
    && t1 == t.(customers := t1.customers, points := t1.points)
    && |t1.customers| == |t.customers|
    && (forall k :: 0 <= k < |t.customers| && k != c ==> t1.customers[k] == t.customers[k])
    && t1.customers[c] == t.customers[c].(points := before + change)
    && t1.points == t.points + [Entry(c, change, before, before + change, true, occasion)]
  }

  /** Points are earned exactly for a customer of the organisation, who gains them. */
  lemma EarningAddsPoints(t: Till, org: nat, c: nat, points: Quantity)
    ensures EarnPoints(t, org, c, points).Ok? <==> Enrolled(t, org, c)
    ensures EarnPoints(t, org, c, points).Ok? ==> MovesPoints(t, EarnPoints(t, org, c, points).value, c, points, Manual)
  {
  }

  /** Points are redeemed exactly by a customer who has them, and loses them. */
  lemma RedeemingTakesPoints(t: Till, org: nat, c: nat, points: Quantity)
    ensures RedeemPoints(t, org, c, points).Ok? <==> Enrolled(t, org, c) && points <= t.customers[c].points
    ensures RedeemPoints(t, org, c, points).Ok? ==>
        MovesPoints(t, RedeemPoints(t, org, c, points).value, c, 0 - points, Manual)
  {
  }

  // ---- Whole baht ----

  /** The whole baht of an amount: truncated toward zero. */
  predicate WholeBaht(cents: int, baht: int) {
    if cents >= 0 then 100 * baht <= cents < 100 * baht + 100 else 100 * baht - 100 < cents <= 100 * baht
  }

  lemma BahtTruncates(cents: int, baht: int)
    ensures baht == Baht(cents) <==> WholeBaht(cents, baht)
  {
  }

  // ---- Checkout ----

  /** A keyed request for a settled order answers with the order unchanged; without a key, or for
      a cancelled order, it is refused. */
  lemma SettledOrderIsNotChargedAgain(t: Till, org: nat, id: nat, redeem: nat, amounts: seq<int>, keyed: bool)
    requires id < |t.bills| && t.bills[id].org == org
    requires t.bills[id].status in {Paid, Completed, Refunded, Cancelled}
    ensures Checkout(t, org, id, redeem, amounts, keyed)
         == if keyed && t.bills[id].status != Cancelled then Ok(t) else Err(InvalidState)
  {
  }

  /** The entries of a checkout: what was redeemed, then what was earned. */
  function CheckoutEntries(c: nat, points: int, id: nat, redeemed: int, earned: int): seq<PointsEntry> {
    (if redeemed != 0 then [Entry(c, 0 - redeemed, points, points - redeemed, true, RedeemedAtCheckout(id))] else [])
    + (if earned != 0
       then [Entry(c, earned, points - redeemed, points - redeemed + earned, true, EarnedAtCheckout(id))] else [])
  }

  /** A checkout records one payment per amount, the points transactions, and the settled order;
      it leaves refunds, slips and all other orders alone. */
  lemma CheckoutRecords(t: Till, org: nat, id: nat, redeem: nat, amounts: seq<int>, keyed: bool)
    requires Inv(t) && TakesEffect(t, org, id, redeem, amounts, keyed)
    ensures var t1 := Checkout(t, org, id, redeem, amounts, keyed).value;
      && |t1.bills| == |t.bills| && (forall i :: 0 <= i < |t.bills| && i != id ==> t1.bills[i] == t.bills[i])
      && t1.refunds == t.refunds && t1.slips == t.slips
      && t1.payments == t.payments + seq(|amounts|, i requires 0 <= i < |amounts| => Payment(id, amounts[i]))
      && t1.bills[id].org == org && t1.bills[id].customer == t.bills[id].customer
      && var redeemed := if redeem > 0 then t1.bills[id].redeemed else 0;
         match t.bills[id].customer
         case None => t1.points == t.points
         case Some(c) =>
           c < |t.customers| &&
           t1.points == t.points + CheckoutEntries(c, t.customers[c].points, id, redeemed, t1.bills[id].earned)
  {
    OpenBillFacts(t, id);
    EntriesOfCheckout(t, id, redeem, amounts);
  }

  lemma EntriesOfCheckout(t: Till, id: nat, redeem: nat, amounts: seq<int>)
    requires id < |t.bills| && t.bills[id].earned == 0
    requires t.bills[id].customer.Some? ==> t.bills[id].customer.value < |t.customers|
    requires var r := Redeem(t, id, redeem); r.Ok? && Settle(r.value.0, id, redeem, r.value.1, amounts).Ok?
    ensures var (t0, redeemed) := Redeem(t, id, redeem).value;
      var t1 := Settle(t0, id, redeem, redeemed, amounts).value;
      id < |t1.bills| && RedeemedBy(t1, id, redeem) == redeemed &&
      match t.bills[id].customer
      case None => t1.points == t.points
      case Some(c) =>
        t1.points == t.points + CheckoutEntries(c, t.customers[c].points, id, redeemed, t1.bills[id].earned)
  {
  }

  /** What is redeemed is what was asked for, or the whole baht of the total when that is less. */
  lemma RedeemsWhatFits(t: Till, org: nat, id: nat, redeem: nat, amounts: seq<int>, keyed: bool)
    requires TakesEffect(t, org, id, redeem, amounts, keyed) && redeem > 0
    ensures var t1 := Checkout(t, org, id, redeem, amounts, keyed).value;
      id < |t1.bills| &&
      var redeemed := t1.bills[id].redeemed;
      if WholeBaht(t.bills[id].grandTotal, redeemed) then redeemed <= redeem
      else redeemed == redeem && 100 * redeem <= t.bills[id].grandTotal
  {
    BahtTruncates(t.bills[id].grandTotal, Checkout(t, org, id, redeem, amounts, keyed).value.bills[id].redeemed);
  }

  // ---- Payments and refunds ----

  /** A payment is taken exactly for an order of the organisation that is not cancelled; it is
      recorded, added to what was paid, and leaves the overpayment as change. */
  lemma PaymentIsAdded(t: Till, org: nat, id: nat, amount: int)
    ensures CreatePayment(t, org, id, amount).Ok? <==>
              id < |t.bills| && t.bills[id].org == org && t.bills[id].status != Cancelled && amount > 0
    ensures CreatePayment(t, org, id, amount).Ok? ==>
              var t1 := CreatePayment(t, org, id, amount).value;
              var bill := t.bills[id];
              && |t1.bills| == |t.bills|
              && t1 == t.(payments := t.payments + [Payment(id, amount)], bills := t.bills[id := t1.bills[id]])
              && t1.bills[id] == bill.(paid := bill.paid + amount, change := t1.bills[id].change)
              && (bill.paid + amount > bill.grandTotal ==> bill.paid + amount - t1.bills[id].change == bill.grandTotal)
              && (bill.paid + amount <= bill.grandTotal ==> t1.bills[id].change == bill.change)
  {
  }

  /** A refund is given exactly up to what the order holds as paid; it is recorded and taken off. */
  lemma RefundIsTakenOff(t: Till, org: nat, id: nat, amount: int)
    ensures ProcessRefund(t, org, id, amount).Ok? <==>
              id < |t.bills| && t.bills[id].org == org && 0 < amount <= t.bills[id].paid
    ensures ProcessRefund(t, org, id, amount).Ok? ==>
              ProcessRefund(t, org, id, amount).value
              == t.(refunds := t.refunds + [Refund(id, amount)],
                    bills := t.bills[id := t.bills[id].(paid := t.bills[id].paid - amount)])
  {
  }

  // ---- Slips ----

  predicate OwnSlip(t: Till, org: nat, v: nat) {
    v < |t.slips| && t.slips[v].order < |t.bills| && t.bills[t.slips[v].order].org == org
  }

  /** A slip is rejected exactly unless it was verified or is a duplicate, and only its status
      changes. */
  lemma RejectionMarksTheSlip(t: Till, org: nat, v: nat)
    ensures RejectSlip(t, org, v).Ok? <==>
              OwnSlip(t, org, v) && t.slips[v].status !in {SlipVerified, SlipDuplicateReference, SlipDuplicateImage}
    ensures RejectSlip(t, org, v).Ok? ==>
              RejectSlip(t, org, v).value == t.(slips := t.slips[v := t.slips[v].(status := SlipRejected)])
  {
  }

  /** What a slip pays: the amount read from it, or the order's total when none, or 0, was read. */
  predicate PaysOff(slip: Slip, bill: Bill, amount: int) {
    if slip.amount == None || slip.amount == Some(0) then amount == bill.grandTotal else slip.amount == Some(amount)
  }

  /** An approval that takes effect: the order is paid with the slip's amount, the slip is verified
      and has a payment, and a customer who has not earned on the order earns its whole baht. */
  lemma ApprovalRecords(t: Till, org: nat, v: nat, earned: int)
    requires ApproveSlip(t, org, v).Ok?
        && !(t.slips[v].status == SlipVerified && t.bills[t.slips[v].order].status == Paid)
    requires WholeBaht(t.bills[t.slips[v].order].grandTotal, earned)
    ensures var t1 := ApproveSlip(t, org, v).value;
      var slip := t.slips[v];
      var bill := t.bills[slip.order];
      var earns := bill.customer.Some? && bill.earned == 0 && earned > 0;
      && |t1.bills| == |t.bills| && |t1.slips| == |t.slips| && t1.refunds == t.refunds
      && (forall i :: 0 <= i < |t.bills| && i != slip.order ==> t1.bills[i] == t.bills[i])
      && (forall i :: 0 <= i < |t.slips| && i != v ==> t1.slips[i] == t.slips[i])
      && PaysOff(slip, bill, t1.bills[slip.order].paid)
      && t1.bills[slip.order] == bill.(status := Paid, paid := t1.bills[slip.order].paid,
                                       change := t1.bills[slip.order].paid - bill.grandTotal,
                                       earned := if earns then earned else bill.earned)
      && t1.slips[v] == slip.(status := SlipVerified, payment := t1.slips[v].payment)
      && (slip.payment.Some? ==> t1.slips[v].payment == slip.payment && t1.payments == t.payments)
      && (slip.payment.None? ==> t1.slips[v].payment == Some(|t.payments|)
                                 && t1.payments == t.payments + [Payment(slip.order, t1.bills[slip.order].paid)])
      && (earns ==> MovesPoints(t, t.(customers := t1.customers, points := t1.points), bill.customer.value, earned,
          EarnedBySlip(v)))
      && (!earns ==> t1.customers == t.customers && t1.points == t.points)
  {
    BahtTruncates(t.bills[t.slips[v].order].grandTotal, earned);
  }

  /** A slip can be approved exactly while it is pending, in review, or verified, its amount covers
      the order, and the customer who would earn on it is there. */
  lemma ApprovedExactly(t: Till, org: nat, v: nat, amount: int)
    requires Inv(t) && (v < |t.slips| && t.slips[v].order < |t.bills| ==>
        PaysOff(t.slips[v], t.bills[t.slips[v].order], amount))
    ensures ApproveSlip(t, org, v).Ok? <==>
              && OwnSlip(t, org, v)
              && var slip, bill := t.slips[v], t.bills[t.slips[v].order];
                 || (slip.status == SlipVerified && bill.status == Paid)
                 || (&& slip.status in {SlipPending, SlipReview, SlipVerified}
                     && amount >= bill.grandTotal && (slip.payment.None? ==> amount > 0)
                     && (bill.customer.Some? && bill.earned == 0 ==> Enrolled(t, org, bill.customer.value)))
  {
    if OwnSlip(t, org, v) {
      assert t.bills[t.slips[v].order] in t.bills;
    }
  }

  /** A submission for an open order records the slip as it was judged, with a payment exactly
      when it was verified. */
  lemma SubmissionRecords(t: Till, org: nat, order: nat, amount: Option<int>, reference: Option<string>,
      outcome: SlipStatus)
    requires order < |t.bills| && t.bills[order].org == org && t.bills[order].status !in {Completed, Cancelled}
    ensures var r := SubmitSlip(t, org, order, amount, reference, outcome);
      if outcome != SlipVerified then r == Ok(t.(slips := t.slips + [Slip(order, outcome, amount, reference, None)]))
      else
        var paid := if amount.Some? then amount.value else t.bills[order].grandTotal;
        && (r.Ok? <==> paid > 0)
        && (r.Ok? ==>
              && r.value.slips == t.slips + [Slip(order, SlipVerified, amount, reference, Some(|t.payments|))]
              && r.value.payments == t.payments + [Payment(order, paid)]
              && r.value.customers == t.customers && r.value.points == t.points && r.value.refunds == t.refunds)
  {
  }

  // ---- Statuses ----

  /** The steps of the workflow a caller may ask for. */
  predicate NextInLine(current: Status, target: Status) {
    || (current == Pending && target == Confirmed)
    || (current == Confirmed && (target == Preparing || target == Ready))
    || (current == Preparing && target == Ready)
    || ((current == Ready || current == Paid) && target == Completed)
  }

  /** A status is advanced exactly to the next one in line, and to completed only once the order is
      fully paid; nothing but the status changes. */
  lemma AdvancingWritesTheStatus(t: Till, org: nat, id: nat, target: Status)
    ensures UpdateStatus(t, org, id, target).Ok? <==>
              && id < |t.bills| && t.bills[id].org == org && NextInLine(t.bills[id].status, target)
              && (target == Completed ==> t.bills[id].paid >= t.bills[id].grandTotal)
    ensures UpdateStatus(t, org, id, target).Ok? ==>
              UpdateStatus(t, org, id, target).value == t.(bills := t.bills[id := t.bills[id].(status := target)])
  {
  }

  /** Completion takes a pending, ready or paid order that is fully paid; cancellation one that is
      not yet ready.  Both write nothing but the status. */
  lemma ClosingWritesTheStatus(t: Till, org: nat, id: nat)
    ensures CompleteBill(t, org, id).Ok? <==>
              && id < |t.bills| && t.bills[id].org == org && t.bills[id].status in {Pending, Ready, Paid}
              && t.bills[id].paid >= t.bills[id].grandTotal
    ensures CompleteBill(t, org, id).Ok? ==>
              CompleteBill(t, org, id).value == t.(bills := t.bills[id := t.bills[id].(status := Completed)])
    ensures CancelBill(t, org, id).Ok? <==>
              id < |t.bills| && t.bills[id].org == org && t.bills[id].status in {Pending, Confirmed, Preparing}
    ensures CancelBill(t, org, id).Ok? ==>
              CancelBill(t, org, id).value == t.(bills := t.bills[id := t.bills[id].(status := Cancelled)])
  {
  }

  /** A new order is pending and owes its total. */
  lemma NewBillOwesItsTotal(t: Till, org: nat, customer: Option<nat>, grandTotal: int)
    ensures OpenBill(t, org, customer, grandTotal).Ok? <==> customer.None? || customer.value < |t.customers|
    ensures OpenBill(t, org, customer, grandTotal).Ok? ==>
              OpenBill(t, org, customer, grandTotal).value
              == t.(bills := t.bills + [Bill(org, customer, Pending, grandTotal, 0, 0, 0, 0)])
  {
  }
}
