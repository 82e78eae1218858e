/** Checkout, payments, refunds, loyalty points and slip moderation.  Money is in cents, a
    loyalty point is worth one baht, and row ids are positions in their tables. */
module Settlement {
  import opened Basics
  import opened Sums
  import opened RunningLedger
  import opened OrderWorkflow
  import opened FraudScore

  datatype Bill = Bill(
    org: nat, customer: Option<nat>, status: Status, grandTotal: int,
    paid: int, change: int, earned: int, redeemed: int)

  datatype Customer = Customer(org: nat, deleted: bool, points: int)

  /** What a loyalty transaction was made for. */
  datatype Occasion = EarnedAtCheckout(order: nat) | RedeemedAtCheckout(order: nat) | EarnedBySlip(slip: nat) | Manual

  type PointsEntry = Entry<nat, Occasion>

  datatype Payment = Payment(order: nat, amount: int)

  datatype Refund = Refund(order: nat, amount: int)

  datatype Slip = Slip(order: nat, status: SlipStatus, amount: Option<int>, reference: Option<string>,
      payment: Option<nat>)

  datatype Till = Till(
    bills: seq<Bill>,
    customers: seq<Customer>,
    points: seq<PointsEntry>,
    payments: seq<Payment>,
    refunds: seq<Refund>,
    slips: seq<Slip>)

  /** `int(amount)`: whole baht, truncated toward zero. */
  function Baht(cents: int): int {
    if cents >= 0 then cents / 100 else -((-cents) / 100)
  }

  predicate OwnsBill(t: Till, org: nat, id: nat) {
    id < |t.bills| && t.bills[id].org == org
  }

  predicate FindsCustomer(t: Till, org: nat, c: nat) {
    c < |t.customers| && t.customers[c].org == org && !t.customers[c].deleted
  }

  /** A balance update with its transaction row. */
  function PostPoints(t: Till, c: nat, change: int, occasion: Occasion): Till
    requires c < |t.customers|
  {
    var before := t.customers[c].points;
    t.(customers := t.customers[c := t.customers[c].(points := before + change)],
       points := t.points + [Entry(c, change, before, before + change, true, occasion)])
  }

  // ---- Points outside orders ----

  function EarnPoints(t: Till, org: nat, c: nat, points: Quantity): Result<Till> {
    if !FindsCustomer(t, org, c) then Err(NotFound) else Ok(PostPoints(t, c, points, Manual))
  }

  function RedeemPoints(t: Till, org: nat, c: nat, points: Quantity): Result<Till> {
    if !FindsCustomer(t, org, c) then Err(NotFound)
    else if t.customers[c].points < points then Err(BadRequest)
    else Ok(PostPoints(t, c, 0 - points, Manual))
  }

  // ---- Checkout ----

  function WithBill(t: Till, id: nat, bill: Bill): Till
    requires id < |t.bills|
  {
    t.(bills := t.bills[id := bill])
  }

  function PaymentRows(id: nat, amounts: seq<int>): seq<Payment> {
    seq(|amounts|, i requires 0 <= i < |amounts| => Payment(id, amounts[i]))
  }

  function Itself(): int -> int {
    (x: int) => x
  }

  /** The redemption part: the state after it and the points redeemed. */
  function Redeem(t: Till, id: nat, redeem: nat): Result<(Till, int)>
    requires id < |t.bills|
    requires t.bills[id].customer.Some? ==> t.bills[id].customer.value < |t.customers|
  {
    var bill := t.bills[id];
    if redeem == 0 then Ok((t, 0))
    else if bill.customer.None? || t.customers[bill.customer.value].points < redeem then Err(BadRequest)
    else
      var redeemed := Min(redeem, Baht(bill.grandTotal));
      if redeemed == 0 then Err(BadRequest)
      else Ok((PostPoints(t, bill.customer.value, 0 - redeemed, RedeemedAtCheckout(id)), redeemed))
  }

  /** The points earned on what is due after redemption. */
  function EarnedOn(bill: Bill, redeemed: int): int {
    var due := bill.grandTotal - 100 * redeemed;
    if bill.customer.Some? && redeemed < Baht(bill.grandTotal) && Baht(due) > 0 then Baht(due) else 0
  }

  /** The rest: payments, amounts, points earned, status. */
  function Settle(t: Till, id: nat, redeem: nat, redeemed: int, amounts: seq<int>): Result<Till>
    requires id < |t.bills|
    requires t.bills[id].customer.Some? ==> t.bills[id].customer.value < |t.customers|
  {
    var bill := t.bills[id];
    var total := Sum(amounts, Itself());
    var due := bill.grandTotal - 100 * redeemed;
    if amounts == [] || (exists a :: a in amounts && a <= 0) || total < due then Err(BadRequest)
    else
      var earned := EarnedOn(bill, redeemed);
      var t1 := if earned > 0 then PostPoints(t, bill.customer.value, earned, EarnedAtCheckout(id)) else t;
      Ok(WithBill(t1.(payments := t1.payments + PaymentRows(id, amounts)), id,
                  bill.(status := Paid, paid := total, change := total - due,
                        earned := if earned > 0 then earned else bill.earned,
                        redeemed := if redeem > 0 then redeemed else bill.redeemed)))
  }

  /** `checkout_order`; `keyed` says whether the request carries an idempotency key. */
  function Checkout(t: Till, org: nat, id: nat, redeem: nat, amounts: seq<int>, keyed: bool): Result<Till> {
    if !OwnsBill(t, org, id) then Err(NotFound)
    else
      var bill := t.bills[id];
      if keyed && (bill.status == Paid || bill.status == Completed || bill.status == Refunded) then Ok(t)
      else if !Checkoutable(bill.status) then Err(InvalidState)
      else if bill.customer.Some? && !FindsCustomer(t, org, bill.customer.value) then Err(NotFound)
      else
        var r :- Redeem(t, id, redeem);
        Settle(r.0, id, redeem, r.1, amounts)
  }

  // ---- Payments and refunds ----

  /** A payment row and its effect on the order; also what an auto-verified slip does. */
  function Pay(t: Till, id: nat, amount: int): Result<Till>
    requires id < |t.bills|
  {
    if amount <= 0 then Err(Integrity)
    else
      var bill := t.bills[id];
      var paid := bill.paid + amount;
      Ok(WithBill(t.(payments := t.payments + [Payment(id, amount)]), id,
                  bill.(paid := paid, change := if paid > bill.grandTotal then paid - bill.grandTotal
                      else bill.change)))
  }

  function CreatePayment(t: Till, org: nat, id: nat, amount: int): Result<Till> {
    if !OwnsBill(t, org, id) then Err(NotFound)
    else if t.bills[id].status == Cancelled then Err(BadRequest)
    else Pay(t, id, amount)
  }

  function ProcessRefund(t: Till, org: nat, id: nat, amount: int): Result<Till> {
    if !OwnsBill(t, org, id) then Err(NotFound)
    else if amount <= 0 || amount > t.bills[id].paid then Err(BadRequest)
    else
      var bill := t.bills[id];
      Ok(WithBill(t.(refunds := t.refunds + [Refund(id, amount)]), id, bill.(paid := bill.paid - amount)))
  }

  // ---- Slips ----

  /** `verify_slip` once the outcome is known. */
  function SubmitSlip(t: Till, org: nat, order: nat, amount: Option<int>, reference: Option<string>,
      outcome: SlipStatus): Result<Till> {
    if !OwnsBill(t, org, order) then Err(NotFound)
    else if t.bills[order].status == Completed then Ok(t)
    else if t.bills[order].status == Cancelled then Err(BadRequest)
    else if outcome != SlipVerified then Ok(t.(slips := t.slips + [Slip(order, outcome, amount, reference, None)]))
    else
      var t1 :- Pay(t, order, if amount.Some? then amount.value else t.bills[order].grandTotal);
      Ok(t1.(slips := t1.slips + [Slip(order, SlipVerified, amount, reference, Some(|t.payments|))]))
  }

  /** The table as the reference lookup sees it. */
  function SlipRows(slips: seq<Slip>): seq<Row> {
    seq(|slips|, i requires 0 <= i < |slips| => Row(slips[i].reference, slips[i].status == SlipRejected))
  }

  /** `verify_slip` on the parsed fields: its own row is inserted, then the reference is looked
      up, then the slip is assessed and the outcome recorded. */
  ghost predicate VerifiesSlip(t: Till, org: nat, order: nat, p: Parsed, failures: int, now: int, r: Result<Till>) {
    if !OwnsBill(t, org, order) || t.bills[order].status == Completed || t.bills[order].status == Cancelled then
      r == SubmitSlip(t, org, order, p.amount, p.reference, SlipPending)
    else
      match LookUp(SlipRows(t.slips) + [Row(p.reference, false)], p.reference)
      case Err(e) => r == Err(e)
      case Ok(found) =>
        exists decision ::
          && Decides(p, t.bills[order].grandTotal, found, failures, now, decision)
          && r == if decision.Ok? then SubmitSlip(t, org, order, p.amount, p.reference, decision.value)
              else Err(decision.error)
  }

  predicate OwnsSlip(t: Till, org: nat, id: nat) {
    id < |t.slips| && OwnsBill(t, org, t.slips[id].order)
  }

  function RejectSlip(t: Till, org: nat, id: nat): Result<Till> {
    if !OwnsSlip(t, org, id) then Err(NotFound)
    else
      var slip := t.slips[id];
      if slip.status == SlipRejected then Ok(t)
      else if slip.status == SlipVerified || slip.status == SlipDuplicateReference || slip.status == SlipDuplicateImage
      then Err(BadRequest)
      else Ok(t.(slips := t.slips[id := slip.(status := SlipRejected)]))
  }

  /** A missing or zero amount falls back to the order total. */
  function SlipAmount(slip: Slip, bill: Bill): int {
    if slip.amount.Some? && slip.amount.value != 0 then slip.amount.value else bill.grandTotal
  }

  /** Approving a verified slip of a paid order does nothing. */
  predicate AlreadyApproved(t: Till, id: nat)
    requires id < |t.slips| && t.slips[id].order < |t.bills|
  {
    t.slips[id].status == SlipVerified && t.bills[t.slips[id].order].status == Paid
  }

  /** Points for the whole order, unless it has no customer or has earned already. */
  function ApprovalPoints(bill: Bill): int {
    if bill.customer.Some? && bill.earned == 0 && Baht(bill.grandTotal) > 0 then Baht(bill.grandTotal) else 0
  }

  /** The bill of an approved slip. */
  function ApprovedBill(slip: Slip, bill: Bill): Bill {
    var amount := SlipAmount(slip, bill);
    bill.(status := Paid, paid := amount,
          change := if amount - bill.grandTotal >= 0 then amount - bill.grandTotal else 0,
          earned := if ApprovalPoints(bill) > 0 then ApprovalPoints(bill) else bill.earned)
  }

  /** What an approval that takes effect does. */
  function Approved(t: Till, id: nat): Till
    requires id < |t.slips| && t.slips[id].order < |t.bills|
    requires var bill := t.bills[t.slips[id].order]; bill.customer.Some? ==> bill.customer.value < |t.customers|
  {
    var slip := t.slips[id];
    var bill := t.bills[slip.order];
    var points := ApprovalPoints(bill);
    var t1 := if points > 0 then PostPoints(t, bill.customer.value, points, EarnedBySlip(id)) else t;
    var payment := if slip.payment.None? then Some(|t.payments|) else slip.payment;
    t1.(payments := if slip.payment.None? then t.payments + [Payment(slip.order, SlipAmount(slip, bill))]
        else t.payments,
        slips := t.slips[id := slip.(status := SlipVerified, payment := payment)],
        bills := t.bills[slip.order := ApprovedBill(slip, bill)])
  }

  function ApproveSlip(t: Till, org: nat, id: nat): Result<Till> {
    if !OwnsSlip(t, org, id) then Err(NotFound)
    else if AlreadyApproved(t, id) then Ok(t)
    else
      var slip := t.slips[id];
      var bill := t.bills[slip.order];
      if slip.status != SlipPending && slip.status != SlipReview && slip.status != SlipVerified then Err(BadRequest)
      else if SlipAmount(slip, bill) < bill.grandTotal then Err(BadRequest)
      else if slip.payment.None? && SlipAmount(slip, bill) <= 0 then Err(Integrity)
      else if bill.customer.Some? && bill.earned == 0 && !FindsCustomer(t, org, bill.customer.value) then Err(NotFound)
      else if bill.customer.Some? && bill.customer.value >= |t.customers| then Err(Integrity)
      else Ok(Approved(t, id))
  }

  // ---- Status changes ----

  function CompleteBill(t: Till, org: nat, id: nat): Result<Till> {
    if !OwnsBill(t, org, id) then Err(NotFound)
    else
      var bill := t.bills[id];
      if !Completable(bill.status) then Err(InvalidState)
      else if bill.paid < bill.grandTotal then Err(BadRequest)
      else Ok(WithBill(t, id, bill.(status := Completed)))
  }

  function UpdateStatus(t: Till, org: nat, id: nat, target: Status): Result<Till> {
    if !OwnsBill(t, org, id) then Err(NotFound)
    else
      var bill := t.bills[id];
      if target == Cancelled then Err(BadRequest)
      else if !ValidTransition(bill.status, target) then Err(InvalidState)
      else if target == Completed && bill.paid < bill.grandTotal then Err(BadRequest)
      else Ok(WithBill(t, id, bill.(status := target)))
  }

  function CancelBill(t: Till, org: nat, id: nat): Result<Till> {
    if !OwnsBill(t, org, id) then Err(NotFound)
    else if !Cancellable(t.bills[id].status) then Err(InvalidState)
    else Ok(WithBill(t, id, t.bills[id].(status := Cancelled)))
  }

  function OpenBill(t: Till, org: nat, customer: Option<nat>, grandTotal: int): Result<Till> {
    if customer.Some? && customer.value >= |t.customers| then Err(Integrity)
    else Ok(t.(bills := t.bills + [Bill(org, customer, Pending, grandTotal, 0, 0, 0, 0)]))
  }
}
