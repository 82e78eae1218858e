/** The settlement services as they run: methods that update the tables in place.  Local copies
    are a session's uncommitted work, assigning them to the fields is the commit. */
module TillStore {
  import opened Basics
  import opened Sums
  import opened RunningLedger
  import opened OrderWorkflow
  import opened FraudScore
  import opened Settlement
  import SettlementRuns

  class Register {
    var bills: seq<Bill>
    var customers: seq<Customer>
    var points: seq<PointsEntry>
    var payments: seq<Payment>
    var refunds: seq<Refund>
    var slips: seq<Slip>

    ghost function Snapshot(): Till
      reads this
    {
      Till(bills, customers, points, payments, refunds, slips)
    }

    constructor (customers: seq<Customer>)
      ensures Snapshot() == Till([], customers, [], [], [], [])
    {
      this.customers := customers;
      bills, points, payments, refunds, slips := [], [], [], [], [];
    }

    /** The state a call leaves: the specified one, or the old one when it fails. */
    static ghost predicate Leaves(before: Till, after: Till, spec: Result<Till>, r: Result<()>) {
      match spec
      case Ok(t) => r == Ok(()) && after == t
      case Err(e) => r == Err(e) && after == before
    }

    predicate Finds(org: nat, c: nat)
      reads this
    {
      c < |customers| && customers[c].org == org && !customers[c].deleted
    }

    /** The payment loop of `checkout_order`: every amount is positive, is recorded, and adds
        to what was paid. */
    static method Take(payments0: seq<Payment>, id: nat, amounts: seq<int>)
        returns (r: Result<seq<Payment>>, total: int)
      ensures r.Ok? <==> forall a :: a in amounts ==> a > 0
      ensures r.Ok? ==> r.value == payments0 + PaymentRows(id, amounts) && total == Sum(amounts, Itself())
      ensures r.Err? ==> r.error == BadRequest
    {
      var payments := payments0;
      total := 0;
      for i := 0 to |amounts|
        invariant forall k :: 0 <= k < i ==> amounts[k] > 0
        invariant payments == payments0 + PaymentRows(id, amounts[..i]) && total == Sum(amounts[..i], Itself())
      {
        if amounts[i] <= 0 {
          assert amounts[i] in amounts;
          return Err(BadRequest), 0;
        }
        assert amounts[..i + 1] == amounts[..i] + [amounts[i]];
        SumPush(amounts[..i], amounts[i], Itself());
        payments := payments + [Payment(id, amounts[i])];
        total := total + amounts[i];
      }
      assert amounts[..|amounts|] == amounts;
      return Ok(payments), total;
    }

    /** The redemption part of `checkout_order`, on the session's copies. */
    method ApplyRedemption(id: nat, redeem: nat)
      returns (r: Result<int>, customers1: seq<Customer>, points1: seq<PointsEntry>)
      requires id < |bills| && (bills[id].customer.Some? ==> bills[id].customer.value < |customers|)
      ensures match Redeem(Snapshot(), id, redeem)
              case Ok((t, redeemed)) => r == Ok(redeemed)
                  && t == Snapshot().(customers := customers1, points := points1)
              case Err(e) => r == Err(e)
    {
      var bill := bills[id];
      var redeemed := 0;
      customers1, points1 := customers, points;
      if redeem > 0 {
        if bill.customer.None? || customers[bill.customer.value].points < redeem {
          return Err(BadRequest), customers, points;
        }
        redeemed := Min(redeem, Baht(bill.grandTotal));
        if redeemed == 0 {
          return Err(BadRequest), customers, points;
        }
        customers1, points1 := Post(Snapshot(), customers1, points1, bill.customer.value, 0 - redeemed,
            RedeemedAtCheckout(id));
      }
      return Ok(redeemed), customers1, points1;
    }

    /** The payments, amounts, earned points and status of `checkout_order`, and the commit. */
    method SettleBill(id: nat, redeem: nat, redeemed: int, amounts: seq<int>, customers0: seq<Customer>,
        points0: seq<PointsEntry>)
      returns (r: Result<()>)
      requires id < |bills| && (bills[id].customer.Some? ==> bills[id].customer.value < |customers0|)
      modifies this
      ensures match Settle(old(Snapshot()).(customers := customers0, points := points0), id, redeem, redeemed, amounts)
              case Ok(t) => r == Ok(()) && Snapshot() == t
              case Err(e) => r == Err(e) && Snapshot() == old(Snapshot())
    {
      var bill := bills[id];
      var due := bill.grandTotal - 100 * redeemed;
      if amounts == [] {
        return Err(BadRequest);
      }
      var taken, total := Take(payments, id, amounts);
      if taken.Err? || total < due {
        return Err(BadRequest);
      }
      var earned := 0;
      if bill.customer.Some? && redeemed < Baht(bill.grandTotal) {
        earned := Baht(due);
      }
      if redeem > 0 {
        bill := bill.(redeemed := redeemed);
      }
      customers, points := customers0, points0;
      if earned > 0 {
        customers, points := Post(Snapshot(), customers, points, bill.customer.value, earned, EarnedAtCheckout(id));
        bill := bill.(earned := earned);
      }
      payments := taken.value;
      bills := bills[id := bill.(status := Paid, paid := total, change := total - due)];
      return Ok(());
    }

    method Checkout(org: nat, id: nat, redeem: nat, amounts: seq<int>, keyed: bool) returns (r: Result<()>)
      modifies this
      ensures Leaves(old(Snapshot()), Snapshot(),
          Settlement.Checkout(old(Snapshot()), org, id, redeem, amounts, keyed), r)
    {
      if id >= |bills| || bills[id].org != org {
        return Err(NotFound);
      }
      var bill := bills[id];
      if keyed && (bill.status == Paid || bill.status == Completed || bill.status == Refunded) {
        return Ok(());
      }
      if !Checkoutable(bill.status) {
        return Err(InvalidState);
      }
      if bill.customer.Some? && !Finds(org, bill.customer.value) {
        return Err(NotFound);
      }
      var redeemed, customers, points := ApplyRedemption(id, redeem);
      if redeemed.Err? {
        return Err(redeemed.error);
      }
      r := SettleBill(id, redeem, redeemed.value, amounts, customers, points);
    }

    /** A balance update and its transaction, on the session's copies. */
    static method Post(ghost t: Till, customers0: seq<Customer>, points0: seq<PointsEntry>, c: nat, change: int,
        occasion: Occasion)
      returns (customers: seq<Customer>, points: seq<PointsEntry>)
      requires c < |customers0| && t.customers == customers0 && t.points == points0
      ensures PostPoints(t, c, change, occasion) == t.(customers := customers, points := points)
    {
      var before := customers0[c].points;
      var after := before + change;
      points := points0 + [Entry(c, change, before, after, true, occasion)];
      customers := customers0[c := customers0[c].(points := after)];
    }

    method EarnPoints(org: nat, c: nat, amount: Quantity) returns (r: Result<()>)
      modifies this
      ensures Leaves(old(Snapshot()), Snapshot(), Settlement.EarnPoints(old(Snapshot()), org, c, amount), r)
    {
      if !Finds(org, c) {
        return Err(NotFound);
      }
      customers, points := Post(Snapshot(), customers, points, c, amount, Manual);
      return Ok(());
    }

    method RedeemPoints(org: nat, c: nat, amount: Quantity) returns (r: Result<()>)
      modifies this
      ensures Leaves(old(Snapshot()), Snapshot(), Settlement.RedeemPoints(old(Snapshot()), org, c, amount), r)
    {
      if !Finds(org, c) {
        return Err(NotFound);
      }
      if customers[c].points < amount {
        return Err(BadRequest);
      }
      customers, points := Post(Snapshot(), customers, points, c, 0 - amount, Manual);
      return Ok(());
    }

    /** `create_payment_for_order`, shared by payments and verified slips. */
    method Pay(id: nat, amount: int) returns (r: Result<()>)
      requires id < |bills|
      modifies `bills, `payments
      ensures Leaves(old(Snapshot()), Snapshot(), Settlement.Pay(old(Snapshot()), id, amount), r)
    {
      if amount <= 0 {
        return Err(Integrity);
      }
      payments := payments + [Payment(id, amount)];
      var bill := bills[id].(paid := bills[id].paid + amount);
      if bill.paid > bill.grandTotal {
        bill := bill.(change := bill.paid - bill.grandTotal);
      }
      bills := bills[id := bill];
      return Ok(());
    }

    method CreatePayment(org: nat, id: nat, amount: int) returns (r: Result<()>)
      modifies this
      ensures Leaves(old(Snapshot()), Snapshot(), Settlement.CreatePayment(old(Snapshot()), org, id, amount), r)
    {
      if id >= |bills| || bills[id].org != org {
        return Err(NotFound);
      }
      if bills[id].status == Cancelled {
        return Err(BadRequest);
      }
      r := Pay(id, amount);
    }

    method ProcessRefund(org: nat, id: nat, amount: int) returns (r: Result<()>)
      modifies this
      ensures Leaves(old(Snapshot()), Snapshot(), Settlement.ProcessRefund(old(Snapshot()), org, id, amount), r)
    {
      if id >= |bills| || bills[id].org != org {
        return Err(NotFound);
      }
      if amount <= 0 || amount > bills[id].paid {
        return Err(BadRequest);
      }
      refunds := refunds + [Refund(id, amount)];
      bills := bills[id := bills[id].(paid := bills[id].paid - amount)];
      return Ok(());
    }

    /** What `verify_slip` records once the outcome is known, and the payment of a verified slip. */
    method RecordSlip(org: nat, order: nat, amount: Option<int>, reference: Option<string>, outcome: SlipStatus)
        returns (r: Result<()>)
      modifies this
      ensures Leaves(old(Snapshot()), Snapshot(),
          SubmitSlip(old(Snapshot()), org, order, amount, reference, outcome), r)
    {
      if order >= |bills| || bills[order].org != org {
        return Err(NotFound);
      }
      if bills[order].status == Completed {
        return Ok(());
      }
      if bills[order].status == Cancelled {
        return Err(BadRequest);
      }
      var slip := Slip(order, outcome, amount, reference, None);
      if outcome == SlipVerified {
        slip := slip.(payment := Some(|payments|));
        r := Pay(order, if amount.Some? then amount.value else bills[order].grandTotal);
        if r.Err? {
          return;
        }
      }
      slips := slips + [slip];
      return Ok(());
    }

    /** `verify_slip` on the parsed fields. */
    method VerifySlip(org: nat, order: nat, p: Parsed, failures: int, now: int) returns (r: Result<()>)
      modifies this
      ensures exists after :: VerifiesSlip(old(Snapshot()), org, order, p, failures, now, after)
                              && Leaves(old(Snapshot()), Snapshot(), after, r)
    {
      ghost var after;
      if order >= |bills| || bills[order].org != org || bills[order].status == Completed
          || bills[order].status == Cancelled {
        after := SubmitSlip(Snapshot(), org, order, p.amount, p.reference, SlipPending);
        r := RecordSlip(org, order, p.amount, p.reference, SlipPending);
      } else {
        var duplicate := LookUp(SlipRows(slips) + [Row(p.reference, false)], p.reference);
        if duplicate.Err? {
          after := Err(duplicate.error);
          r := Err(duplicate.error);
        } else {
          var decision := Decide(p, bills[order].grandTotal, duplicate.value, failures, now);
          if decision.Err? {
            after := Err(decision.error);
            r := Err(decision.error);
          } else {
            after := SubmitSlip(Snapshot(), org, order, p.amount, p.reference, decision.value);
            r := RecordSlip(org, order, p.amount, p.reference, decision.value);
          }
        }
      }
      assert VerifiesSlip(old(Snapshot()), org, order, p, failures, now, after);
    }

    /** The approving half of `moderate_verification`. */
    method Approve(org: nat, id: nat) returns (r: Result<()>)
      requires OwnsSlip(Snapshot(), org, id)
      modifies this
      ensures Leaves(old(Snapshot()), Snapshot(), ApproveSlip(old(Snapshot()), org, id), r)
    {
      var slip := slips[id];
      var bill := bills[slip.order];
      if slip.status == SlipVerified && bill.status == Paid {
        return Ok(());
      }
      if slip.status != SlipPending && slip.status != SlipReview && slip.status != SlipVerified {
        return Err(BadRequest);
      }
      var amount := if slip.amount.Some? && slip.amount.value != 0 then slip.amount.value else bill.grandTotal;
      if amount < bill.grandTotal {
        return Err(BadRequest);
      }
      var payments := this.payments;
      if slip.payment.None? {
        if amount <= 0 {
          return Err(Integrity);
        }
        slip := slip.(payment := Some(|payments|));
        payments := payments + [Payment(slip.order, amount)];
      }
      var change := amount - bill.grandTotal;
      bill := bill.(status := Paid, paid := amount, change := if change > 0 then change else 0);
      if bill.customer.Some? && bill.earned == 0 {
        if !Finds(org, bill.customer.value) {
          return Err(NotFound);
        }
        var earned := Baht(bill.grandTotal);
        if earned > 0 {
          customers, points := Post(Snapshot(), customers, points, bill.customer.value, earned, EarnedBySlip(id));
          bill := bill.(earned := earned);
        }
      } else if bill.customer.Some? && bill.customer.value >= |customers| {
        return Err(Integrity);
      }
      this.payments := payments;
      slips := slips[id := slip.(status := SlipVerified)];
      bills := bills[slip.order := bill];
      return Ok(());
    }

    /** `moderate_verification`. */
    method Moderate(org: nat, id: nat, approve: bool) returns (r: Result<()>)
      modifies this
      ensures Leaves(old(Snapshot()), Snapshot(),
                     if approve then ApproveSlip(old(Snapshot()), org, id) else RejectSlip(old(Snapshot()), org, id), r)
    {
      if id >= |slips| || slips[id].order >= |bills| || bills[slips[id].order].org != org {
        return Err(NotFound);
      }
      var slip := slips[id];
      if !approve {
        if slip.status == SlipRejected {
          return Ok(());
        }
        if slip.status == SlipVerified || slip.status == SlipDuplicateReference || slip.status == SlipDuplicateImage {
          return Err(BadRequest);
        }
        slips := slips[id := slip.(status := SlipRejected)];
        return Ok(());
      }
      r := Approve(org, id);
    }

    method CompleteOrder(org: nat, id: nat) returns (r: Result<()>)
      modifies this
      ensures Leaves(old(Snapshot()), Snapshot(), CompleteBill(old(Snapshot()), org, id), r)
    {
      if id >= |bills| || bills[id].org != org {
        return Err(NotFound);
      }
      if !Completable(bills[id].status) {
        return Err(InvalidState);
      }
      if bills[id].paid < bills[id].grandTotal {
        return Err(BadRequest);
      }
      bills := bills[id := bills[id].(status := Completed)];
      return Ok(());
    }

    method UpdateStatus(org: nat, id: nat, target: Status) returns (r: Result<()>)
      modifies this
      ensures Leaves(old(Snapshot()), Snapshot(), Settlement.UpdateStatus(old(Snapshot()), org, id, target), r)
    {
      if id >= |bills| || bills[id].org != org {
        return Err(NotFound);
      }
      if target == Cancelled {
        return Err(BadRequest);
      }
      if !ValidTransition(bills[id].status, target) {
        return Err(InvalidState);
      }
      if target == Completed && bills[id].paid < bills[id].grandTotal {
        return Err(BadRequest);
      }
      bills := bills[id := bills[id].(status := target)];
      return Ok(());
    }

    method CancelOrder(org: nat, id: nat) returns (r: Result<()>)
      modifies this
      ensures Leaves(old(Snapshot()), Snapshot(), CancelBill(old(Snapshot()), org, id), r)
    {
      if id >= |bills| || bills[id].org != org {
        return Err(NotFound);
      }
      if !Cancellable(bills[id].status) {
        return Err(InvalidState);
      }
      bills := bills[id := bills[id].(status := Cancelled)];
      return Ok(());
    }

    method PlaceOrder(org: nat, customer: Option<nat>, grandTotal: int) returns (r: Result<()>)
      modifies this
      ensures Leaves(old(Snapshot()), Snapshot(), OpenBill(old(Snapshot()), org, customer, grandTotal), r)
    {
      if customer.Some? && customer.value >= |customers| {
        return Err(Integrity);
      }
      bills := bills + [Bill(org, customer, Pending, grandTotal, 0, 0, 0, 0)];
      return Ok(());
    }

    // ---- Serving requests ----

    method PerformMoney(step: SettlementRuns.Step)
      requires SettlementRuns.MovesMoney(step)
      modifies this
      ensures Snapshot() == SettlementRuns.Next(old(Snapshot()), step)
    {
      match step {
        case CheckOut(org, id, redeem, amounts, keyed) => var _ := Checkout(org, id, redeem, amounts, keyed);
        case TakePayment(org, id, amount) => var _ := CreatePayment(org, id, amount);
        case GiveRefund(org, id, amount) => var _ := ProcessRefund(org, id, amount);
        case Submit(org, id, read, reference, outcome) => var _ := RecordSlip(org, id, read, reference, outcome);
        case Reject(org, id) => var _ := Moderate(org, id, false);
        case Approve(org, id) => var _ := Moderate(org, id, true);
      }
    }

    /** Status changes, loyalty points, and the arrival and removal of customers. */
    method PerformOther(step: SettlementRuns.Step)
      requires !SettlementRuns.MovesMoney(step)
      modifies this
      ensures Snapshot() == SettlementRuns.Next(old(Snapshot()), step)
    {
      match step {
        case Complete(org, id) => var _ := CompleteOrder(org, id);
        case Advance(org, id, target) => var _ := UpdateStatus(org, id, target);
        case CallOff(org, id) => var _ := CancelOrder(org, id);
        case Open(org, customer, grandTotal) => var _ := PlaceOrder(org, customer, grandTotal);
        case Earn(org, id, points) => var _ := EarnPoints(org, id, points);
        case Spend(org, id, points) => var _ := RedeemPoints(org, id, points);
        case Enrol(org) => customers := customers + [Customer(org, false, 0)];
        case Retire(id) =>
          if id < |customers| {
            customers := customers[id := customers[id].(deleted := true)];
          }
      }
    }

    /** Any sequence of requests, some of which may fail, is a run of the specification and
        keeps the invariant. */
    method Serve(steps: seq<SettlementRuns.Step>)
      modifies this
      ensures Snapshot() == SettlementRuns.Run(old(Snapshot()), steps)
      ensures old(SettlementRuns.Inv(Snapshot())) ==> SettlementRuns.Inv(Snapshot())
    {
      for i := 0 to |steps|
        invariant SettlementRuns.Run(Snapshot(), steps[i..]) == SettlementRuns.Run(old(Snapshot()), steps)
      {
        assert steps[i..][0] == steps[i] && steps[i..][1..] == steps[i + 1..];
        if SettlementRuns.MovesMoney(steps[i]) {
          PerformMoney(steps[i]);
        } else {
          PerformOther(steps[i]);
        }
      }
      if old(SettlementRuns.Inv(Snapshot())) {
        SettlementRuns.RunKeeps(old(Snapshot()), steps);
      }
    }
  }
}
