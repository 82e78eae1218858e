/** How an order's `amount_paid`, which checkout and slip approval overwrite, relates to its
    payment and refund rows. */
module PaymentBound {
  import opened Basics
  import opened Sums
  import opened OrderWorkflow
  import opened FraudScore
  import opened Settlement
  import opened SettlementRuns
  import opened SettlementTheorems

  function PaidFor(id: nat): Payment -> int {
    (p: Payment) => if p.order == id then p.amount else 0
  }

  function RefundedFor(id: nat): Refund -> int {
    (r: Refund) => if r.order == id then r.amount else 0
  }

  /** What is left of an order's payments after its refunds. */
  function Net(t: Till, id: nat): int {
    Sum(t.payments, PaidFor(id)) - Sum(t.refunds, RefundedFor(id))
  }

  /** `amount_paid` is backed by payments that were not refunded. */
  predicate Bounded(t: Till, id: nat) {
    id < |t.bills| ==> 0 <= t.bills[id].paid <= Net(t, id)
  }

  /** Approval that takes effect, for this order, of a slip that already has its payment. */
  predicate Reapproves(t: Till, step: Step, id: nat) {
    step.Approve? && ApproveSlip(t, step.org, step.id).Ok? && !AlreadyApproved(t, step.id)
    && t.slips[step.id].payment.Some? && t.slips[step.id].order == id
  }

  /** A re-approved slip must still be covered by what was paid and not refunded. */
  predicate Covered(t: Till, step: Step, id: nat) {
    Reapproves(t, step, id) ==> SlipAmount(t.slips[step.id], t.bills[id]) <= Net(t, id)
  }

  /** Payments, not refunded, that `amount_paid` does not account for. */
  function Forgotten(t: Till, id: nat): int
    requires id < |t.bills|
  {
    Net(t, id) - t.bills[id].paid
  }

  /** Steps that set `amount_paid` to their own payments, whatever was paid before. */
  predicate Overwrites(t: Till, step: Step, id: nat) {
    || (step.CheckOut? && step.id == id && TakesEffect(t, step.org, id, step.redeem, step.amounts, step.keyed))
    || (step.Approve? && ApproveSlip(t, step.org, step.id).Ok? && !AlreadyApproved(t, step.id)
        && t.slips[step.id].payment.None? && t.slips[step.id].order == id)
  }

  /** What a step leaves forgotten: everything before an overwrite, all but the slip's amount
      after a re-approval, and otherwise what was forgotten before. */
  ghost predicate ForgetsExactly(t: Till, step: Step, id: nat)
    requires id < |t.bills|
  {
    var t1 := Next(t, step);
    id < |t1.bills| &&
    Forgotten(t1, id) == if Overwrites(t, step, id) then Net(t, id)
                         else if Reapproves(t, step, id) then Net(t, id) - SlipAmount(t.slips[step.id], t.bills[id])
                         else Forgotten(t, id)
  }

  // ---- Sums over the rows a step appends ----

  lemma {:induction false} PaymentRowsSum(id: nat, amounts: seq<int>, order: nat)
    ensures Sum(PaymentRows(id, amounts), PaidFor(order)) == if id == order then Sum(amounts, Itself()) else 0
  {
    if amounts != [] {
      var n := |amounts| - 1;
      PaymentRowsSum(id, amounts[..n], order);
      assert PaymentRows(id, amounts)[..n] == PaymentRows(id, amounts[..n]);
    }
  }

  lemma NoRowsYet(t: Till, id: nat)
    requires SlipsOk(t) && id >= |t.bills|
    ensures Net(t, id) == 0
  {
    forall k | 0 <= k < |t.payments| ensures PaidFor(id)(t.payments[k]) == 0 {
      assert t.payments[k] in t.payments;
    }
    forall k | 0 <= k < |t.refunds| ensures RefundedFor(id)(t.refunds[k]) == 0 {
      assert t.refunds[k] in t.refunds;
    }
    SumZero(t.payments, PaidFor(id));
    SumZero(t.refunds, RefundedFor(id));
  }

  // ---- One step ----

  lemma CheckoutBounded(t: Till, step: Step, id: nat)
    requires step.CheckOut? && id < |t.bills|
    ensures ForgetsExactly(t, step, id) && (Bounded(t, id) ==> Bounded(Next(t, step), id))
  {
    if Apply(t, step).Ok? && Checkoutable(t.bills[step.id].status) {
      var rows := PaymentRows(step.id, step.amounts);
      CheckoutRows(t, step);
      SumConcat(t.payments, rows, PaidFor(id));
      PaymentRowsSum(step.id, step.amounts, id);
      AmountsNonNegative(step.amounts);
    }
  }

  lemma AmountsNonNegative(amounts: seq<int>)
    requires forall a :: a in amounts ==> a > 0
    ensures Sum(amounts, Itself()) >= 0
  {
    forall k | 0 <= k < |amounts| ensures Itself()(amounts[k]) >= 0 {
      assert amounts[k] in amounts;
    }
    SumNonNegative(amounts, Itself());
  }

  /** What a checkout does to payments, refunds and the paid amounts. */
  lemma CheckoutRows(t: Till, step: Step)
    requires step.CheckOut? && Apply(t, step).Ok? && Checkoutable(t.bills[step.id].status)
    ensures var t1 := Apply(t, step).value;
      && t1.payments == t.payments + PaymentRows(step.id, step.amounts) && t1.refunds == t.refunds
      && |t1.bills| == |t.bills| && t1.bills[step.id].paid == Sum(step.amounts, Itself())
      && (forall i :: 0 <= i < |t.bills| && i != step.id ==> t1.bills[i] == t.bills[i])
      && (forall a :: a in step.amounts ==> a > 0)
  {
  }

  lemma PayBounded(t: Till, order: nat, amount: int, id: nat)
    requires order < |t.bills| && id < |t.bills| && Pay(t, order, amount).Ok?
    ensures var t1 := Pay(t, order, amount).value;
      id < |t1.bills| && Forgotten(t1, id) == Forgotten(t, id) && (Bounded(t, id) ==> Bounded(t1, id))
  {
    SumPush(t.payments, Payment(order, amount), PaidFor(id));
  }

  lemma SubmitBounded(t: Till, step: Step, id: nat)
    requires step.Submit? && id < |t.bills|
    ensures ForgetsExactly(t, step, id) && (Bounded(t, id) ==> Bounded(Next(t, step), id))
  {
    if Apply(t, step).Ok? && step.outcome == SlipVerified && t.bills[step.id].status != Completed {
      PayBounded(t, step.id, if step.read.Some? then step.read.value else t.bills[step.id].grandTotal, id);
    }
  }

  lemma RefundBounded(t: Till, step: Step, id: nat)
    requires step.GiveRefund? && id < |t.bills|
    ensures ForgetsExactly(t, step, id) && (Bounded(t, id) ==> Bounded(Next(t, step), id))
  {
    SumPush(t.refunds, Refund(step.id, step.amount), RefundedFor(id));
  }

  lemma ApprovalForgets(t: Till, step: Step, id: nat)
    requires step.Approve? && id < |t.bills|
    ensures ForgetsExactly(t, step, id)
  {
    var r := ApproveSlip(t, step.org, step.id);
    if r.Ok? && !AlreadyApproved(t, step.id) && t.slips[step.id].payment.None? {
      var slip := t.slips[step.id];
      SumPush(t.payments, Payment(slip.order, SlipAmount(slip, t.bills[slip.order])), PaidFor(id));
    }
  }

  /** A first approval records its payment; a repeated one is bounded exactly when covered. */
  lemma ApprovalBounded(t: Till, step: Step, id: nat)
    requires step.Approve? && SlipsOk(t) && id < |t.bills| && Bounded(t, id)
    ensures Bounded(Next(t, step), id) <==> Covered(t, step, id)
  {
    ApprovalForgets(t, step, id);
    var r := ApproveSlip(t, step.org, step.id);
    if r.Ok? && !AlreadyApproved(t, step.id) {
      var slip := t.slips[step.id];
      assert SlipOk(t, step.id);
      if slip.payment.Some? {
        assert t.payments[slip.payment.value] in t.payments;
      }
    }
  }

  /** Every step forgets exactly what it overwrites: payments and refunds keep `amount_paid` in
      step with their rows, and only checkout and slip approval let go of earlier payments. */
  lemma StepForgets(t: Till, step: Step, id: nat)
    requires id < |t.bills|
    ensures ForgetsExactly(t, step, id)
  {
    match step {
      case CheckOut(_, _, _, _, _) => CheckoutBounded(t, step, id);
      case TakePayment(org, order, amount) =>
        if CreatePayment(t, org, order, amount).Ok? {
          PayBounded(t, order, amount, id);
        }
      case GiveRefund(_, _, _) => RefundBounded(t, step, id);
      case Submit(_, _, _, _, _) => SubmitBounded(t, step, id);
      case Approve(_, _) => ApprovalForgets(t, step, id);
      case _ =>
    }
  }

  lemma NewBillBounded(t: Till, step: Step, id: nat)
    requires SlipsOk(t) && id >= |t.bills|
    ensures Bounded(Next(t, step), id) && !Reapproves(t, step, id)
  {
    NoRowsYet(t, id);
  }

  /** From a state where the bound holds, a step breaks it exactly when it re-approves a slip
      that the remaining payments no longer cover. */
  lemma StepBounded(t: Till, step: Step, id: nat)
    requires SlipsOk(t) && Bounded(t, id)
    ensures Bounded(Next(t, step), id) <==> Covered(t, step, id)
  {
    if id >= |t.bills| {
      NewBillBounded(t, step, id);
    } else {
      match step {
        case CheckOut(_, _, _, _, _) => CheckoutBounded(t, step, id);
        case TakePayment(org, order, amount) =>
          if CreatePayment(t, org, order, amount).Ok? {
            PayBounded(t, order, amount, id);
          }
        case GiveRefund(_, _, _) => RefundBounded(t, step, id);
        case Submit(_, _, _, _, _) => SubmitBounded(t, step, id);
        case Approve(_, _) => ApprovalBounded(t, step, id);
        case _ =>
      }
    }
  }

  // ---- Whole runs ----

  predicate CoveredAlong(t: Till, steps: seq<Step>, id: nat)
    decreases |steps|
  {
    steps == [] || (Covered(t, steps[0], id) && CoveredAlong(Next(t, steps[0]), steps[1..], id))
  }

  predicate BoundedAlong(t: Till, steps: seq<Step>, id: nat)
    decreases |steps|
  {
    Bounded(t, id) && (steps == [] || BoundedAlong(Next(t, steps[0]), steps[1..], id))
  }

  /** 0 <= amount_paid <= payments - refunds holds after every step of a run exactly when every
      re-approval in it is covered. */
  lemma {:induction false} BoundedExactlyWhenCovered(t: Till, steps: seq<Step>, id: nat)
    requires Inv(t) && Bounded(t, id)
    ensures BoundedAlong(t, steps, id) <==> CoveredAlong(t, steps, id)
    decreases |steps|
  {
    if steps != [] {
      StepBounded(t, steps[0], id);
      if Covered(t, steps[0], id) {
        RunKeeps(t, steps[..1]);
        assert Run(t, steps[..1]) == Next(t, steps[0]);
        BoundedExactlyWhenCovered(Next(t, steps[0]), steps[1..], id);
      }
    }
  }

  lemma {:induction false} BoundedAtTheEnd(t: Till, steps: seq<Step>, id: nat)
    requires BoundedAlong(t, steps, id)
    ensures Bounded(Run(t, steps), id)
    decreases |steps|
  {
    if steps != [] {
      BoundedAtTheEnd(Next(t, steps[0]), steps[1..], id);
    }
  }

  predicate ReapprovesNever(t: Till, steps: seq<Step>, id: nat)
    decreases |steps|
  {
    steps == [] || (!Reapproves(t, steps[0], id) && ReapprovesNever(Next(t, steps[0]), steps[1..], id))
  }

  lemma {:induction false} NothingToCover(t: Till, steps: seq<Step>, id: nat)
    requires ReapprovesNever(t, steps, id)
    ensures CoveredAlong(t, steps, id)
    decreases |steps|
  {
    if steps != [] {
      NothingToCover(Next(t, steps[0]), steps[1..], id);
    }
  }

  /** So over any run without a re-approval refunds never exceed what was paid. */
  lemma RefundsNeverExceedPayments(steps: seq<Step>, id: nat)
    requires ReapprovesNever(EMPTY, steps, id) && id < |Run(EMPTY, steps).bills|
    ensures 0 <= Run(EMPTY, steps).bills[id].paid <= Net(Run(EMPTY, steps), id)
  {
    EmptyOk();
    NothingToCover(EMPTY, steps, id);
    BoundedExactlyWhenCovered(EMPTY, steps, id);
    BoundedAtTheEnd(EMPTY, steps, id);
  }

  predicate OverwritesNever(t: Till, steps: seq<Step>, id: nat)
    decreases |steps|
  {
    steps == [] || (!Overwrites(t, steps[0], id) && !Reapproves(t, steps[0], id)
        && OverwritesNever(Next(t, steps[0]), steps[1..], id))
  }

  /** Over any run without checkout or approval of an order, its `amount_paid` moves by exactly
      its payments less its refunds. */
  lemma {:induction false} PaidFollowsItsRows(t: Till, steps: seq<Step>, id: nat)
    requires id < |t.bills| && OverwritesNever(t, steps, id)
    ensures id < |Run(t, steps).bills|
    ensures Run(t, steps).bills[id].paid - t.bills[id].paid == Net(Run(t, steps), id) - Net(t, id)
    decreases |steps|
  {
    if steps != [] {
      StepForgets(t, steps[0], id);
      PaidFollowsItsRows(Next(t, steps[0]), steps[1..], id);
    }
  }

  /** An order that never gave a refund covers every slip of its own. */
  lemma UnrefundedIsCovered(t: Till, step: Step, id: nat)
    requires SlipsOk(t) && forall r :: r in t.refunds ==> r.order != id
    ensures Covered(t, step, id)
  {
    if Reapproves(t, step, id) {
      var slip := t.slips[step.id];
      assert SlipOk(t, step.id);
      forall k | 0 <= k < |t.payments| ensures PaidFor(id)(t.payments[k]) >= 0 {
        assert t.payments[k] in t.payments;
      }
      SumBoundsRow(t.payments, slip.payment.value, PaidFor(id));
      forall k | 0 <= k < |t.refunds| ensures RefundedFor(id)(t.refunds[k]) == 0 {
        assert t.refunds[k] in t.refunds;
      }
      SumZero(t.refunds, RefundedFor(id));
    }
  }

  /** An order of 100 cents, paid by its one slip. */
  const SETTLED := Till([Bill(1, None, Paid, 100, 100, 0, 0, 0)], [], [], [Payment(0, 100)], [],
                        [Slip(0, SlipVerified, Some(100), None, Some(0))])

  const SETTLING := [Open(1, None, 100), Submit(1, 0, Some(100), None, SlipPending), Approve(1, 0)]

  lemma SettlesBySlip()
    ensures Run(EMPTY, SETTLING + [Complete(1, 0), GiveRefund(1, 0, 100), Approve(1, 0)])
         == Run(SETTLED, [Complete(1, 0), GiveRefund(1, 0, 100), Approve(1, 0)])
  {
    var placed := EMPTY.(bills := [Bill(1, None, Pending, 100, 0, 0, 0, 0)]);
    var submitted := placed.(slips := [Slip(0, SlipPending, Some(100), None, None)]);
    assert Next(EMPTY, SETTLING[0]) == placed;
    assert Next(placed, SETTLING[1]) == submitted;
    assert Next(submitted, SETTLING[2]) == SETTLED;
    RunThree(EMPTY, SETTLING[0], SETTLING[1], SETTLING[2], [Complete(1, 0), GiveRefund(1, 0, 100), Approve(1, 0)]);
  }

  lemma ApprovedOnceMore()
    ensures Run(SETTLED, [Complete(1, 0), GiveRefund(1, 0, 100), Approve(1, 0)])
        == SETTLED.(refunds := [Refund(0, 100)])
  {
    var completed := SETTLED.(bills := [Bill(1, None, Completed, 100, 100, 0, 0, 0)]);
    var refunded := SETTLED.(bills := [Bill(1, None, Completed, 100, 0, 0, 0, 0)], refunds := [Refund(0, 100)]);
    assert Next(SETTLED, Complete(1, 0)) == completed;
    assert Next(completed, GiveRefund(1, 0, 100)) == refunded;
    assert Next(refunded, Approve(1, 0)) == SETTLED.(refunds := [Refund(0, 100)]);
    RunThree(SETTLED, Complete(1, 0), GiveRefund(1, 0, 100), Approve(1, 0), []);
    assert [Complete(1, 0), GiveRefund(1, 0, 100), Approve(1, 0)] + []
        == [Complete(1, 0), GiveRefund(1, 0, 100), Approve(1, 0)];
  }

  /** Pay by slip, complete, refund, approve the slip again: the order counts as paid although
      its only payment was given back. */
  lemma ReapprovalRestoresARefundedPayment()
    ensures var t := Run(EMPTY, SETTLING + [Complete(1, 0), GiveRefund(1, 0, 100), Approve(1, 0)]);
      |t.bills| == 1 && t.bills[0].paid == 100 && Net(t, 0) == 0 && !Bounded(t, 0)
  {
    SettlesBySlip();
    ApprovedOnceMore();
    assert [Payment(0, 100)] == [] + [Payment(0, 100)] && [Refund(0, 100)] == [] + [Refund(0, 100)];
    SumPush([], Payment(0, 100), PaidFor(0));
    SumPush([], Refund(0, 100), RefundedFor(0));
  }
}
