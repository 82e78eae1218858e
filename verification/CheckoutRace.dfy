/** Checkouts and loyalty calls that overlap.  They read order and customer without a lock and
    write back the amounts they computed, so a commit in between is overwritten. */
module CheckoutRace {
  import opened Basics
  import opened Sums
  import opened RunningLedger
  import opened OrderWorkflow
  import opened Settlement
  import opened SettlementRuns
  import opened SettlementTheorems

  predicate Unlocked(step: Step) {
    step.CheckOut? || step.Earn? || step.Spend?
  }

  /** A call under way: what it has read, and what it was asked. */
  datatype Call = Call(seen: Till, step: Step)

  datatype Race = Race(till: Till, active: map<nat, Call>)

  /** `Alone` is a call of any service that nothing overlaps. */
  datatype Move = Start(id: nat, step: Step) | Finish(id: nat) | Alone(step: Step)

  // ---- What a call writes ----

  /** The columns of the order a call changed; the others keep what they hold by now. */
  function WrittenBill(now: Bill, seen: Bill, done: Bill): Bill {
    now.(status := if done.status != seen.status then done.status else now.status,
         paid := if done.paid != seen.paid then done.paid else now.paid,
         change := if done.change != seen.change then done.change else now.change,
         earned := if done.earned != seen.earned then done.earned else now.earned,
         redeemed := if done.redeemed != seen.redeemed then done.redeemed else now.redeemed)
  }

  predicate Grew(seen: Till, now: Till) {
    |seen.bills| <= |now.bills| && |seen.customers| <= |now.customers|
  }

  /** What a call leaves: its rows appended, and the balance and the order as it computed them. */
  function Written(now: Till, seen: Till, done: Till, step: Step): Till
    requires Grew(seen, now) && Grew(seen, done) && |seen.points| <= |done.points| && |seen.payments| <= |done.payments|
  {
    var entries := Appended(seen, done);
    var t := now.(points := now.points + entries, payments := now.payments + done.payments[|seen.payments|..]);
    var t1 := if entries == [] || entries[0].key >= |seen.customers| then t
              else
                var c := entries[0].key;
                t.(customers := now.customers[c := now.customers[c].(points := done.customers[c].points)]);
    if step.CheckOut? && step.id < |seen.bills|
    then t1.(bills := now.bills[step.id := WrittenBill(now.bills[step.id], seen.bills[step.id], done.bills[step.id])])
    else t1
  }

  /** What an unlocked call does to what it has read. */
  ghost predicate Posts(seen: Till, done: Till) {
    && Grew(seen, done) && |done.bills| == |seen.bills| && |done.customers| == |seen.customers|
    && |seen.points| <= |done.points| && done.points[..|seen.points|] == seen.points
    && |seen.payments| <= |done.payments|
    && var entries := Appended(seen, done);
       if entries == [] then done.customers == seen.customers
       else
         var c := entries[0].key;
         && c < |seen.customers|
         && (forall e :: e in entries ==> e.key == c && e.counts)
         && done.customers == seen.customers[c := seen.customers[c].(points := entries[|entries| - 1].after)]
         && entries[0].before == seen.customers[c].points && entries[0].after == entries[0].before + entries[0].change
         && (|entries| == 1 || (|entries| == 2 && entries[1].before == entries[0].after
                                && entries[1].after == entries[1].before + entries[1].change))
  }

  lemma CheckoutPosts(seen: Till, step: Step)
    requires step.CheckOut? && Apply(seen, step).Ok?
    ensures Posts(seen, Apply(seen, step).value)
  {
    var done := Apply(seen, step).value;
    if Checkoutable(seen.bills[step.id].status) {
      var (t0, redeemed) := Redeem(seen, step.id, step.redeem).value;
      var entries := Appended(seen, done);
      if step.redeem > 0 {
        assert t0.points == seen.points + [t0.points[|seen.points|]];
      }
      assert done.points[..|seen.points|] == seen.points;
    }
  }

  lemma UnlockedPosts(seen: Till, step: Step)
    requires Unlocked(step) && Apply(seen, step).Ok?
    ensures Posts(seen, Apply(seen, step).value)
  {
    if step.CheckOut? {
      CheckoutPosts(seen, step);
    }
  }

  // ---- The moves ----

  /** One move; None when it is not enabled.  A call that fails leaves nothing. */
  function Make(r: Race, m: Move): Option<Race> {
    match m
    case Start(id, step) =>
      if id !in r.active && Unlocked(step) then Some(r.(active := r.active[id := Call(r.till, step)])) else None
    case Finish(id) =>
      if id !in r.active then None
      else
        var call := r.active[id];
        var done := Apply(call.seen, call.step);
        if done.Err? then Some(r.(active := r.active - {id}))
        else if Grew(call.seen, r.till) && Grew(call.seen, done.value)
                && |call.seen.points| <= |done.value.points| && |call.seen.payments| <= |done.value.payments|
        then Some(Race(Written(r.till, call.seen, done.value, call.step), r.active - {id}))
        else None
    case Alone(step) => Some(r.(till := Next(r.till, step)))
  }

  function MakeAll(r: Race, ms: seq<Move>): Option<Race>
    decreases |ms|
  {
    if ms == [] then Some(r)
    else
      var r1 := Make(r, ms[0]);
      if r1.Some? then MakeAll(r1.value, ms[1..]) else None
  }

  ghost predicate RaceOk(r: Race) {
    forall id :: id in r.active ==> Unlocked(r.active[id].step) && Grew(r.active[id].seen, r.till)
  }

  lemma NextGrows(t: Till, step: Step)
    ensures Grew(t, Next(t, step))
  {
  }

  lemma MakeOk(r: Race, m: Move)
    requires RaceOk(r) && Make(r, m).Some?
    ensures RaceOk(Make(r, m).value)
  {
    if m.Alone? {
      NextGrows(r.till, m.step);
    }
  }

  /** A call that was started can always finish. */
  lemma CallsFinish(r: Race, id: nat)
    requires RaceOk(r) && id in r.active
    ensures Make(r, Finish(id)).Some?
  {
    var call := r.active[id];
    if Apply(call.seen, call.step).Ok? {
      UnlockedPosts(call.seen, call.step);
    }
  }

  // ---- Lost updates of the points balance ----

  /** What a balance holds beyond the sum of the customer's transactions. */
  function Gap(t: Till, c: nat): int
    requires c < |t.customers|
  {
    t.customers[c].points - Balance(t.points, c)
  }

  /** The finishing call posts transactions of this customer. */
  predicate PostsFor(r: Race, m: Move, c: nat) {
    m.Finish? && m.id in r.active &&
    var call := r.active[m.id];
    var done := Apply(call.seen, call.step);
    done.Ok? && |call.seen.points| < |done.value.points| && done.value.points[|call.seen.points|].key == c
  }

  /** By how much the balance a call has read misses the one it overwrites. */
  function Missed(r: Race, m: Move, c: nat): int {
    if PostsFor(r, m, c) && c < |r.active[m.id].seen.customers| && c < |r.till.customers|
    then r.active[m.id].seen.customers[c].points - r.till.customers[c].points else 0
  }

  function MissedAll(r: Race, ms: seq<Move>, c: nat): int
    decreases |ms|
  {
    if ms == [] || Make(r, ms[0]).None? then 0
    else Missed(r, ms[0], c) + MissedAll(Make(r, ms[0]).value, ms[1..], c)
  }

  /** The transactions of a call add up to the change of its customer's balance. */
  lemma PostsAddUp(seen: Till, done: Till, c: nat)
    requires Posts(seen, done) && c < |seen.customers|
    ensures done.customers[c].points == seen.customers[c].points + Balance(Appended(seen, done), c)
  {
    var entries := Appended(seen, done);
    if |entries| == 1 {
      assert entries == [] + [entries[0]];
      BalancePush([], entries[0], c);
    } else if |entries| == 2 {
      assert entries == [entries[0]] + [entries[1]] && [entries[0]] == [] + [entries[0]];
      BalancePush([], entries[0], c);
      BalancePush([entries[0]], entries[1], c);
    }
  }

  lemma PostsKeepGap(seen: Till, done: Till, c: nat)
    requires Posts(seen, done) && c < |seen.customers|
    ensures Gap(done, c) == Gap(seen, c)
  {
    PostsAddUp(seen, done, c);
    assert done.points == seen.points + Appended(seen, done);
    SumConcat(seen.points, Appended(seen, done), ChangeOf(c));
  }

  lemma ApprovalKeepsGap(t: Till, step: Step, c: nat)
    requires step.Approve? && Apply(t, step).Ok? && c < |t.customers|
    ensures c < |Apply(t, step).value.customers| && Gap(Apply(t, step).value, c) == Gap(t, c)
  {
    if !AlreadyApproved(t, step.id) {
      var bill := t.bills[t.slips[step.id].order];
      if ApprovalPoints(bill) > 0 {
        var owner, earned := bill.customer.value, ApprovalPoints(bill);
        var before := t.customers[owner].points;
        var entry := Entry(owner, earned, before, before + earned, true, EarnedBySlip(step.id));
        assert Approved(t, step.id).points == t.points + [entry];
        BalancePush(t.points, entry, c);
      }
    }
  }

  lemma NextKeepsGap(t: Till, step: Step, c: nat)
    requires c < |t.customers|
    ensures c < |Next(t, step).customers| && Gap(Next(t, step), c) == Gap(t, c)
  {
    if Apply(t, step).Ok? {
      if Unlocked(step) {
        UnlockedPosts(t, step);
        PostsKeepGap(t, Apply(t, step).value, c);
      } else if step.Approve? {
        ApprovalKeepsGap(t, step, c);
      }
    }
  }

  lemma WritesGap(now: Till, seen: Till, done: Till, step: Step, c: nat)
    requires Posts(seen, done) && Grew(seen, now) && c < |now.customers|
    ensures var t1 := Written(now, seen, done, step);
      var entries := Appended(seen, done);
      c < |t1.customers| &&
      var posts := entries != [] && entries[0].key == c;
      var missed := if posts then seen.customers[c].points - now.customers[c].points else 0;
      Gap(t1, c) == Gap(now, c) + missed
  {
    var entries := Appended(seen, done);
    SumConcat(now.points, entries, ChangeOf(c));
    if entries != [] && entries[0].key == c {
      PostsAddUp(seen, done, c);
    } else {
      forall k | 0 <= k < |entries| ensures ChangeOf(c)(entries[k]) == 0 {
        assert entries[k] in entries;
      }
      SumZero(entries, ChangeOf(c));
    }
  }

  lemma MakeMisses(r: Race, m: Move, c: nat)
    requires RaceOk(r) && Make(r, m).Some? && c < |r.till.customers|
    ensures var t1 := Make(r, m).value.till;
      c < |t1.customers| && Gap(t1, c) == Gap(r.till, c) + Missed(r, m, c)
  {
    if m.Alone? {
      NextKeepsGap(r.till, m.step, c);
    } else if m.Finish? && Apply(r.active[m.id].seen, r.active[m.id].step).Ok? {
      var call := r.active[m.id];
      UnlockedPosts(call.seen, call.step);
      WritesGap(r.till, call.seen, Apply(call.seen, call.step).value, call.step, c);
    }
  }

  /** However calls overlap, a points balance departs from the sum of its transactions by exactly
      what the finishing calls missed of the balances they overwrote. */
  lemma {:induction false} PointsDepartByWhatWasMissed(r: Race, ms: seq<Move>, c: nat)
    requires RaceOk(r) && MakeAll(r, ms).Some? && c < |r.till.customers|
    ensures var t1 := MakeAll(r, ms).value.till;
      c < |t1.customers| && Gap(t1, c) == Gap(r.till, c) + MissedAll(r, ms, c)
    decreases |ms|
  {
    if ms != [] {
      MakeOk(r, ms[0]);
      MakeMisses(r, ms[0], c);
      PointsDepartByWhatWasMissed(Make(r, ms[0]).value, ms[1..], c);
    }
  }

  /** So from a sound till a balance is the sum of its transactions exactly when what was missed
      cancels out. */
  lemma PointsAgreeExactlyWhenNothingIsMissed(t: Till, ms: seq<Move>, c: nat)
    requires PointsOk(t) && MakeAll(Race(t, map[]), ms).Some? && c < |t.customers|
    ensures var t1 := MakeAll(Race(t, map[]), ms).value.till;
      c < |t1.customers| && (t1.customers[c].points == Balance(t1.points, c) <==> MissedAll(Race(t, map[]), ms, c) == 0)
  {
    PointsDepartByWhatWasMissed(Race(t, map[]), ms, c);
  }

  // ---- When the transactions chain ----

  /** Every balance is the `points_after` of the customer's latest transaction. */
  ghost predicate LatestIs(t: Till) {
    EntriesOk(t) && forall c :: 0 <= c < |t.customers| ==> t.customers[c].points == LastAfter(t.points, c)
  }

  /** Where a call's transactions stop, and when they chain with those before them. */
  lemma PostsChain(es: seq<PointsEntry>, seen: Till, done: Till)
    requires Posts(seen, done) && Appended(seen, done) != []
    ensures var entries := Appended(seen, done);
      var c := entries[0].key;
      && (Chained(es + entries) <==> Chained(es) && seen.customers[c].points == LastAfter(es, c))
      && (forall k :: LastAfter(es + entries, k) == if k == c then done.customers[c].points else LastAfter(es, k))
  {
    var entries := Appended(seen, done);
    if |entries| == 1 {
      assert entries == [entries[0]];
      ChainedPushLast(es, entries[0]);
    } else {
      assert entries == [entries[0], entries[1]] && entries[0] in entries && entries[1] in entries;
      PairChains(es, entries[0], entries[1]);
    }
  }

  lemma PairChains(es: seq<PointsEntry>, first: PointsEntry, second: PointsEntry)
    requires first.counts && second.counts && second.key == first.key && first.after == first.before + first.change
    requires second.before == first.after && second.after == second.before + second.change
    ensures Chained(es + [first, second]) <==> Chained(es) && first.before == LastAfter(es, first.key)
    ensures forall k :: LastAfter(es + [first, second], k) == if k == first.key then second.after else LastAfter(es, k)
  {
    assert es + [first, second] == (es + [first]) + [second];
    ChainedPushLast(es, first);
    ChainedPushLast(es + [first], second);
  }

  lemma WritesLatest(now: Till, seen: Till, done: Till, step: Step)
    requires Posts(seen, done) && Grew(seen, now) && LatestIs(now)
    ensures var t1 := Written(now, seen, done, step);
      var entries := Appended(seen, done);
      && LatestIs(t1)
      && (Chained(t1.points) <==>
            Chained(now.points)
            && (entries == [] ||
                var c := entries[0].key; seen.customers[c].points == now.customers[c].points))
  {
    var entries := Appended(seen, done);
    if entries != [] {
      PostsChain(now.points, seen, done);
    } else {
      assert now.points + entries == now.points;
    }
  }

  lemma UnlockedLatest(t: Till, step: Step)
    requires Unlocked(step) && Apply(t, step).Ok? && LatestIs(t)
    ensures LatestIs(Apply(t, step).value) && (Chained(Apply(t, step).value.points) <==> Chained(t.points))
  {
    var done := Apply(t, step).value;
    UnlockedPosts(t, step);
    assert done.points == t.points + Appended(t, done);
    if Appended(t, done) != [] {
      PostsChain(t.points, t, done);
    } else {
      assert done.points == t.points;
    }
  }

  lemma ApprovalLatest(t: Till, step: Step)
    requires step.Approve? && Apply(t, step).Ok? && LatestIs(t)
    ensures LatestIs(Apply(t, step).value) && (Chained(Apply(t, step).value.points) <==> Chained(t.points))
  {
    if !AlreadyApproved(t, step.id) {
      var bill := t.bills[t.slips[step.id].order];
      if ApprovalPoints(bill) > 0 {
        var c := bill.customer.value;
        var before := t.customers[c].points;
        var entry := Entry(c, ApprovalPoints(bill), before, before + ApprovalPoints(bill), true, EarnedBySlip(step.id));
        assert Approved(t, step.id).points == t.points + [entry];
        ChainedPushLast(t.points, entry);
      }
    }
  }

  lemma NextLatest(t: Till, step: Step)
    requires LatestIs(t)
    ensures LatestIs(Next(t, step)) && (Chained(Next(t, step).points) <==> Chained(t.points))
  {
    if Apply(t, step).Ok? {
      if Unlocked(step) {
        UnlockedLatest(t, step);
      } else if step.Approve? {
        ApprovalLatest(t, step);
      } else if step.Enrol? {
        LastAfterUnknown(t.points, |t.customers|);
      }
    }
  }

  /** A call finishes on another balance than the one it has read. */
  predicate Overtaken(r: Race, m: Move) {
    m.Finish? && m.id in r.active &&
    var call := r.active[m.id];
    var done := Apply(call.seen, call.step);
    done.Ok? && |call.seen.points| < |done.value.points| &&
    var c := done.value.points[|call.seen.points|].key;
    c < |call.seen.customers| && c < |r.till.customers| && call.seen.customers[c].points != r.till.customers[c].points
  }

  predicate OvertakenFinishes(r: Race, ms: seq<Move>)
    decreases |ms|
  {
    ms != [] && Make(r, ms[0]).Some? && (Overtaken(r, ms[0]) || OvertakenFinishes(Make(r, ms[0]).value, ms[1..]))
  }

  lemma MakeChains(r: Race, m: Move)
    requires RaceOk(r) && LatestIs(r.till) && Make(r, m).Some?
    ensures var t1 := Make(r, m).value.till;
      LatestIs(t1) && (Chained(t1.points) <==> Chained(r.till.points) && !Overtaken(r, m))
  {
    if m.Alone? {
      NextLatest(r.till, m.step);
    } else if m.Finish? && Apply(r.active[m.id].seen, r.active[m.id].step).Ok? {
      var call := r.active[m.id];
      UnlockedPosts(call.seen, call.step);
      WritesLatest(r.till, call.seen, Apply(call.seen, call.step).value, call.step);
    }
  }

  /** From a till whose transactions chain, they still chain after any interleaving, and so sum
      to the balance, exactly when no call finishes on another balance than the one it has read. */
  lemma {:induction false} ChainsUnlessOvertaken(r: Race, ms: seq<Move>)
    requires RaceOk(r) && LatestIs(r.till) && MakeAll(r, ms).Some?
    ensures Chained(MakeAll(r, ms).value.till.points) <==> Chained(r.till.points) && !OvertakenFinishes(r, ms)
    decreases |ms|
  {
    if ms != [] {
      MakeOk(r, ms[0]);
      MakeChains(r, ms[0]);
      ChainsUnlessOvertaken(Make(r, ms[0]).value, ms[1..]);
    }
  }

  // ---- Charging an order twice ----

  /** The move checks the order out: it takes its payments. */
  predicate Charges(r: Race, m: Move, order: nat) {
    match m
    case Start(_, _) => false
    case Finish(id) => id in r.active && ChecksOut(r.active[id].seen, r.active[id].step, order)
    case Alone(step) => ChecksOut(r.till, step, order)
  }

  predicate ChecksOut(t: Till, step: Step, order: nat) {
    step.CheckOut? && step.id == order && TakesEffect(t, step.org, step.id, step.redeem, step.amounts, step.keyed)
  }

  function ChargeCount(r: Race, ms: seq<Move>, order: nat): nat
    decreases |ms|
  {
    if ms == [] || Make(r, ms[0]).None? then 0
    else (if Charges(r, ms[0], order) then 1 else 0) + ChargeCount(Make(r, ms[0]).value, ms[1..], order)
  }

  function UnderWay(r: Race, order: nat): set<nat> {
    set id | id in r.active && r.active[id].step.CheckOut? && r.active[id].step.id == order
  }

  /** The checkouts that were under way when the order was charged, after one more move. */
  function OverlappedAfter(r: Race, overlapped: set<nat>, m: Move, order: nat): set<nat> {
    var still := if Charges(r, m, order) then overlapped + UnderWay(r, order) else overlapped;
    if m.Finish? then still - {m.id} else still
  }

  /** A checkout charges the order although it was already charged while that one was under way. */
  predicate OverlapCharges(r: Race, overlapped: set<nat>, ms: seq<Move>, order: nat)
    decreases |ms|
  {
    ms != [] && Make(r, ms[0]).Some?
    && ((Charges(r, ms[0], order) && ms[0].Finish? && ms[0].id in overlapped)
        || OverlapCharges(Make(r, ms[0]).value, OverlappedAfter(r, overlapped, ms[0], order), ms[1..], order))
  }

  predicate SeenOpen(call: Call, order: nat) {
    order < |call.seen.bills| && !Settled(call.seen.bills[order].status)
  }

  /** Once charged, the order is settled, and calls that have seen it open overlapped the charge. */
  predicate OverlapOk(r: Race, overlapped: set<nat>, order: nat, charged: bool) {
    if charged then
      && order < |r.till.bills| && Settled(r.till.bills[order].status)
      && forall id :: id in UnderWay(r, order) && SeenOpen(r.active[id], order) ==> id in overlapped
    else overlapped == {}
  }

  lemma SettledAfterFinish(r: Race, id: nat, order: nat)
    requires RaceOk(r) && Make(r, Finish(id)).Some? && order < |r.till.bills|
    requires Settled(r.till.bills[order].status) || Charges(r, Finish(id), order)
    ensures var t1 := Make(r, Finish(id)).value.till;
      order < |t1.bills| && Settled(t1.bills[order].status)
  {
    var call := r.active[id];
    if Apply(call.seen, call.step).Ok? && call.step.CheckOut? && call.step.id == order {
      if TakesEffect(call.seen, call.step.org, order, call.step.redeem, call.step.amounts, call.step.keyed) {
        assert Apply(call.seen, call.step).value.bills[order].status == Paid;
      } else {
        assert Apply(call.seen, call.step).value == call.seen;
      }
    }
  }

  lemma SettledAfterAlone(r: Race, step: Step, order: nat)
    requires order < |r.till.bills|
    requires Settled(r.till.bills[order].status) || Charges(r, Alone(step), order)
    ensures order < |Next(r.till, step).bills| && Settled(Next(r.till, step).bills[order].status)
  {
    StatusMoves(r.till, step, order);
    if Charges(r, Alone(step), order) {
      assert Next(r.till, step).bills[order].status == Paid;
    }
  }

  lemma MakeOverlaps(r: Race, overlapped: set<nat>, m: Move, order: nat, charged: bool)
    requires RaceOk(r) && OverlapOk(r, overlapped, order, charged) && Make(r, m).Some?
    ensures OverlapOk(Make(r, m).value, OverlappedAfter(r, overlapped, m, order), order,
                      charged || Charges(r, m, order))
  {
    if charged || Charges(r, m, order) {
      if m.Finish? {
        SettledAfterFinish(r, m.id, order);
      } else if m.Alone? {
        SettledAfterAlone(r, m.step, order);
      }
    }
  }

  /** In any interleaving an order is charged at most once exactly when no checkout charges it
      that was under way when it was charged. */
  lemma {:induction false} ChargedOnce(r: Race, overlapped: set<nat>, ms: seq<Move>, order: nat, charged: bool)
    requires RaceOk(r) && OverlapOk(r, overlapped, order, charged)
    ensures ChargeCount(r, ms, order) <= (if charged then 0 else 1) <==> !OverlapCharges(r, overlapped, ms, order)
    decreases |ms|
  {
    if ms != [] && Make(r, ms[0]).Some? {
      MakeOk(r, ms[0]);
      MakeOverlaps(r, overlapped, ms[0], order, charged);
      ChargedOnce(Make(r, ms[0]).value, OverlappedAfter(r, overlapped, ms[0], order), ms[1..], order,
                  charged || Charges(r, ms[0], order));
    }
  }

  lemma ChargedOnceUnlessOverlapped(t: Till, ms: seq<Move>, order: nat)
    ensures ChargeCount(Race(t, map[]), ms, order) <= 1 <==> !OverlapCharges(Race(t, map[]), {}, ms, order)
  {
    ChargedOnce(Race(t, map[]), {}, ms, order, false);
  }

  // ---- Two checkouts of one order ----

  const PAY_TEN := CheckOut(1, 0, 0, [1000], false)

  const BOTH := [Start(0, PAY_TEN), Start(1, PAY_TEN), Finish(0), Finish(1)]

  /** The till after one of the checkouts, with `n` payments and earnings recorded. */
  function PaidTill(n: nat): Till {
    Till([Bill(1, Some(0), Paid, 1000, 1000, 0, 10, 0)], [Customer(1, false, 20)],
         [Entry(0, 10, 0, 10, true, Manual)] + seq(n, _ => Entry(0, 10, 10, 20, true, EarnedAtCheckout(0))),
         seq(n, _ => Payment(0, 1000)), [], [])
  }

  lemma PaysTen()
    ensures Apply(PreparedTill(1000), PAY_TEN) == Ok(PaidTill(1))
  {
    assert [1000] == [] + [1000];
    SumPush([], 1000, Itself());
    var t, entry := PreparedTill(1000), Entry(0, 10, 10, 20, true, EarnedAtCheckout(0));
    assert PaymentRows(0, [1000]) == seq(1, _ => Payment(0, 1000));
    assert t.payments + PaymentRows(0, [1000]) == PaidTill(1).payments;
    assert Redeem(t, 0, 0) == Ok((t, 0)) && EarnedOn(t.bills[0], 0) == 10;
    assert seq(1, _ => entry) == [entry] && t.points + [entry] == PaidTill(1).points;
    assert PostPoints(t, 0, 10, EarnedAtCheckout(0)).customers == PaidTill(1).customers;
    assert Settle(t, 0, 0, 0, [1000]).Ok?;
    assert Settle(t, 0, 0, 0, [1000]).value.bills == PaidTill(1).bills;
    assert Settle(t, 0, 0, 0, [1000]).value == PaidTill(1);
  }

  /** An order of 10 baht is paid twice, both payments earn 10 points on the 10 the customer had,
      and the balance shows 20 where the transactions sum to 30. */
  lemma BothCharge()
    ensures var t := MakeAll(Race(Run(EMPTY, Prepared(1000)), map[]), BOTH);
      && t.Some? && |t.value.till.payments| == 2 && |t.value.till.customers| == 1
      && t.value.till.customers[0].points == 20 && Balance(t.value.till.points, 0) == 30
  {
    Prepares(1000);
    PaysTen();
    var t := PreparedTill(1000);
    var call := Call(t, PAY_TEN);
    var r1, r2 := Race(t, map[0 := call]), Race(t, map[0 := call, 1 := call]);
    var r3, r4 := Race(PaidTill(1), map[1 := call]), Race(PaidTill(2), map[]);
    assert r1.active[1 := call] == r2.active && r2.active - {0} == r3.active && r3.active - {1} == r4.active;
    assert Make(Race(t, map[]), BOTH[0]) == Some(r1);
    assert Make(r1, BOTH[1]) == Some(r2);
    FirstFinish();
    SecondFinish();
    MakeFour(Race(t, map[]), r1, r2, r3);
    ThirtyInAll();
  }

  lemma ThirtyInAll()
    ensures Balance(PaidTill(2).points, 0) == 30
  {
    var es := PaidTill(2).points;
    assert es == (([] + [es[0]]) + [es[1]]) + [es[2]];
    BalancePush([], es[0], 0);
    BalancePush([] + [es[0]], es[1], 0);
    BalancePush(([] + [es[0]]) + [es[1]], es[2], 0);
  }

  lemma FirstFinish()
    ensures Written(PreparedTill(1000), PreparedTill(1000), PaidTill(1), PAY_TEN) == PaidTill(1)
  {
  }

  lemma SecondFinish()
    ensures Written(PaidTill(1), PreparedTill(1000), PaidTill(1), PAY_TEN) == PaidTill(2)
  {
  }

  lemma MakeFour(r: Race, r1: Race, r2: Race, r3: Race)
    requires Make(r, BOTH[0]) == Some(r1) && Make(r1, BOTH[1]) == Some(r2) && Make(r2, BOTH[2]) == Some(r3)
    ensures MakeAll(r, BOTH) == Make(r3, BOTH[3])
  {
    assert BOTH[1..][1..] == BOTH[2..] && BOTH[2..][1..] == BOTH[3..] && BOTH[3..][1..] == [];
    assert MakeAll(r3, BOTH[3..]) == Make(r3, BOTH[3]);
    assert MakeAll(r2, BOTH[2..]) == MakeAll(r3, BOTH[3..]);
    assert MakeAll(r1, BOTH[1..]) == MakeAll(r2, BOTH[2..]);
  }
}
