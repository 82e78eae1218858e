/** What every run of the stock services guarantees. */
module StockTheorems {
  import opened Basics
  import opened Sums
  import opened RunningLedger
  import opened StockBooks
  import opened OrderWorkflow
  import opened StockData
  import opened OrderStock
  import opened TransferStock
  import opened PurchaseStock
  import opened ReturnStock
  import opened StockRuns

  // ---- Ledger ----

  /** After any run, every balance is the sum of its movements and the `quantity_after` of the
      latest of them, no balance is negative, and the movements chain. */
  lemma LedgerAlwaysAgrees(branches: seq<nat>, products: seq<Product>, steps: seq<Step>, cell: Cell)
    ensures var b := Run(Opening(branches, products), steps).books;
      && At(b.onHand, cell) == Balance(b.movements, cell) == LastAfter(b.movements, cell)
      && At(b.onHand, cell) >= 0
      && Chained(b.movements) && NonNegative(b.movements)
  {
    OpeningOk(branches, products);
    RunKeeps(Opening(branches, products), steps);
    ChainedBalance(Run(Opening(branches, products), steps).books.movements, cell);
  }

  // ---- Transfers ----

  /** Stock on hand anywhere plus stock shipped and not received. */
  ghost function Owned(db: Db, product: nat): int {
    TotalOnHand(db.books, product) + Transit(db.transfers, product)
  }

  lemma OwnedIsExternal(db: Db, product: nat)
    requires Inv(db)
    ensures Owned(db, product) == Tally(db.books.movements, ExternalOf(product))
  {
    StockSplits(db.books.movements, product);
    assert Transit(db.transfers, product) == -Tally(db.books.movements, TransferOf(product));
    assert TotalOnHand(db.books, product) == Tally(db.books.movements, StockOf(product));
  }

  /** After any run, what is owned of a product is what sales, adjustments, purchases and
      returns brought in; transfers neither make nor lose any of it. */
  lemma StockIsConserved(branches: seq<nat>, products: seq<Product>, steps: seq<Step>, product: nat)
    ensures var db := Run(Opening(branches, products), steps);
      Owned(db, product) == Tally(db.books.movements, ExternalOf(product))
  {
    OpeningOk(branches, products);
    RunKeeps(Opening(branches, products), steps);
    OwnedIsExternal(Run(Opening(branches, products), steps), product);
  }

  predicate IsTransferStep(step: Step) {
    step.DraftTransfer? || step.ClearTransfer? || step.Ship? || step.Receive? || step.WithdrawTransfer?
  }

  /** The postings of a transfer step are all transfer movements. */
  lemma TransferBooks(db: Db, step: Step, product: nat) returns (ps: seq<Posting>)
    requires Inv(db) && IsTransferStep(step) && Apply(db, step).Ok?
    ensures Apply(db, step).value.books == EnteredAll(db.books, ps)
    ensures Sum(ps, ExternalOf(product)) == 0
  {
    ps := [];
    match step {
      case Ship(org, id, lines) =>
        var t := db.transfers[id];
        assert t in db.transfers && TransferOk(t);
        ps := ShipAllMoves(Shipping(db.books, t.items), id, t.source, lines);
      case Receive(org, id, lines) =>
        var t := db.transfers[id];
        ps := ReceiveAllMoves(Receiving(Session(db.books, {}, false), t.items), id, t.dest, lines);
      case _ =>
    }
    SumZero(ps, ExternalOf(product));
  }

  /** No transfer step changes what is owned of any product. */
  lemma TransfersConserve(db: Db, step: Step, product: nat)
    requires Inv(db) && IsTransferStep(step)
    ensures Owned(Next(db, step), product) == Owned(db, product)
  {
    if Apply(db, step).Ok? {
      ApplyKeeps(db, step);
      var ps := TransferBooks(db, step, product);
      TallyEntered(db.books, ps, ExternalOf(product));
      OwnedIsExternal(db, product);
      OwnedIsExternal(Next(db, step), product);
    }
  }

  /** After any run every transfer item keeps received + damaged <= shipped <= requested, and
      a withdrawn transfer shipped nothing. */
  lemma TransfersStayWithinRequest(branches: seq<nat>, products: seq<Product>, steps: seq<Step>, t: Transfer,
      item: TransferItem)
    requires t in Run(Opening(branches, products), steps).transfers && item in t.items
    ensures 0 <= item.received && 0 <= item.damaged && item.received + item.damaged <= item.shipped <= item.requested
    ensures t.status == Withdrawn ==> item.shipped == 0
    ensures t.source != t.dest
  {
    OpeningOk(branches, products);
    RunKeeps(Opening(branches, products), steps);
  }

  /** A receipt of a shipped transfer is accepted exactly when, over all its lines, nothing is
      reported that was not shipped, all damage is covered, and no missing row is added twice. */
  lemma ReceiptAcceptedExactly(db: Db, org: nat, id: nat, lines: seq<ReceiveLine>)
    requires Inv(db) && OwnsTransfer(db, org, id) && db.transfers[id].status == InTransit
    ensures ReceiveTransfer(db, org, id, lines).Ok?
       <==> CanReceive(Session(db.books, {}, false), db.transfers[id].items, db.transfers[id].dest, lines)
  {
    var t := db.transfers[id];
    assert t in db.transfers && TransferOk(t);
    assert forall i :: 0 <= i < |t.items| ==> t.items[i] in t.items;
    var r := Receiving(Session(db.books, {}, false), t.items);
    ReceivesExactlyWhenCovered(r, id, t.dest, lines);
    if ReceiveAll(r, id, t.dest, lines).Ok? {
      ReceivedItemsStorable(r, id, t.dest, lines);
    }
  }

  /** The loop changes only what was received and damaged. */
  lemma {:induction false} ReceivedItemsStorable(r: Receiving, id: nat, dest: nat, lines: seq<ReceiveLine>)
    requires ReceiveAll(r, id, dest, lines).Ok?
    requires forall i :: 0 <= i < |r.items| ==>
        0 <= r.items[i].received && 0 <= r.items[i].damaged && r.items[i].shipped <= r.items[i].requested
    ensures var items := ReceiveAll(r, id, dest, lines).value.items;
      ItemsStorable(items) <==> forall i :: 0 <= i < |items| ==>
          items[i].received + items[i].damaged <= items[i].shipped
    decreases |lines|
  {
    if lines != [] {
      ReceivedItemsStorable(ReceiveOne(r, id, dest, lines[0]).value, id, dest, lines[1..]);
    } else {
      assert forall i :: 0 <= i < |r.items| ==> r.items[i] in r.items;
    }
  }

  /** A receipt line that reports only damage is never accepted: its movement would start at 0
      and end below it. */
  lemma DamageAloneIsRefused(db: Db, org: nat, id: nat, lines: seq<ReceiveLine>, i: nat)
    requires i < |lines| && lines[i].received == 0 && lines[i].damaged > 0
    ensures ReceiveTransfer(db, org, id, lines).Err?
  {
    if OwnsTransfer(db, org, id) {
      var t := db.transfers[id];
      DamageAloneBreaks(Receiving(Session(db.books, {}, false), t.items), id, t.dest, lines, i);
    }
  }

  lemma {:induction false} DamageAloneBreaks(r: Receiving, id: nat, dest: nat, lines: seq<ReceiveLine>, i: nat)
    requires i < |lines| && lines[i].received == 0 && lines[i].damaged > 0
    ensures var s := ReceiveAll(r, id, dest, lines); s.Ok? ==> s.value.session.broken
    decreases |lines|
  {
    var first := ReceiveOne(r, id, dest, lines[0]);
    if first.Ok? && ReceiveAll(r, id, dest, lines).Ok? {
      if i == 0 {
        ReceiveAllStaysBroken(first.value, id, dest, lines[1..]);
      } else {
        DamageAloneBreaks(first.value, id, dest, lines[1..], i - 1);
      }
    }
  }

  // ---- Orders ----

  /** After any run two orders never share an idempotency key. */
  lemma OneOrderPerKey(branches: seq<nat>, products: seq<Product>, steps: seq<Step>, i: nat, k: nat)
    requires var orders := Run(Opening(branches, products), steps).orders;
      i < |orders| && k < |orders| && orders[i].key.Some? && orders[i].key == orders[k].key
    ensures i == k
  {
    OpeningOk(branches, products);
    RunKeeps(Opening(branches, products), steps);
  }

  /** Orders keep their place, owner, key and lines, and stay cancelled once cancelled. */
  predicate SameOrder(o: Order, o1: Order) {
    o1.org == o.org && o1.branch == o.branch && o1.key == o.key && o1.lines == o.lines
    && (o.cancelled ==> o1.cancelled)
  }

  lemma OrderKept(db: Db, step: Step, id: nat)
    requires id < |db.orders|
    ensures id < |Next(db, step).orders| && SameOrder(db.orders[id], Next(db, step).orders[id])
  {
    match step {
      case PlaceOrder(_) =>
      case Cancel(_, _) =>
      case Progress(_, _) =>
      case _ => assert Next(db, step).orders == db.orders;
    }
  }

  lemma {:induction false} OrdersPersist(db: Db, steps: seq<Step>, id: nat)
    requires id < |db.orders|
    ensures var orders := Run(db, steps).orders;
      id < |orders| && SameOrder(db.orders[id], orders[id])
    decreases |steps|
  {
    if steps != [] {
      OrderKept(db, steps[0], id);
      OrdersPersist(Next(db, steps[0]), steps[1..], id);
    }
  }

  /** Re-sending a request with its key, however much later, returns the first order and
      changes nothing. */
  lemma ReplayReturnsTheFirstOrder(db: Db, q: OrderRequest, again: OrderRequest, steps: seq<Step>)
    requires Inv(db) && CreateOrder(db, q).Ok?
    requires q.key.Some? && q.key.value != "" && again.key == q.key && again.org == q.org
    ensures var (db1, id) := CreateOrder(db, q).value;
      CreateOrder(Run(db1, steps), again) == Ok((Run(db1, steps), id))
  {
    var (db1, id) := CreateOrder(db, q).value;
    CreateOrderKeeps(db, q);
    RunKeeps(db1, steps);
    OrdersPersist(db1, steps, id);
    KeyFinds(Run(db1, steps), id, again);
  }

  lemma KeyFinds(db: Db, id: nat, again: OrderRequest)
    requires OrdersOk(db.orders, db.books.movements) && id < |db.orders|
    requires again.key.Some? && again.key.value != "" && db.orders[id].key == again.key
        && db.orders[id].org == again.org
    ensures CreateOrder(db, again) == Ok((db, id))
  {
    var found := FindByKey(db.orders, again.org, again.key.value);
    assert found.Some?;
    assert db.orders[found.value].key == db.orders[id].key;
  }

  /** Without a key in the way, what a keyed request meets is decided by the orders that carry
      its key: one of its own organisation is returned, any other refuses the insert. */
  lemma KeyDecides(db: Db, q: OrderRequest, i: nat)
    requires OrdersOk(db.orders, db.books.movements) && i < |db.orders|
    requires q.key.Some? && db.orders[i].key == q.key && CreateOrder(db, q.(key := None)).Ok?
    ensures CreateOrder(db, q)
         == if q.key.value != "" && db.orders[i].org == q.org then Ok((db, i)) else Err(Integrity)
  {
    if q.key.value != "" && db.orders[i].org == q.org {
      KeyFinds(db, i, q);
    } else {
      assert KeyTaken(db.orders, q.key);
      assert q.key.value != "" ==> FindByKey(db.orders, q.org, q.key.value).None?;
    }
  }

  /** The key is looked up within an organisation and unique over all of them: a request that
      would go through without its key fails exactly when another organisation's order carries
      the key, or any order when the key is the empty string, which is never looked up. */
  lemma KeyIsGlobal(db: Db, q: OrderRequest)
    requires Inv(db) && q.key.Some? && CreateOrder(db, q.(key := None)).Ok?
    ensures CreateOrder(db, q).Err? <==>
              exists i :: 0 <= i < |db.orders| && db.orders[i].key == q.key
                  && (db.orders[i].org != q.org || q.key.value == "")
    ensures CreateOrder(db, q).Err? ==> CreateOrder(db, q) == Err(Integrity)
  {
    if i :| 0 <= i < |db.orders| && db.orders[i].key == q.key {
      KeyDecides(db, q, i);
    } else {
      FreshKeyPasses(db, q);
    }
  }

  /** Two organisations with a branch and an untracked product each. */
  const TWO_SHOPS := Opening([1, 2], [Product(1, true, false, false, 100), Product(2, true, false, false, 100)])

  function KeyedRequest(shop: nat): OrderRequest {
    OrderRequest(shop + 1, shop, Some("k"), [OrderLine(shop, 1, 100, 0)], 0, false)
  }

  lemma FirstShopOrders()
    ensures Run(TWO_SHOPS, [PlaceOrder(KeyedRequest(0))]) == TWO_SHOPS.(orders := [PlacedOrder(KeyedRequest(0))])
  {
    var q := KeyedRequest(0);
    assert q.lines[1..] == [] && [PlaceOrder(q)][1..] == [];
    assert Next(TWO_SHOPS, PlaceOrder(q)) == TWO_SHOPS.(orders := [PlacedOrder(q)]);
  }

  lemma SecondShopCould(orders: seq<Order>)
    ensures CreateOrder(TWO_SHOPS.(orders := orders), KeyedRequest(1).(key := None)).Ok?
  {
    assert KeyedRequest(1).lines[1..] == [];
  }

  /** After the first organisation's order with a key, the second's request with it is refused. */
  lemma ForeignKeyRefuses()
    ensures var db := Run(TWO_SHOPS, [PlaceOrder(KeyedRequest(0))]);
      && CreateOrder(db, KeyedRequest(1).(key := None)).Ok?
      && CreateOrder(db, KeyedRequest(1)) == Err(Integrity)
  {
    var orders := [PlacedOrder(KeyedRequest(0))];
    FirstShopOrders();
    SecondShopCould(orders);
    KeyDecides(TWO_SHOPS.(orders := orders), KeyedRequest(1), 0);
  }

  lemma FreshKeyPasses(db: Db, q: OrderRequest)
    requires q.key.Some? && CreateOrder(db, q.(key := None)).Ok?
    requires forall i :: 0 <= i < |db.orders| ==> db.orders[i].key != q.key
    ensures CreateOrder(db, q).Ok?
  {
    assert !KeyTaken(db.orders, q.key);
    assert FindByKey(db.orders, q.org, q.key.value).None?;
  }

  /** A cancelled order can never be cancelled again, even after slip approval has made it `paid`. */
  lemma NeverCancelledTwice(db: Db, org: nat, id: nat, steps: seq<Step>)
    requires Inv(db) && CancelOrder(db, org, id).Ok?
    ensures CancelOrder(Run(CancelOrder(db, org, id).value, steps), org, id) == Err(InvalidState)
  {
    var db1 := CancelOrder(db, org, id).value;
    CancelOrderKeeps(db, org, id);
    RunKeeps(db1, steps);
    OrdersPersist(db1, steps, id);
    assert Run(db1, steps).orders[id] in Run(db1, steps).orders;
  }

  // ---- What an order's movements add up to ----

  /** An order took what it asked for of the tracked products, or nothing once cancelled. */
  ghost predicate OrderSettles(db: Db, id: nat, product: nat)
    requires id < |db.orders|
  {
    var o := db.orders[id];
    Tally(db.books.movements, ForOrder(id, product))
    == if o.cancelled then 0 else -TrackedDemand(db.products, o.lines, product)
  }

  ghost predicate OrdersSettle(db: Db) {
    forall id, product :: 0 <= id < |db.orders| ==> OrderSettles(db, id, product)
  }

  predicate KeepsTracking(db: Db, step: Step) {
    step.EditProduct? && step.id < |db.products| ==> step.edited.tracked == db.products[step.id].tracked
  }

  predicate RunKeepsTracking(db: Db, steps: seq<Step>)
    decreases |steps|
  {
    steps == [] || (KeepsTracking(db, steps[0]) && RunKeepsTracking(Next(db, steps[0]), steps[1..]))
  }

  lemma OrderTallyFrame(db: Db, ps: seq<Posting>, id: nat, product: nat)
    requires forall p :: p in ps ==> p.reference != OrderRef(id)
    ensures Tally(EnteredAll(db.books, ps).movements, ForOrder(id, product))
        == Tally(db.books.movements, ForOrder(id, product))
  {
    TallyEntered(db.books, ps, ForOrder(id, product));
    SumZero(ps, ForOrder(id, product));
  }

  lemma NewOrderSettles(db: Db, q: OrderRequest, ps: seq<Posting>, product: nat)
    requires OrdersOk(db.orders, db.books.movements)
        && ps == Postings(db.products, q.lines, Sales(|db.orders|, q.branch))
    ensures Tally(EnteredAll(db.books, ps).movements, ForOrder(|db.orders|, product))
        == -TrackedDemand(db.products, q.lines, product)
  {
    var id := |db.orders|;
    TallyEntered(db.books, ps, ForOrder(id, product));
    SumZero(db.books.movements, OnPosting(ForOrder(id, product)));
    PostingsSum(db.products, q.lines, Sales(id, q.branch), ForOrder(id, product), product, -1);
  }

  lemma PlacedLast(db: Db, q: OrderRequest)
    requires CreateOrder(db, q).Ok? && CreateOrder(db, q).value.1 == |db.orders|
    ensures var db1 := CreateOrder(db, q).value.0;
      db1.orders == db.orders + [PlacedOrder(q)] && db1.products == db.products
  {
  }

  lemma CreateSettles(db: Db, q: OrderRequest)
    requires Inv(db) && OrdersSettle(db) && CreateOrder(db, q).Ok?
    ensures OrdersSettle(CreateOrder(db, q).value.0)
  {
    var id := |db.orders|;
    if CreateOrder(db, q).value.1 == id {
      var ps := CreatedBooks(db, q);
      PlacedLast(db, q);
      NewTallies(db, CreateOrder(db, q).value.0, q, ps);
    }
  }

  lemma NewTallies(db: Db, db1: Db, q: OrderRequest, ps: seq<Posting>)
    requires OrdersSettle(db) && OrdersOk(db.orders, db.books.movements)
    requires ps == Postings(db.products, q.lines, Sales(|db.orders|, q.branch))
    requires forall p :: p in ps ==> p.reference == OrderRef(|db.orders|)
    requires db1.books == EnteredAll(db.books, ps) && db1.orders == db.orders + [PlacedOrder(q)]
        && db1.products == db.products
    ensures OrdersSettle(db1)
  {
    forall i, product | 0 <= i < |db1.orders| ensures OrderSettles(db1, i, product) {
      if i < |db.orders| {
        assert OrderSettles(db, i, product);
        OrderTallyFrame(db, ps, i, product);
      } else {
        NewOrderSettles(db, q, ps, product);
      }
    }
  }

  lemma CancelSettles(db: Db, org: nat, id: nat)
    requires Inv(db) && OrdersSettle(db) && CancelOrder(db, org, id).Ok?
    ensures OrdersSettle(CancelOrder(db, org, id).value)
  {
    var db1 := CancelOrder(db, org, id).value;
    var ps := CancelledBooks(db, org, id);
    assert db.orders[id] in db.orders;
    forall i, product | 0 <= i < |db1.orders| ensures OrderSettles(db1, i, product) {
      assert OrderSettles(db, i, product);
      if i != id {
        OrderTallyFrame(db, ps, i, product);
      } else {
        TallyEntered(db.books, ps, ForOrder(id, product));
        PostingsSum(db.products, db.orders[id].lines, Restores(id, db.orders[id].branch), ForOrder(id, product),
            product, 1);
      }
    }
  }

  /** The postings of the steps that neither place nor cancel an order. */
  lemma OtherBooks(db: Db, step: Step) returns (ps: seq<Posting>)
    requires Inv(db) && Apply(db, step).Ok? && !step.PlaceOrder? && !step.Cancel?
    ensures Apply(db, step).value.books == EnteredAll(db.books, ps)
    ensures forall p :: p in ps ==> !p.reference.OrderRef?
  {
    ps := [];
    match step {
      case Adjust(branch, product, adjustment, lot) =>
        ps := [AdjustPosting(branch, product, adjustment, lot)];
        AdjustmentEnters(db, branch, product, adjustment, lot);
        assert ps[1..] == [];
      case TakeReturn(org, branch, id, lines) =>
        var s := Session(db.books, {}, false);
        ps := Restocks(db.returnCount, branch, lines);
        ReturnAllCredits(s, db.orders[id].lines, db.returnCount, branch, lines);
        RestocksAreReturns(db.returnCount, branch, lines);
        CreditAllPosts(s, ps);
      case Ship(org, id, lines) =>
        var t := db.transfers[id];
        assert t in db.transfers && TransferOk(t);
        ps := ShipAllMoves(Shipping(db.books, t.items), id, t.source, lines);
      case Receive(org, id, lines) =>
        var t := db.transfers[id];
        ps := ReceiveAllMoves(Receiving(Session(db.books, {}, false), t.items), id, t.dest, lines);
      case ReceiveGoods(org, id, branch, lines) =>
        var r := Receipt(db.books, db.purchases[id].items, db.receipts, db.lots, false);
        ps := StoreAllInStep(r, id, db.receivings, branch, lines);
      case _ =>
    }
  }

  lemma OtherOrders(db: Db, step: Step)
    requires Apply(db, step).Ok? && !step.PlaceOrder? && !step.Cancel? && KeepsTracking(db, step)
    ensures var db1 := Apply(db, step).value;
      && |db1.orders| == |db.orders|
      && (forall i :: 0 <= i < |db.orders| ==>
          db1.orders[i].lines == db.orders[i].lines && db1.orders[i].cancelled == db.orders[i].cancelled)
      && (forall lines, product ::
            TrackedDemand(db1.products, lines, product) == TrackedDemand(db.products, lines, product))
  {
  }

  lemma StepSettles(db: Db, step: Step)
    requires Inv(db) && OrdersSettle(db) && Apply(db, step).Ok? && KeepsTracking(db, step)
    ensures OrdersSettle(Apply(db, step).value)
  {
    if step.PlaceOrder? {
      CreateSettles(db, step.request);
    } else if step.Cancel? {
      CancelSettles(db, step.org, step.id);
    } else {
      var db1 := Apply(db, step).value;
      var ps := OtherBooks(db, step);
      OtherOrders(db, step);
      forall i, product | 0 <= i < |db1.orders| ensures OrderSettles(db1, i, product) {
        assert OrderSettles(db, i, product);
        OrderTallyFrame(db, ps, i, product);
      }
    }
  }

  /** Over any run that leaves `track_inventory` alone, every order's movements for a product
      sum to minus the quantity ordered, and to 0 once it was cancelled. */
  lemma {:induction false} OrderMovementsSettle(db: Db, steps: seq<Step>)
    requires Inv(db) && OrdersSettle(db) && RunKeepsTracking(db, steps)
    ensures OrdersSettle(Run(db, steps))
    decreases |steps|
  {
    if steps != [] {
      if Apply(db, steps[0]).Ok? {
        StepSettles(db, steps[0]);
        ApplyKeeps(db, steps[0]);
      }
      OrderMovementsSettle(Next(db, steps[0]), steps[1..]);
    }
  }

  /** The change the postings of an order make to one row. */
  lemma OrderChange(products: seq<Product>, lines: seq<OrderLine>, make: OrderLine -> Posting, branch: nat,
      cell: Cell, sign: int)
    requires sign == 1 || sign == -1
    requires forall line :: make(line).cell == Cell(branch, line.product) && !make(line).kind.Damage?
    requires forall line :: make(line).change == sign * line.quantity
    ensures Sum(Postings(products, lines, make), ChangeAt(cell))
         == if cell.branch == branch then sign * TrackedDemand(products, lines, cell.product) else 0
  {
    var ps := Postings(products, lines, make);
    if cell.branch == branch {
      PostingsSum(products, lines, make, ChangeAt(cell), cell.product, sign);
    } else {
      forall i | 0 <= i < |ps| ensures ChangeAt(cell)(ps[i]) == 0 {
        PostingsAre(products, lines, make, i);
      }
      SumZero(ps, ChangeAt(cell));
    }
  }

  lemma SoldRowsExist(db: Db, q: OrderRequest)
    requires CreateOrder(db, q).Ok? && CreateOrder(db, q).value.1 == |db.orders|
    ensures forall line :: line in q.lines && Tracked(db.products, line.product) ==>
      Cell(q.branch, line.product) in CreateOrder(db, q).value.0.books.onHand
  {
    var ps := CreatedBooks(db, q);
    SellsExactlyWhenFillable(db.books, db.products, |db.orders|, q.branch, q.lines);
    forall line | line in q.lines && Tracked(db.products, line.product)
      ensures Cell(q.branch, line.product) in CreateOrder(db, q).value.0.books.onHand
    {
      var k :| 0 <= k < |q.lines| && q.lines[k] == line;
      SumBoundsRow(q.lines, k, QuantityOf(line.product));
      EnteredOnHand(db.books, ps, Cell(q.branch, line.product));
    }
  }

  /** An order placed and cancelled at once leaves every row as it was. */
  lemma CancelUndoesCreate(db: Db, q: OrderRequest, cell: Cell)
    requires Inv(db) && CreateOrder(db, q).Ok? && CreateOrder(db, q).value.1 == |db.orders|
    ensures var (db1, id) := CreateOrder(db, q).value;
      var r := CancelOrder(db1, q.org, id);
      r.Ok? && At(r.value.books.onHand, cell) == At(db.books.onHand, cell)
  {
    var (db1, id) := CreateOrder(db, q).value;
    CreateOrderKeeps(db, q);
    SoldRowsExist(db, q);
    RestoresWhenRowsExist(db1.books, db.products, id, q.branch, q.lines);
    var ps := CreatedBooks(db, q);
    var rs := CancelledBooks(db1, q.org, id);
    EnteredOnHand(db.books, ps, cell);
    EnteredOnHand(db1.books, rs, cell);
    OrderChange(db.products, q.lines, Sales(id, q.branch), q.branch, cell, -1);
    OrderChange(db.products, q.lines, Restores(id, q.branch), q.branch, cell, 1);
  }

  lemma {:induction false} RestoresWhenRowsExist(b: Books, products: seq<Product>, order: nat, branch: nat,
      lines: seq<OrderLine>)
    requires forall line :: line in lines && Tracked(products, line.product) ==> Cell(branch, line.product) in b.onHand
    ensures RestoreLines(b, products, order, branch, lines).Ok?
    decreases |lines|
  {
    if lines != [] {
      assert lines[0] in lines;
      RestoresWhenRowsExist(RestoreLine(b, products, order, branch, lines[0]).value, products, order, branch,
          lines[1..]);
    }
  }

  // ---- Purchases ----

  /** After any run: what the items of a purchase order record is what its receiving lines
      record, never more than was ordered, and nothing for an order still in draft or cancelled. */
  lemma ReceiptsAgreeWithOrders(branches: seq<nat>, products: seq<Product>, steps: seq<Step>, i: nat, product: nat)
    requires i < |Run(Opening(branches, products), steps).purchases|
    ensures var db := Run(Opening(branches, products), steps); var po := db.purchases[i];
      && Sum(po.items, ReceivedOf(product)) == Sum(db.receipts, LinesFor(i, product))
      && (forall item :: item in po.items ==> 0 <= item.received <= item.ordered)
      && (po.status == Drafted || po.status == Dropped ==> forall row :: row in db.receipts ==> row.purchase != i)
  {
    OpeningOk(branches, products);
    RunKeeps(Opening(branches, products), steps);
    assert PurchaseOk(Run(Opening(branches, products), steps).purchases,
        Run(Opening(branches, products), steps).receipts, i);
  }

  /** After any run each lot holds what the receiving lines and the purchase movements that
      point at it brought. */
  lemma LotsAgreeWithReceipts(branches: seq<nat>, products: seq<Product>, steps: seq<Step>, lot: LotKey)
    ensures var db := Run(Opening(branches, products), steps);
      At(db.lots, lot) == Sum(db.receipts, LinesInto(lot)) == Tally(db.books.movements, PurchasesInto(lot))
  {
    var db := Run(Opening(branches, products), steps);
    OpeningOk(branches, products);
    RunKeeps(Opening(branches, products), steps);
    assert LotOk(db.lots, db.receipts, db.books.movements, lot);
  }

  /** A receipt marks the order received exactly when each of its lines brings everything
      still open on its item; items it does not list are not looked at. */
  lemma ReceivedStatusExactly(db: Db, org: nat, id: nat, branch: nat, lines: seq<ReceivedLine>)
    requires Inv(db) && ReceivePurchase(db, org, id, branch, lines).Ok?
    ensures var items := db.purchases[id].items;
      ReceivePurchase(db, org, id, branch, lines).value.purchases[id].status == FullyReceived
      <==> forall line :: line in lines ==>
             line.item < |items| && line.quantity == items[line.item].ordered - items[line.item].received
  {
    assert PurchaseOk(db.purchases, db.receipts, id);
    MarkedReceivedExactly(Receipt(db.books, db.purchases[id].items, db.receipts, db.lots, false),
                          id, db.receivings, branch, lines);
  }

  predicate Lists(lines: seq<ReceivedLine>, i: nat) {
    exists k :: 0 <= k < |lines| && lines[k].item == i
  }

  /** When every line brings all that is open on its item, just the unlisted items stay open. */
  lemma OpenAfterwards(r: Receipt, purchase: nat, receiving: nat, branch: nat, lines: seq<ReceivedLine>, i: nat)
    requires StoreAll(r, purchase, receiving, branch, lines).Ok? && i < |r.items|
    requires PurchaseItemsStorable(r.items)
    requires PurchaseItemsStorable(StoreAll(r, purchase, receiving, branch, lines).value.items)
    requires forall k :: 0 <= k < |lines| ==>
      lines[k].item < |r.items| && lines[k].quantity == r.items[lines[k].item].ordered - r.items[lines[k].item].received
    ensures var items := StoreAll(r, purchase, receiving, branch, lines).value.items;
      && |items| == |r.items|
      && (items[i].received == items[i].ordered <==> r.items[i].received == r.items[i].ordered || Lists(lines, i))
  {
    StoreAllItems(r, purchase, receiving, branch, lines, i);
    var items := StoreAll(r, purchase, receiving, branch, lines).value.items;
    assert items[i] in items;
    assert r.items[i] in r.items;
    if Lists(lines, i) {
      var k :| 0 <= k < |lines| && lines[k].item == i;
      SumBoundsRow(lines, k, QuantityFor(i));
    } else {
      SumZero(lines, QuantityFor(i));
    }
  }

  /** So `received` means nothing is open exactly when the receipt listed every open item. */
  lemma ReceivedMeansNothingOpen(db: Db, org: nat, id: nat, branch: nat, lines: seq<ReceivedLine>)
    requires Inv(db) && ReceivePurchase(db, org, id, branch, lines).Ok?
    requires ReceivePurchase(db, org, id, branch, lines).value.purchases[id].status == FullyReceived
    ensures var items := db.purchases[id].items;
      var items1 := ReceivePurchase(db, org, id, branch, lines).value.purchases[id].items;
      (forall i :: 0 <= i < |items1| ==> items1[i].received == items1[i].ordered)
      <==> forall i :: 0 <= i < |items| && items[i].received < items[i].ordered ==> Lists(lines, i)
  {
    var items := db.purchases[id].items;
    var r := Receipt(db.books, items, db.receipts, db.lots, false);
    assert PurchaseOk(db.purchases, db.receipts, id);
    ReceivedStatusExactly(db, org, id, branch, lines);
    forall k | 0 <= k < |lines|
      ensures lines[k].item < |items|
          && lines[k].quantity == items[lines[k].item].ordered - items[lines[k].item].received
    {
      assert lines[k] in lines;
    }
    StoreAllLength(r, id, db.receivings, branch, lines);
    forall i | 0 <= i < |items|
      ensures var items1 := StoreAll(r, id, db.receivings, branch, lines).value.items;
        items1[i].received == items1[i].ordered <==> items[i].received == items[i].ordered || Lists(lines, i)
    {
      OpenAfterwards(r, id, db.receivings, branch, lines, i);
      assert items[i] in items;
    }
    assert forall i :: 0 <= i < |items| ==> items[i] in items;
  }

  /** A receipt with one line that fills its item marks the order received while other items
      are still open. */
  lemma OneItemMarksReceived(db: Db, org: nat, id: nat, branch: nat, line: ReceivedLine, other: nat)
    requires Inv(db) && OwnsPurchase(db, org, id) && branch < |db.branches|
    requires db.purchases[id].status == Approved || db.purchases[id].status == PartlyReceived
    requires Fills(db.purchases[id].items, line)
    requires other < |db.purchases[id].items| && other != line.item
    requires db.purchases[id].items[other].received < db.purchases[id].items[other].ordered
    ensures var r := ReceivePurchase(db, org, id, branch, [line]);
      && r.Ok? && r.value.purchases[id].status == FullyReceived
      && other < |r.value.purchases[id].items|
      && r.value.purchases[id].items[other].received < r.value.purchases[id].items[other].ordered
  {
    assert PurchaseOk(db.purchases, db.receipts, id);
    var r := Receipt(db.books, db.purchases[id].items, db.receipts, db.lots, false);
    StoreOneShort(r, id, db.receivings, branch, line);
    assert [line][1..] == [];
    assert StoreAll(r, id, db.receivings, branch, [line]) == StoreOne(r, id, db.receivings, branch, line);
  }

  /** Two deliveries of an item in one receipt, together all that was open on the whole order,
      leave it marked partly received although nothing is open any more. */
  lemma SplitDeliveryStaysPartly(db: Db, org: nat, id: nat, branch: nat, first: ReceivedLine, second: ReceivedLine)
    requires Inv(db) && OwnsPurchase(db, org, id) && branch < |db.branches|
    requires db.purchases[id].status == Approved || db.purchases[id].status == PartlyReceived
    requires first.item == second.item < |db.purchases[id].items|
    requires forall i :: 0 <= i < |db.purchases[id].items| ==>
      var item := db.purchases[id].items[i];
      item.ordered - item.received == if i == first.item then first.quantity + second.quantity else 0
    ensures var r := ReceivePurchase(db, org, id, branch, [first, second]);
      && r.Ok? && r.value.purchases[id].status == PartlyReceived
      && forall item :: item in r.value.purchases[id].items ==> item.received == item.ordered
  {
    assert PurchaseOk(db.purchases, db.receipts, id);
    var items := db.purchases[id].items;
    var r := Receipt(db.books, items, db.receipts, db.lots, false);
    assert forall i :: 0 <= i < |items| ==> items[i] in items;
    SplitDelivery(r, id, db.receivings, branch, first, second);
  }

  lemma SplitDelivery(r: Receipt, purchase: nat, receiving: nat, branch: nat, first: ReceivedLine, second: ReceivedLine)
    requires PurchaseItemsStorable(r.items) && first.item == second.item < |r.items|
    requires r.items[first.item].received + first.quantity + second.quantity == r.items[first.item].ordered
    ensures var s := StoreAll(r, purchase, receiving, branch, [first, second]);
      && s.Ok? && s.value.short
      && s.value.items == r.items[first.item := r.items[first.item].(received := r.items[first.item].ordered)]
  {
    StoreOneShort(r, purchase, receiving, branch, first);
    var r1 := StoreOne(r, purchase, receiving, branch, first).value;
    StoreOneShort(r1, purchase, receiving, branch, second);
    assert [first, second][1..] == [second] && [second][1..] == [];
    assert StoreAll(r1, purchase, receiving, branch, [second]) == StoreOne(r1, purchase, receiving, branch, second);
  }

  lemma {:induction false} StoreAllLength(r: Receipt, purchase: nat, receiving: nat, branch: nat,
      lines: seq<ReceivedLine>)
    requires StoreAll(r, purchase, receiving, branch, lines).Ok?
    ensures |StoreAll(r, purchase, receiving, branch, lines).value.items| == |r.items|
    decreases |lines|
  {
    if lines != [] {
      StoreAllLength(StoreOne(r, purchase, receiving, branch, lines[0]).value, purchase, receiving, branch, lines[1..]);
    }
  }
}
