/** Runs of all stock services, in any order and with any requests; a refused request
    leaves the database as it was. */
module StockRuns {
  import opened Basics
  import opened Sums
  import opened RunningLedger
  import opened StockBooks
  import opened OrderWorkflow
  import opened StockData
  import opened OrderStock
  import opened TransferStock
  import opened PurchaseStock
  import opened ReturnStock

  datatype Step =
    | PlaceOrder(request: OrderRequest)
    | Cancel(org: nat, id: nat)
    | Progress(id: nat, target: Status)
    | Adjust(branch: nat, product: nat, adjustment: int, lot: Option<LotKey>)
    | TakeReturn(org: nat, branch: nat, id: nat, returned: seq<ReturnLine>)
    | DraftTransfer(org: nat, source: nat, dest: nat, wanted: seq<(nat, Quantity)>)
    | ClearTransfer(org: nat, id: nat)
    | Ship(org: nat, id: nat, shipped: seq<ShipLine>)
    | Receive(org: nat, id: nat, arrived: seq<ReceiveLine>)
    | WithdrawTransfer(org: nat, id: nat)
    | DraftPurchase(org: nat, wanted: seq<(nat, Quantity)>)
    | RevisePurchase(org: nat, id: nat, wanted: seq<(nat, Quantity)>)
    | ClearPurchase(org: nat, id: nat)
    | DropPurchase(org: nat, id: nat)
    | ReceiveGoods(org: nat, id: nat, branch: nat, goods: seq<ReceivedLine>)
    | EditProduct(id: nat, edited: Product)

  function Apply(db: Db, step: Step): Result<Db> {
    match step
    case PlaceOrder(q) => var r :- CreateOrder(db, q); Ok(r.0)
    case Cancel(org, id) => CancelOrder(db, org, id)
    case Progress(id, target) => ProgressOrder(db, id, target)
    case Adjust(branch, product, adjustment, lot) => AdjustInventory(db, branch, product, adjustment, lot)
    case TakeReturn(org, branch, id, lines) => CreateReturn(db, org, branch, id, lines)
    case DraftTransfer(org, source, dest, lines) => TransferStock.CreateTransfer(db, org, source, dest, lines)
    case ClearTransfer(org, id) => ApproveTransfer(db, org, id)
    case Ship(org, id, lines) => ShipTransfer(db, org, id, lines)
    case Receive(org, id, lines) => ReceiveTransfer(db, org, id, lines)
    case WithdrawTransfer(org, id) => CancelTransfer(db, org, id)
    case DraftPurchase(org, lines) => CreatePurchase(db, org, lines)
    case RevisePurchase(org, id, lines) => UpdatePurchase(db, org, id, lines)
    case ClearPurchase(org, id) => ApprovePurchase(db, org, id)
    case DropPurchase(org, id) => CancelPurchase(db, org, id)
    case ReceiveGoods(org, id, branch, lines) => ReceivePurchase(db, org, id, branch, lines)
    case EditProduct(id, product) =>
      if id < |db.products| then Ok(db.(products := db.products[id := product])) else Err(NotFound)
  }

  function Next(db: Db, step: Step): Db {
    var r := Apply(db, step);
    if r.Ok? then r.value else db
  }

  function Run(db: Db, steps: seq<Step>): Db
    decreases |steps|
  {
    if steps == [] then db else Run(Next(db, steps[0]), steps[1..])
  }

  // ---- The invariant ----

  ghost predicate OrdersOk(orders: seq<Order>, ms: seq<Movement>) {
    && (forall i, k :: 0 <= i < k < |orders| && orders[i].key.Some? ==> orders[i].key != orders[k].key)
    && (forall o :: o in orders ==> (o.cancelled ==> !Cancellable(o.status)) && (o.status == Cancelled ==> o.cancelled))
    && (forall m :: m in ms && m.info.reference.OrderRef? ==> m.info.reference.id < |orders|)
  }

  predicate Unshipped(t: Transfer) {
    t.status == Draft || t.status == Awaiting || t.status == Withdrawn
  }

  predicate TransferOk(t: Transfer) {
    && t.source != t.dest
    && ItemsStorable(t.items)
    && (Unshipped(t) ==> forall item :: item in t.items ==> item.shipped == 0)
  }

  ghost predicate TransfersOk(transfers: seq<Transfer>, ms: seq<Movement>) {
    && (forall t :: t in transfers ==> TransferOk(t))
    && (forall product :: Transit(transfers, product) == -Tally(ms, TransferOf(product)))
  }

  predicate Unreceived(po: PurchaseOrder) {
    po.status == Drafted || po.status == Dropped
  }

  ghost predicate PurchaseOk(purchases: seq<PurchaseOrder>, receipts: seq<ReceiptLine>, i: nat)
    requires i < |purchases|
  {
    var po := purchases[i];
    && PurchaseItemsStorable(po.items)
    && (Unreceived(po) ==> forall item :: item in po.items ==> item.received == 0)
    && (Unreceived(po) ==> forall row :: row in receipts ==> row.purchase != i)
    && (forall product :: Sum(po.items, ReceivedOf(product)) == Sum(receipts, LinesFor(i, product)))
  }

  ghost predicate LotOk(lots: map<LotKey, int>, receipts: seq<ReceiptLine>, ms: seq<Movement>, lot: LotKey) {
    At(lots, lot) == Sum(receipts, LinesInto(lot)) == Tally(ms, PurchasesInto(lot))
  }

  ghost predicate PurchasesOk(purchases: seq<PurchaseOrder>, receipts: seq<ReceiptLine>,
                              lots: map<LotKey, int>, ms: seq<Movement>) {
    && (forall i :: 0 <= i < |purchases| ==> PurchaseOk(purchases, receipts, i))
    && (forall row :: row in receipts ==> row.purchase < |purchases|)
    && (forall lot :: LotOk(lots, receipts, ms, lot))
  }

  ghost predicate Inv(db: Db) {
    && Sound(db.books)
    && OrdersOk(db.orders, db.books.movements)
    && TransfersOk(db.transfers, db.books.movements)
    && PurchasesOk(db.purchases, db.receipts, db.lots, db.books.movements)
  }

  // ---- Framing: a table unaffected by the postings of a step stays right ----

  lemma {:induction false} EnteredMembers(b: Books, ps: seq<Posting>)
    ensures forall m :: m in EnteredAll(b, ps).movements ==> m in b.movements || m.info in ps
    decreases |ps|
  {
    if ps != [] {
      EnteredMembers(Entered(b, ps[0]), ps[1..]);
    }
  }

  lemma OrdersFrame(orders: seq<Order>, b: Books, ps: seq<Posting>)
    requires OrdersOk(orders, b.movements)
    requires forall p :: p in ps && p.reference.OrderRef? ==> p.reference.id < |orders|
    ensures OrdersOk(orders, EnteredAll(b, ps).movements)
  {
    EnteredMembers(b, ps);
  }

  lemma TransfersFrame(transfers: seq<Transfer>, b: Books, ps: seq<Posting>)
    requires TransfersOk(transfers, b.movements)
    requires forall p :: p in ps ==> !p.kind.TransferIn? && !p.kind.TransferOut?
    ensures TransfersOk(transfers, EnteredAll(b, ps).movements)
  {
    forall product ensures Transit(transfers, product) == -Tally(EnteredAll(b, ps).movements, TransferOf(product)) {
      TallyEntered(b, ps, TransferOf(product));
      SumZero(ps, TransferOf(product));
    }
  }

  lemma PurchasesFrame(db: Db, ps: seq<Posting>)
    requires PurchasesOk(db.purchases, db.receipts, db.lots, db.books.movements)
    requires forall p :: p in ps ==> !p.kind.Purchase?
    ensures PurchasesOk(db.purchases, db.receipts, db.lots, EnteredAll(db.books, ps).movements)
  {
    forall lot ensures LotOk(db.lots, db.receipts, EnteredAll(db.books, ps).movements, lot) {
      assert LotOk(db.lots, db.receipts, db.books.movements, lot);
      TallyEntered(db.books, ps, PurchasesInto(lot));
      SumZero(ps, PurchasesInto(lot));
    }
  }

  // ---- Orders ----

  /** What an order's own movements change of one product. */
  function ForOrder(order: nat, product: nat): Posting -> int {
    (p: Posting) => if p.reference == OrderRef(order) && p.cell.product == product then p.change else 0
  }

  lemma CreatedBooks(db: Db, q: OrderRequest) returns (ps: seq<Posting>)
    requires CreateOrder(db, q).Ok? && CreateOrder(db, q).value.1 == |db.orders|
    ensures ps == Postings(db.products, q.lines, Sales(|db.orders|, q.branch))
    ensures LegalAll(db.books, ps) && CreateOrder(db, q).value.0.books == EnteredAll(db.books, ps)
    ensures forall p :: p in ps ==> p.kind.Sale? && p.change < 0 && p.reference == OrderRef(|db.orders|)
  {
    ps := Postings(db.products, q.lines, Sales(|db.orders|, q.branch));
    SellLinesPosts(db.books, db.products, |db.orders|, q.branch, q.lines);
    forall i | 0 <= i < |ps| ensures ps[i].kind.Sale? && ps[i].change < 0 && ps[i].reference == OrderRef(|db.orders|) {
      PostingsAre(db.products, q.lines, Sales(|db.orders|, q.branch), i);
    }
  }

  lemma CancelledBooks(db: Db, org: nat, id: nat) returns (ps: seq<Posting>)
    requires CancelOrder(db, org, id).Ok?
    requires Sound(db.books)
    ensures ps == Postings(db.products, db.orders[id].lines, Restores(id, db.orders[id].branch))
    ensures LegalAll(db.books, ps) && CancelOrder(db, org, id).value.books == EnteredAll(db.books, ps)
    ensures forall p :: p in ps ==> p.kind.Adjustment? && p.reference == OrderRef(id)
  {
    var o := db.orders[id];
    ps := Postings(db.products, o.lines, Restores(id, o.branch));
    RestoreLinesPosts(db.books, db.products, id, o.branch, o.lines);
    forall i | 0 <= i < |ps| ensures ps[i].kind.Adjustment? && ps[i].reference == OrderRef(id) {
      PostingsAre(db.products, o.lines, Restores(id, o.branch), i);
    }
  }

  lemma CreateOrderKeeps(db: Db, q: OrderRequest)
    requires Inv(db) && CreateOrder(db, q).Ok?
    ensures Inv(CreateOrder(db, q).value.0)
  {
    var r := CreateOrder(db, q).value;
    if r.1 == |db.orders| {
      var ps := CreatedBooks(db, q);
      EnteredAllSound(db.books, ps);
      EnteredMembers(db.books, ps);
      TransfersFrame(db.transfers, db.books, ps);
      PurchasesFrame(db, ps);
    }
  }

  lemma CancelOrderKeeps(db: Db, org: nat, id: nat)
    requires Inv(db) && CancelOrder(db, org, id).Ok?
    ensures Inv(CancelOrder(db, org, id).value)
  {
    var ps := CancelledBooks(db, org, id);
    EnteredAllSound(db.books, ps);
    OrdersFrame(db.orders, db.books, ps);
    TransfersFrame(db.transfers, db.books, ps);
    PurchasesFrame(db, ps);
  }

  // ---- Single postings and returns ----

  lemma AdjustKeeps(db: Db, branch: nat, product: nat, adjustment: int, lot: Option<LotKey>)
    requires Inv(db) && AdjustInventory(db, branch, product, adjustment, lot).Ok?
    ensures Inv(AdjustInventory(db, branch, product, adjustment, lot).value)
  {
    var p := AdjustPosting(branch, product, adjustment, lot);
    var ps := [p];
    AdjustmentEnters(db, branch, product, adjustment, lot);
    assert EnteredAll(db.books, ps) == Entered(db.books, p) by {
      assert ps[1..] == [];
    }
    EnteredSound(db.books, p);
    OrdersFrame(db.orders, db.books, ps);
    TransfersFrame(db.transfers, db.books, ps);
    PurchasesFrame(db, ps);
  }

  lemma ReturnKeeps(db: Db, org: nat, branch: nat, order: nat, lines: seq<ReturnLine>)
    requires Inv(db) && CreateReturn(db, org, branch, order, lines).Ok?
    ensures Inv(CreateReturn(db, org, branch, order, lines).value)
  {
    var s := Session(db.books, {}, false);
    var ps := Restocks(db.returnCount, branch, lines);
    ReturnAllCredits(s, db.orders[order].lines, db.returnCount, branch, lines);
    RestocksAreReturns(db.returnCount, branch, lines);
    CreditAllPosts(s, ps);
    EnteredAllSound(db.books, ps);
    OrdersFrame(db.orders, db.books, ps);
    TransfersFrame(db.transfers, db.books, ps);
    PurchasesFrame(db, ps);
  }

  // ---- Transfers ----

  /** A step that changes one transfer and posts what its items moved. */
  lemma TransferChange(db: Db, id: nat, t: Transfer, ps: seq<Posting>)
    requires Inv(db) && id < |db.transfers| && TransferOk(t)
    requires LegalAll(db.books, ps)
    requires forall p :: p in ps ==> !p.kind.Purchase? && !p.reference.OrderRef?
    requires forall product ::
      Sum(t.items, OnTheWay(product)) == Sum(db.transfers[id].items, OnTheWay(product)) - Sum(ps, TransferOf(product))
    ensures Inv(db.(books := EnteredAll(db.books, ps), transfers := db.transfers[id := t]))
  {
    EnteredAllSound(db.books, ps);
    OrdersFrame(db.orders, db.books, ps);
    PurchasesFrame(db, ps);
    forall product
      ensures Transit(db.transfers[id := t], product) == -Tally(EnteredAll(db.books, ps).movements, TransferOf(product))
    {
      TallyEntered(db.books, ps, TransferOf(product));
      SumUpdate(db.transfers, id, t, TransitOf(product));
      assert Transit(db.transfers, product) == -Tally(db.books.movements, TransferOf(product));
    }
  }

  lemma ShipKeeps(db: Db, org: nat, id: nat, lines: seq<ShipLine>)
    requires Inv(db) && ShipTransfer(db, org, id, lines).Ok?
    ensures Inv(ShipTransfer(db, org, id, lines).value)
  {
    var t := db.transfers[id];
    assert t in db.transfers && TransferOk(t);
    var ps := ShipAllMoves(Shipping(db.books, t.items), id, t.source, lines);
    TransferChange(db, id, ShipTransfer(db, org, id, lines).value.transfers[id], ps);
  }

  lemma ReceiveKeeps(db: Db, org: nat, id: nat, lines: seq<ReceiveLine>)
    requires Inv(db) && ReceiveTransfer(db, org, id, lines).Ok?
    ensures Inv(ReceiveTransfer(db, org, id, lines).value)
  {
    var t := db.transfers[id];
    assert t in db.transfers && TransferOk(t);
    var ps := ReceiveAllMoves(Receiving(Session(db.books, {}, false), t.items), id, t.dest, lines);
    TransferChange(db, id, ReceiveTransfer(db, org, id, lines).value.transfers[id], ps);
  }

  lemma TransferStatusKeeps(db: Db, id: nat, status: TransferStatus)
    requires Inv(db) && id < |db.transfers|
    requires Unshipped(db.transfers[id])
    ensures Inv(db.(transfers := db.transfers[id := db.transfers[id].(status := status)]))
  {
    assert db.transfers[id] in db.transfers;
    TransferChange(db, id, db.transfers[id].(status := status), []);
  }

  lemma DraftTransferKeeps(db: Db, org: nat, source: nat, dest: nat, lines: seq<(nat, Quantity)>)
    requires Inv(db) && TransferStock.CreateTransfer(db, org, source, dest, lines).Ok?
    ensures Inv(TransferStock.CreateTransfer(db, org, source, dest, lines).value)
  {
    var t := Transfer(org, source, dest, Draft, NewItems(lines));
    forall product ensures Transit(db.transfers + [t], product) == Transit(db.transfers, product) {
      SumPush(db.transfers, t, TransitOf(product));
      SumZero(t.items, OnTheWay(product));
    }
  }

  // ---- Purchases ----

  lemma ReceiveGoodsKeeps(db: Db, org: nat, id: nat, branch: nat, lines: seq<ReceivedLine>)
    requires Inv(db) && ReceivePurchase(db, org, id, branch, lines).Ok?
    ensures Inv(ReceivePurchase(db, org, id, branch, lines).value)
  {
    var db1 := ReceivePurchase(db, org, id, branch, lines).value;
    var r := Receipt(db.books, db.purchases[id].items, db.receipts, db.lots, false);
    var r1 := StoreAll(r, id, db.receivings, branch, lines).value;
    var ps := StoreAllInStep(r, id, db.receivings, branch, lines);
    EnteredAllSound(db.books, ps);
    OrdersFrame(db.orders, db.books, ps);
    TransfersFrame(db.transfers, db.books, ps);
    forall i | 0 <= i < |db1.purchases| ensures PurchaseOk(db1.purchases, db1.receipts, i) {
      assert PurchaseOk(db.purchases, db.receipts, i);
      forall product ensures Sum(db1.purchases[i].items, ReceivedOf(product))
          == Sum(db1.receipts, LinesFor(i, product)) {
        assert ItemsInStep(r, r1, id, product);
      }
    }
    forall lot ensures LotOk(db1.lots, db1.receipts, db1.books.movements, lot) {
      assert LotInStep(r, r1, lot) && LotOk(db.lots, db.receipts, db.books.movements, lot);
    }
  }

  /** A purchase order nothing was received on may be replaced by another such order. */
  lemma PurchaseChange(db: Db, id: nat, po: PurchaseOrder)
    requires Inv(db) && id < |db.purchases|
    requires Unreceived(db.purchases[id])
    requires forall item :: item in po.items ==> item.received == 0
    ensures Inv(db.(purchases := db.purchases[id := po]))
  {
    var purchases := db.purchases[id := po];
    forall i | 0 <= i < |purchases| ensures PurchaseOk(purchases, db.receipts, i) {
      assert PurchaseOk(db.purchases, db.receipts, i);
      if i == id {
        forall product ensures Sum(po.items, ReceivedOf(product)) == Sum(db.receipts, LinesFor(i, product)) {
          SumZero(po.items, ReceivedOf(product));
          SumZero(db.receipts, LinesFor(i, product));
        }
      }
    }
  }

  lemma DraftPurchaseKeeps(db: Db, org: nat, lines: seq<(nat, Quantity)>)
    requires Inv(db) && CreatePurchase(db, org, lines).Ok?
    ensures Inv(CreatePurchase(db, org, lines).value)
  {
    var purchases := CreatePurchase(db, org, lines).value.purchases;
    forall i | 0 <= i < |purchases| ensures PurchaseOk(purchases, db.receipts, i) {
      if i < |db.purchases| {
        assert PurchaseOk(db.purchases, db.receipts, i);
      } else {
        forall product ensures Sum(purchases[i].items, ReceivedOf(product)) == Sum(db.receipts, LinesFor(i, product)) {
          SumZero(purchases[i].items, ReceivedOf(product));
          SumZero(db.receipts, LinesFor(i, product));
        }
      }
    }
  }

  lemma PurchaseStepKeeps(db: Db, step: Step)
    requires step.RevisePurchase? || step.ClearPurchase? || step.DropPurchase?
    requires Inv(db) && Apply(db, step).Ok?
    ensures Inv(Apply(db, step).value)
  {
    assert PurchaseOk(db.purchases, db.receipts, step.id);
    PurchaseChange(db, step.id, Apply(db, step).value.purchases[step.id]);
  }

  // ---- Every step, every run ----

  lemma ApplyKeeps(db: Db, step: Step)
    requires Inv(db) && Apply(db, step).Ok?
    ensures Inv(Apply(db, step).value)
  {
    match step
    case PlaceOrder(q) => CreateOrderKeeps(db, q);
    case Cancel(org, id) => CancelOrderKeeps(db, org, id);
    case Progress(id, target) =>
    case Adjust(branch, product, adjustment, lot) => AdjustKeeps(db, branch, product, adjustment, lot);
    case TakeReturn(org, branch, id, lines) => ReturnKeeps(db, org, branch, id, lines);
    case DraftTransfer(org, source, dest, lines) => DraftTransferKeeps(db, org, source, dest, lines);
    case ClearTransfer(org, id) => TransferStatusKeeps(db, id, Awaiting);
    case Ship(org, id, lines) => ShipKeeps(db, org, id, lines);
    case Receive(org, id, lines) => ReceiveKeeps(db, org, id, lines);
    case WithdrawTransfer(org, id) => TransferStatusKeeps(db, id, Withdrawn);
    case DraftPurchase(org, lines) => DraftPurchaseKeeps(db, org, lines);
    case RevisePurchase(_, _, _) => PurchaseStepKeeps(db, step);
    case ClearPurchase(_, _) => PurchaseStepKeeps(db, step);
    case DropPurchase(_, _) => PurchaseStepKeeps(db, step);
    case ReceiveGoods(org, id, branch, lines) => ReceiveGoodsKeeps(db, org, id, branch, lines);
    case EditProduct(_, _) =>
  }

  lemma {:induction false} RunKeeps(db: Db, steps: seq<Step>)
    requires Inv(db)
    ensures Inv(Run(db, steps))
    decreases |steps|
  {
    if steps != [] {
      if Apply(db, steps[0]).Ok? {
        ApplyKeeps(db, steps[0]);
      }
      RunKeeps(Next(db, steps[0]), steps[1..]);
    }
  }

  lemma OpeningOk(branches: seq<nat>, products: seq<Product>)
    ensures Inv(Opening(branches, products))
  {
  }
}
