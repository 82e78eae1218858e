/** What each purchase service does to every table, told in terms of the request and the database
    before it. */
module PurchaseEffects {
  import opened Basics
  import opened Sums
  import opened RunningLedger
  import opened StockBooks
  import opened StockData
  import opened PurchaseStock
  import opened StockRuns
  import opened StockTheorems
  import opened StockEffects

  // ---- Drafts and statuses ----

  /** The lines name products of the organisation that were not deleted. */
  predicate Orderable(db: Db, org: nat, lines: seq<(nat, Quantity)>) {
    forall i :: 0 <= i < |lines| ==>
      && lines[i].0 < |db.products|
      && db.products[lines[i].0].org == org && !db.products[lines[i].0].deleted
  }

  predicate ItemsAsRequested(items: seq<PurchaseItem>, lines: seq<(nat, Quantity)>) {
    |items| == |lines| && forall i :: 0 <= i < |lines| ==>
      items[i].product == lines[i].0 && items[i].ordered == lines[i].1 && items[i].received == 0
  }

  lemma DraftIsAsRequested(db: Db, org: nat, lines: seq<(nat, Quantity)>)
    ensures PurchaseStock.CreatePurchase(db, org, lines).Ok? <==> Orderable(db, org, lines)
    ensures PurchaseStock.CreatePurchase(db, org, lines).Ok? ==>
              var db1 := PurchaseStock.CreatePurchase(db, org, lines).value;
              && db1 == db.(purchases := db1.purchases)
              && |db1.purchases| == |db.purchases| + 1 && db1.purchases[..|db.purchases|] == db.purchases
              && var po := db1.purchases[|db.purchases|];
                 po.org == org && po.status == Drafted && ItemsAsRequested(po.items, lines)
  {
    assert forall i :: 0 <= i < |lines| ==> lines[i] in lines;
  }

  /** Only a draft can be revised, and revision replaces all of its items. */
  lemma RevisionIsAsRequested(db: Db, org: nat, id: nat, lines: seq<(nat, Quantity)>)
    ensures UpdatePurchase(db, org, id, lines).Ok? <==>
              && id < |db.purchases| && db.purchases[id].org == org && db.purchases[id].status == Drafted
              && Orderable(db, org, lines)
    ensures UpdatePurchase(db, org, id, lines).Ok? ==>
              var db1 := UpdatePurchase(db, org, id, lines).value;
              && |db1.purchases| == |db.purchases|
              && db1 == db.(purchases := db.purchases[id := db.purchases[id].(items := db1.purchases[id].items)])
              && ItemsAsRequested(db1.purchases[id].items, lines)
  {
    assert forall i :: 0 <= i < |lines| ==> lines[i] in lines;
  }

  /** Approval and cancellation take a draft and write nothing but the status. */
  lemma StatusIsAllThatChanges(db: Db, org: nat, id: nat)
    ensures ApprovePurchase(db, org, id).Ok? <==>
              id < |db.purchases| && db.purchases[id].org == org && db.purchases[id].status == Drafted
    ensures ApprovePurchase(db, org, id).Ok? ==>
              ApprovePurchase(db, org, id).value
                  == db.(purchases := db.purchases[id := db.purchases[id].(status := Approved)])
    ensures CancelPurchase(db, org, id).Ok? <==> ApprovePurchase(db, org, id).Ok?
    ensures CancelPurchase(db, org, id).Ok? ==>
              CancelPurchase(db, org, id).value
                  == db.(purchases := db.purchases[id := db.purchases[id].(status := Dropped)])
  {
  }

  // ---- Receiving ----

  function DeliveredUnits(items: seq<PurchaseItem>, product: nat): ReceivedLine -> int {
    (line: ReceivedLine) => if line.item < |items| && items[line.item].product == product then line.quantity else 0
  }

  function DeliveredInLot(items: seq<PurchaseItem>, product: nat, number: string): ReceivedLine -> int {
    (line: ReceivedLine) =>
      if line.item < |items| && items[line.item].product == product && line.lotNumber == number
      then line.quantity else 0
  }

  function DeliveredFor(item: nat): ReceivedLine -> int {
    (line: ReceivedLine) => if line.item == item then line.quantity else 0
  }

  function Delivered(items: seq<PurchaseItem>, lines: seq<ReceivedLine>, branch: nat): Cell -> int {
    (cell: Cell) => if cell.branch == branch then Sum(lines, DeliveredUnits(items, cell.product)) else 0
  }

  function DeliveredLots(items: seq<PurchaseItem>, lines: seq<ReceivedLine>, branch: nat, lot: LotKey): int {
    if lot.cell.branch == branch then Sum(lines, DeliveredInLot(items, lot.cell.product, lot.number)) else 0
  }

  function ProductOf(items: seq<PurchaseItem>, line: ReceivedLine): nat {
    if line.item < |items| then items[line.item].product else 0
  }

  /** The lot a line arrives in. */
  function LotOf(items: seq<PurchaseItem>, line: ReceivedLine, branch: nat): LotKey {
    LotKey(Cell(branch, ProductOf(items, line)), line.lotNumber)
  }

  function DeliveryMovements(items: seq<PurchaseItem>, lines: seq<ReceivedLine>, branch: nat,
      receiving: nat): seq<Posting> {
    seq(|lines|, i requires 0 <= i < |lines| =>
      Posting(Purchase, Cell(branch, ProductOf(items, lines[i])), lines[i].quantity, ReceivingRef(receiving),
              Some(LotOf(items, lines[i], branch))))
  }

  function DeliveryRows(items: seq<PurchaseItem>, lines: seq<ReceivedLine>, branch: nat,
      purchase: nat): seq<ReceiptLine> {
    seq(|lines|, i requires 0 <= i < |lines| =>
      ReceiptLine(purchase, ProductOf(items, lines[i]), lines[i].quantity, LotOf(items, lines[i], branch)))
  }

  predicate SameProducts(items: seq<PurchaseItem>, items1: seq<PurchaseItem>) {
    |items1| == |items| && forall i :: 0 <= i < |items| ==> items1[i].product == items[i].product
  }

  lemma StoreOneDelivers(r: Receipt, purchase: nat, receiving: nat, branch: nat, line: ReceivedLine, cell: Cell,
      lot: LotKey)
    requires StoreOne(r, purchase, receiving, branch, line).Ok?
    ensures var r1 := StoreOne(r, purchase, receiving, branch, line).value;
      && SameProducts(r.items, r1.items)
      && At(r1.books.onHand, cell)
         == At(r.books.onHand, cell)
             + (if cell.branch == branch then DeliveredUnits(r.items, cell.product)(line) else 0)
      && At(r1.lots, lot)
         == At(r.lots, lot)
             + (if lot.cell.branch == branch then DeliveredInLot(r.items, lot.cell.product, lot.number)(line) else 0)
  {
  }

  lemma StoreOneRecords(r: Receipt, purchase: nat, receiving: nat, branch: nat, line: ReceivedLine)
    requires StoreOne(r, purchase, receiving, branch, line).Ok?
    ensures var r1 := StoreOne(r, purchase, receiving, branch, line).value;
      && SameProducts(r.items, r1.items)
      && Appends(r.books, r1.books, DeliveryMovements(r.items, [line], branch, receiving))
      && r1.receipts == r.receipts + DeliveryRows(r.items, [line], branch, purchase)
      && forall i :: 0 <= i < |r.items| ==>
           r1.items[i] == r.items[i].(received := r.items[i].received + DeliveredFor(i)(line))
  {
  }

  lemma {:induction false} StoreAllDelivers(
      r: Receipt, purchase: nat, receiving: nat, branch: nat, lines: seq<ReceivedLine>, cell: Cell, lot: LotKey)
    requires StoreAll(r, purchase, receiving, branch, lines).Ok?
    ensures var r1 := StoreAll(r, purchase, receiving, branch, lines).value;
      && At(r1.books.onHand, cell) == At(r.books.onHand, cell) + Delivered(r.items, lines, branch)(cell)
      && At(r1.lots, lot) == At(r.lots, lot) + DeliveredLots(r.items, lines, branch, lot)
    decreases |lines|
  {
    if lines != [] {
      var r1 := StoreOne(r, purchase, receiving, branch, lines[0]).value;
      var units, inLot := DeliveredUnits(r.items, cell.product), DeliveredInLot(r.items, lot.cell.product, lot.number);
      StoreOneDelivers(r, purchase, receiving, branch, lines[0], cell, lot);
      StoreAllDelivers(r1, purchase, receiving, branch, lines[1..], cell, lot);
      SumFirst(lines, units);
      SumFirst(lines, inLot);
      SumAgree(lines[1..], units, DeliveredUnits(r1.items, cell.product));
      SumAgree(lines[1..], inLot, DeliveredInLot(r1.items, lot.cell.product, lot.number));
    }
  }

  lemma {:induction false} StoreAllRecords(r: Receipt, purchase: nat, receiving: nat, branch: nat,
      lines: seq<ReceivedLine>)
    requires StoreAll(r, purchase, receiving, branch, lines).Ok?
    ensures var r1 := StoreAll(r, purchase, receiving, branch, lines).value;
      && Appends(r.books, r1.books, DeliveryMovements(r.items, lines, branch, receiving))
      && r1.receipts == r.receipts + DeliveryRows(r.items, lines, branch, purchase)
    decreases |lines|
  {
    if lines != [] {
      var r1 := StoreOne(r, purchase, receiving, branch, lines[0]).value;
      StoreOneRecords(r, purchase, receiving, branch, lines[0]);
      StoreAllRecords(r1, purchase, receiving, branch, lines[1..]);
      var first, rest := DeliveryMovements(r.items, [lines[0]], branch, receiving),
          DeliveryMovements(r1.items, lines[1..], branch, receiving);
      AppendsMore(r.books, r1.books, StoreAll(r, purchase, receiving, branch, lines).value.books, first, rest);
      assert first + rest == DeliveryMovements(r.items, lines, branch, receiving);
      assert DeliveryRows(r.items, [lines[0]], branch, purchase) + DeliveryRows(r1.items, lines[1..], branch, purchase)
          == DeliveryRows(r.items, lines, branch, purchase);
    }
  }

  /** A receipt adds the delivered quantities to the rows and lots of the branch it names, records
      one movement and one receiving line for each, and counts them on the items. */
  lemma ReceiptStoresAtItsBranch(db: Db, org: nat, id: nat, branch: nat, lines: seq<ReceivedLine>)
    requires ReceivePurchase(db, org, id, branch, lines).Ok?
    ensures id < |db.purchases|
    ensures var po := db.purchases[id];
      var db1 := ReceivePurchase(db, org, id, branch, lines).value;
      && po.org == org && (po.status == Approved || po.status == PartlyReceived)
      && branch < |db.branches| && |db1.purchases| == |db.purchases|
      && db1 == db.(books := db1.books, purchases := db.purchases[id := db1.purchases[id]],
                    receivings := db.receivings + 1, receipts := db1.receipts, lots := db1.lots)
      && Grows(db.books, db1.books, Delivered(po.items, lines, branch))
      && (forall lot :: At(db1.lots, lot) == At(db.lots, lot) + DeliveredLots(po.items, lines, branch, lot))
      && Appends(db.books, db1.books, DeliveryMovements(po.items, lines, branch, db.receivings))
      && db1.receipts == db.receipts + DeliveryRows(po.items, lines, branch, id)
  {
    var r := Receipt(db.books, db.purchases[id].items, db.receipts, db.lots, false);
    var r1 := StoreAll(r, id, db.receivings, branch, lines).value;
    forall cell
      ensures At(r1.books.onHand, cell) == At(db.books.onHand, cell) + Delivered(r.items, lines, branch)(cell)
    {
      StoreAllDelivers(r, id, db.receivings, branch, lines, cell, LotKey(cell, ""));
    }
    forall lot ensures At(r1.lots, lot) == At(db.lots, lot) + DeliveredLots(r.items, lines, branch, lot) {
      StoreAllDelivers(r, id, db.receivings, branch, lines, lot.cell, lot);
    }
    StoreAllRecords(r, id, db.receivings, branch, lines);
  }

  /** The items count what was delivered, and nothing else of the order changes but its status. */
  lemma ReceiptCountsOnItems(db: Db, org: nat, id: nat, branch: nat, lines: seq<ReceivedLine>)
    requires ReceivePurchase(db, org, id, branch, lines).Ok?
    ensures id < |db.purchases| && id < |ReceivePurchase(db, org, id, branch, lines).value.purchases|
    ensures var po, po1 := db.purchases[id], ReceivePurchase(db, org, id, branch, lines).value.purchases[id];
      && po1.org == po.org && (po1.status == PartlyReceived || po1.status == FullyReceived)
      && |po1.items| == |po.items|
      && forall i :: 0 <= i < |po.items| ==>
           po1.items[i] == po.items[i].(received := po.items[i].received + Sum(lines, DeliveredFor(i)))
  {
    var r := Receipt(db.books, db.purchases[id].items, db.receipts, db.lots, false);
    StoreAllLength(r, id, db.receivings, branch, lines);
    forall i | 0 <= i < |r.items|
      ensures StoreAll(r, id, db.receivings, branch, lines).value.items[i]
           == r.items[i].(received := r.items[i].received + Sum(lines, DeliveredFor(i)))
    {
      StoreAllItems(r, id, db.receivings, branch, lines, i);
      SumAgree(lines, DeliveredFor(i), QuantityFor(i));
    }
  }

  /** A receipt is accepted exactly when the order is the organisation's and open, the branch
      exists, and no item receives more than is still open over all lines. */
  lemma ReceiptAcceptedExactly(db: Db, org: nat, id: nat, branch: nat, lines: seq<ReceivedLine>)
    requires id < |db.purchases| ==> PurchaseItemsStorable(db.purchases[id].items)
    ensures ReceivePurchase(db, org, id, branch, lines).Ok? <==>
              && id < |db.purchases| && db.purchases[id].org == org && branch < |db.branches|
              && (db.purchases[id].status == Approved || db.purchases[id].status == PartlyReceived)
              && (forall line :: line in lines ==> line.item < |db.purchases[id].items|)
              && forall i :: 0 <= i < |db.purchases[id].items| ==>
                   db.purchases[id].items[i].received + Sum(lines, DeliveredFor(i)) <= db.purchases[id].items[i].ordered
  {
    if id < |db.purchases| {
      var items := db.purchases[id].items;
      var r := Receipt(db.books, items, db.receipts, db.lots, false);
      AcceptedExactlyWithinOrder(r, id, db.receivings, branch, lines);
      forall i: nat ensures Sum(lines, DeliveredFor(i)) == Sum(lines, QuantityFor(i)) {
        SumAgree(lines, DeliveredFor(i), QuantityFor(i));
      }
    }
  }
}
