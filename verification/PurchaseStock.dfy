/** Purchase orders and the receipts that turn them into lots and stock. */
module PurchaseStock {
  import opened Basics
  import opened Sums
  import opened StockBooks
  import opened StockData

  datatype ReceivedLine = ReceivedLine(item: nat, quantity: Quantity, lotNumber: string)

  /** `short` is the negation of `all_fully_received`. */
  datatype Receipt = Receipt(
    books: Books, items: seq<PurchaseItem>, receipts: seq<ReceiptLine>, lots: map<LotKey, int>, short: bool)

  function NewPurchaseItem(line: (nat, Quantity)): PurchaseItem {
    PurchaseItem(line.0, line.1, 0)
  }

  function NewPurchaseItems(lines: seq<(nat, Quantity)>): seq<PurchaseItem> {
    seq(|lines|, i requires 0 <= i < |lines| => NewPurchaseItem(lines[i]))
  }

  predicate Buyable(db: Db, org: nat, lines: seq<(nat, Quantity)>) {
    forall line :: line in lines ==>
      line.0 < |db.products| && db.products[line.0].org == org && !db.products[line.0].deleted
  }

  function CreatePurchase(db: Db, org: nat, lines: seq<(nat, Quantity)>): Result<Db> {
    var _ :- Need(Buyable(db, org, lines), NotFound);
    Ok(db.(purchases := db.purchases + [PurchaseOrder(org, Drafted, NewPurchaseItems(lines))]))
  }

  predicate OwnsPurchase(db: Db, org: nat, id: nat) {
    id < |db.purchases| && db.purchases[id].org == org
  }

  /** `update_purchase_order`: the old items are deleted and new ones created. */
  function UpdatePurchase(db: Db, org: nat, id: nat, lines: seq<(nat, Quantity)>): Result<Db> {
    if !OwnsPurchase(db, org, id) then Err(NotFound)
    else
      var po := db.purchases[id];
      var _ :- Need(po.status == Drafted, BadRequest);
      var _ :- Need(Buyable(db, org, lines), NotFound);
      Ok(db.(purchases := db.purchases[id := po.(items := NewPurchaseItems(lines))]))
  }

  function ApprovePurchase(db: Db, org: nat, id: nat): Result<Db> {
    if !OwnsPurchase(db, org, id) then Err(NotFound)
    else
      var po := db.purchases[id];
      var _ :- Need(po.status == Drafted, BadRequest);
      Ok(db.(purchases := db.purchases[id := po.(status := Approved)]))
  }

  function CancelPurchase(db: Db, org: nat, id: nat): Result<Db> {
    if !OwnsPurchase(db, org, id) then Err(NotFound)
    else
      var po := db.purchases[id];
      var _ :- Need(po.status == Drafted, BadRequest);
      Ok(db.(purchases := db.purchases[id := po.(status := Dropped)]))
  }

  /** The CHECK constraints on purchase order items. */
  predicate PurchaseItemsStorable(items: seq<PurchaseItem>) {
    forall item :: item in items ==> 0 <= item.received <= item.ordered
  }

  function StorePosting(receiving: nat, lot: LotKey, quantity: Quantity): Posting {
    Posting(Purchase, lot.cell, quantity, ReceivingRef(receiving), Some(lot))
  }

  /** One received line.  Inserting its row flushes the previous line's items first. */
  function StoreOne(r: Receipt, purchase: nat, receiving: nat, branch: nat, line: ReceivedLine): Result<Receipt> {
    if line.item >= |r.items| then Err(NotFound)
    else
      var _ :- Need(PurchaseItemsStorable(r.items), Integrity);
      var item := r.items[line.item];
      var lot := LotKey(Cell(branch, item.product), line.lotNumber);
      Ok(Receipt(
           Entered(r.books, StorePosting(receiving, lot, line.quantity)),
           r.items[line.item := item.(received := item.received + line.quantity)],
           r.receipts + [ReceiptLine(purchase, item.product, line.quantity, lot)],
           r.lots[lot := At(r.lots, lot) + line.quantity],
           r.short || item.received + line.quantity < item.ordered))
  }

  function StoreAll(r: Receipt, purchase: nat, receiving: nat, branch: nat, lines: seq<ReceivedLine>): Result<Receipt>
    decreases |lines|
  {
    if lines == [] then Ok(r)
    else
      var r1 :- StoreOne(r, purchase, receiving, branch, lines[0]);
      StoreAll(r1, purchase, receiving, branch, lines[1..])
  }

  function ReceivePurchase(db: Db, org: nat, id: nat, branch: nat, lines: seq<ReceivedLine>): Result<Db> {
    if !OwnsPurchase(db, org, id) then Err(NotFound)
    else
      var po := db.purchases[id];
      var _ :- Need(po.status == Approved || po.status == PartlyReceived, BadRequest);
      var _ :- Need(branch < |db.branches|, Integrity);
      var r :- StoreAll(Receipt(db.books, po.items, db.receipts, db.lots, false), id, db.receivings, branch, lines);
      var _ :- Need(PurchaseItemsStorable(r.items), Integrity);
      var status := if r.short then PartlyReceived else FullyReceived;
      Ok(db.(books := r.books, purchases := db.purchases[id := po.(status := status, items := r.items)],
             receivings := db.receivings + 1, receipts := r.receipts, lots := r.lots))
  }

  // ---- What the loop adds up to ----

  function ReceivedOf(product: nat): PurchaseItem -> int {
    (item: PurchaseItem) => if item.product == product then item.received else 0
  }

  function LinesFor(purchase: nat, product: nat): ReceiptLine -> int {
    (line: ReceiptLine) => if line.purchase == purchase && line.product == product then line.quantity else 0
  }

  function LinesInto(lot: LotKey): ReceiptLine -> int {
    (line: ReceiptLine) => if line.lot == lot then line.quantity else 0
  }

  function PurchasesInto(lot: LotKey): Posting -> int {
    (p: Posting) => if p.kind.Purchase? && p.lot == Some(lot) then p.change else 0
  }

  function QuantityFor(item: nat): ReceivedLine -> int {
    (line: ReceivedLine) => if line.item == item then line.quantity else 0
  }

  /** How far a receipt has moved the three records of what arrived, in step with one another. */
  ghost predicate InStep(r0: Receipt, r: Receipt, purchase: nat) {
    && (forall product :: ItemsInStep(r0, r, purchase, product))
    && (forall other, product :: other != purchase ==>
          Sum(r.receipts, LinesFor(other, product)) == Sum(r0.receipts, LinesFor(other, product)))
    && (forall lot :: LotInStep(r0, r, lot))
  }

  ghost predicate ItemsInStep(r0: Receipt, r: Receipt, purchase: nat, product: nat) {
    Sum(r.items, ReceivedOf(product)) - Sum(r0.items, ReceivedOf(product))
    == Sum(r.receipts, LinesFor(purchase, product)) - Sum(r0.receipts, LinesFor(purchase, product))
  }

  ghost predicate LotInStep(r0: Receipt, r: Receipt, lot: LotKey) {
    At(r.lots, lot) - At(r0.lots, lot)
    == Sum(r.receipts, LinesInto(lot)) - Sum(r0.receipts, LinesInto(lot))
    == Tally(r.books.movements, PurchasesInto(lot)) - Tally(r0.books.movements, PurchasesInto(lot))
  }

  lemma StoreOneInStep(r: Receipt, purchase: nat, receiving: nat, branch: nat, line: ReceivedLine)
    requires StoreOne(r, purchase, receiving, branch, line).Ok?
    ensures InStep(r, StoreOne(r, purchase, receiving, branch, line).value, purchase)
  {
    var r1 := StoreOne(r, purchase, receiving, branch, line).value;
    var item := r.items[line.item];
    var row := r1.receipts[|r.receipts|];
    forall product ensures ItemsInStep(r, r1, purchase, product) {
      SumPush(r.receipts, row, LinesFor(purchase, product));
      SumUpdate(r.items, line.item, r1.items[line.item], ReceivedOf(product));
    }
    forall other, product | other != purchase
      ensures Sum(r1.receipts, LinesFor(other, product)) == Sum(r.receipts, LinesFor(other, product))
    {
      SumPush(r.receipts, row, LinesFor(other, product));
    }
    forall lot ensures LotInStep(r, r1, lot) {
      SumPush(r.receipts, row, LinesInto(lot));
      SumPush(r.books.movements, r1.books.movements[|r.books.movements|], OnPosting(PurchasesInto(lot)));
    }
  }

  lemma {:induction false} StoreAllInStep(r: Receipt, purchase: nat, receiving: nat, branch: nat,
      lines: seq<ReceivedLine>)
    returns (ps: seq<Posting>)
    requires StoreAll(r, purchase, receiving, branch, lines).Ok?
    requires Stocked(r.books)
    ensures var r1 := StoreAll(r, purchase, receiving, branch, lines).value;
      && InStep(r, r1, purchase)
      && LegalAll(r.books, ps) && r1.books == EnteredAll(r.books, ps)
    ensures forall p :: p in ps ==> p.kind.Purchase? && p.change > 0 && p.reference.ReceivingRef?
    ensures forall row :: row in StoreAll(r, purchase, receiving, branch, lines).value.receipts ==>
      row in r.receipts || row.purchase == purchase
    decreases |lines|
  {
    if lines == [] {
      ps := [];
    } else {
      var r1 := StoreOne(r, purchase, receiving, branch, lines[0]).value;
      StoreOneInStep(r, purchase, receiving, branch, lines[0]);
      var rest := StoreAllInStep(r1, purchase, receiving, branch, lines[1..]);
      var lot := LotKey(Cell(branch, r.items[lines[0].item].product), lines[0].lotNumber);
      var p := StorePosting(receiving, lot, lines[0].quantity);
      ps := [p] + rest;
      assert ps[1..] == rest;
      var last := StoreAll(r, purchase, receiving, branch, lines).value;
      forall lot ensures LotInStep(r, last, lot) {
        assert LotInStep(r, r1, lot) && LotInStep(r1, last, lot);
      }
      forall product ensures ItemsInStep(r, last, purchase, product) {
        assert ItemsInStep(r, r1, purchase, product) && ItemsInStep(r1, last, purchase, product);
      }
    }
  }

  /** Each item grows by exactly what its lines bring. */
  lemma {:induction false} StoreAllItems(r: Receipt, purchase: nat, receiving: nat, branch: nat,
      lines: seq<ReceivedLine>, i: nat)
    requires StoreAll(r, purchase, receiving, branch, lines).Ok?
    requires i < |r.items|
    ensures var items := StoreAll(r, purchase, receiving, branch, lines).value.items;
      && |items| == |r.items|
      && items[i] == r.items[i].(received := r.items[i].received + Sum(lines, QuantityFor(i)))
    decreases |lines|
  {
    if lines != [] {
      StoreAllItems(StoreOne(r, purchase, receiving, branch, lines[0]).value, purchase, receiving, branch,
          lines[1..], i);
      SumFirst(lines, QuantityFor(i));
    }
  }

  /** A receipt is accepted exactly when every line names an item of the order and no item
      receives, over all its lines together, more than is still open. */
  lemma {:induction false} AcceptedExactlyWithinOrder(
      r: Receipt, purchase: nat, receiving: nat, branch: nat, lines: seq<ReceivedLine>)
    requires PurchaseItemsStorable(r.items)
    ensures (var s := StoreAll(r, purchase, receiving, branch, lines); s.Ok? && PurchaseItemsStorable(s.value.items))
      <==> && (forall line :: line in lines ==> line.item < |r.items|)
           && (forall i :: 0 <= i < |r.items| ==>
                 Sum(lines, QuantityFor(i)) <= r.items[i].ordered - r.items[i].received)
    decreases |lines|
  {
    if lines == [] {
      return;
    }
    var line, rest := lines[0], lines[1..];
    assert forall l :: l in lines <==> l == line || l in rest;
    if line.item >= |r.items| {
      return;
    }
    forall i: nat ensures Sum(lines, QuantityFor(i)) == QuantityFor(i)(line) + Sum(rest, QuantityFor(i))
    ensures Sum(rest, QuantityFor(i)) >= 0
    {
      SumFirst(lines, QuantityFor(i));
      SumNonNegative(rest, QuantityFor(i));
    }
    var r1 := StoreOne(r, purchase, receiving, branch, line).value;
    if PurchaseItemsStorable(r1.items) {
      AcceptedExactlyWithinOrder(r1, purchase, receiving, branch, rest);
    } else {
      assert r1.items[line.item].received > r1.items[line.item].ordered by {
        assert forall i :: 0 <= i < |r.items| && i != line.item ==> r1.items[i] in r.items;
        assert r.items[line.item] in r.items;
      }
      assert Sum(lines, QuantityFor(line.item)) > r.items[line.item].ordered - r.items[line.item].received;
      if StoreAll(r, purchase, receiving, branch, lines).Ok? {
        StoreAllItems(r, purchase, receiving, branch, lines, line.item);
      }
    }
  }

  /** The line brings all that is open on its item. */
  predicate Fills(items: seq<PurchaseItem>, line: ReceivedLine) {
    line.item < |items| && line.quantity == items[line.item].ordered - items[line.item].received
  }

  /** In an accepted receipt no later line of the same item fits beside one that fills it. */
  lemma FirstLineFits(r: Receipt, purchase: nat, receiving: nat, branch: nat, lines: seq<ReceivedLine>)
    requires PurchaseItemsStorable(r.items) && lines != []
    requires StoreAll(r, purchase, receiving, branch, lines).Ok?
    requires PurchaseItemsStorable(StoreAll(r, purchase, receiving, branch, lines).value.items)
    ensures var line := lines[0];
      line.item < |r.items| &&
      var open := r.items[line.item].ordered - r.items[line.item].received;
      line.quantity <= open && forall l :: l in lines[1..] && l.item == line.item ==> line.quantity + l.quantity <= open
  {
    var line, rest := lines[0], lines[1..];
    AcceptedExactlyWithinOrder(r, purchase, receiving, branch, lines);
    SumFirst(lines, QuantityFor(line.item));
    SumNonNegative(rest, QuantityFor(line.item));
    forall l | l in rest && l.item == line.item ensures l.quantity <= Sum(rest, QuantityFor(line.item)) {
      var k :| 0 <= k < |rest| && rest[k] == l;
      SumBoundsRow(rest, k, QuantityFor(line.item));
    }
  }

  /** An accepted receipt marks the order received exactly when each of its lines brings all
      that was open on the item.  Two half deliveries of one item in one receipt therefore
      leave the order marked partly received with nothing open. */
  lemma {:induction false} MarkedReceivedExactly(
      r: Receipt, purchase: nat, receiving: nat, branch: nat, lines: seq<ReceivedLine>)
    requires PurchaseItemsStorable(r.items)
    requires StoreAll(r, purchase, receiving, branch, lines).Ok?
    requires PurchaseItemsStorable(StoreAll(r, purchase, receiving, branch, lines).value.items)
    ensures !StoreAll(r, purchase, receiving, branch, lines).value.short
      <==> !r.short && forall line :: line in lines ==> Fills(r.items, line)
    decreases |lines|
  {
    if lines == [] {
      return;
    }
    var line, rest := lines[0], lines[1..];
    assert forall l :: l in lines <==> l == line || l in rest;
    FirstLineFits(r, purchase, receiving, branch, lines);
    StoreOneShort(r, purchase, receiving, branch, line);
    var r1 := StoreOne(r, purchase, receiving, branch, line).value;
    MarkedReceivedExactly(r1, purchase, receiving, branch, rest);
    if Fills(r.items, line) {
      forall l | l in rest ensures Fills(r.items, l) <==> Fills(r1.items, l) {
        assert l.item == line.item ==> !Fills(r.items, l);
      }
    }
  }

  lemma StoreOneShort(r: Receipt, purchase: nat, receiving: nat, branch: nat, line: ReceivedLine)
    requires PurchaseItemsStorable(r.items) && line.item < |r.items|
    requires line.quantity <= r.items[line.item].ordered - r.items[line.item].received
    ensures StoreOne(r, purchase, receiving, branch, line).Ok?
    ensures var r1 := StoreOne(r, purchase, receiving, branch, line).value;
      && PurchaseItemsStorable(r1.items)
      && (r1.short <==> r.short || !Fills(r.items, line))
      && r1.items == r.items[line.item := r.items[line.item].(received := r.items[line.item].received + line.quantity)]
  {
    assert forall i :: 0 <= i < |r.items| ==> r.items[i] in r.items;
  }
}
