/** What each transfer service does to every table, told in terms of the request and the database
    before it. */
module TransferEffects {
  import opened Basics
  import opened Sums
  import opened RunningLedger
  import opened StockBooks
  import opened StockData
  import opened TransferStock
  import opened StockRuns
  import opened StockTheorems
  import opened StockEffects

  // ---- Drafts ----

  /** A transfer is drafted exactly between two different branches of the organisation and for
      known products; it is a draft of what was asked for, with nothing shipped. */
  lemma DraftIsAsRequested(db: Db, org: nat, source: nat, dest: nat, lines: seq<(nat, Quantity)>)
    ensures TransferStock.CreateTransfer(db, org, source, dest, lines).Ok? <==>
              && source != dest && source < |db.branches| && dest < |db.branches|
              && db.branches[source] == org && db.branches[dest] == org
              && forall line :: line in lines ==> line.0 < |db.products|
    ensures TransferStock.CreateTransfer(db, org, source, dest, lines).Ok? ==>
              var db1 := TransferStock.CreateTransfer(db, org, source, dest, lines).value;
              && db1 == db.(transfers := db1.transfers)
              && |db1.transfers| == |db.transfers| + 1 && db1.transfers[..|db.transfers|] == db.transfers
              && var t := db1.transfers[|db.transfers|];
                 && t.org == org && t.source == source && t.dest == dest && t.status == Draft
                 && |t.items| == |lines|
                 && forall i :: 0 <= i < |lines| ==>
                      t.items[i].product == lines[i].0 && t.items[i].requested == lines[i].1
                      && t.items[i].shipped == 0 && t.items[i].received == 0 && t.items[i].damaged == 0
  {
  }

  /** Approval and cancellation write nothing but the status. */
  lemma StatusIsAllThatChanges(db: Db, org: nat, id: nat)
    ensures ApproveTransfer(db, org, id).Ok? <==>
              id < |db.transfers| && db.transfers[id].org == org && db.transfers[id].status == Draft
    ensures ApproveTransfer(db, org, id).Ok? ==>
              ApproveTransfer(db, org, id).value
                  == db.(transfers := db.transfers[id := db.transfers[id].(status := Awaiting)])
    ensures TransferStock.CancelTransfer(db, org, id).Ok? <==>
              && id < |db.transfers| && db.transfers[id].org == org
              && (db.transfers[id].status == Draft || db.transfers[id].status == Awaiting)
    ensures TransferStock.CancelTransfer(db, org, id).Ok? ==>
              TransferStock.CancelTransfer(db, org, id).value
              == db.(transfers := db.transfers[id := db.transfers[id].(status := Withdrawn)])
  {
  }

  // ---- Shipping ----

  function ShippedUnits(items: seq<TransferItem>, product: nat): ShipLine -> int {
    (line: ShipLine) => if line.item < |items| && items[line.item].product == product then line.quantity else 0
  }

  function ShippedFor(item: nat): ShipLine -> int {
    (line: ShipLine) => if line.item == item then line.quantity else 0
  }

  function SentOff(items: seq<TransferItem>, lines: seq<ShipLine>, branch: nat): Cell -> int {
    (cell: Cell) => if cell.branch == branch then -Sum(lines, ShippedUnits(items, cell.product)) else 0
  }

  /** One movement per line, out of the branch. */
  function ShipMovements(items: seq<TransferItem>, lines: seq<ShipLine>, branch: nat, id: nat): seq<Posting> {
    seq(|lines|, i requires 0 <= i < |lines| =>
      Posting(TransferOut, Cell(branch, if lines[i].item < |items| then items[lines[i].item].product else 0),
              0 - lines[i].quantity, TransferRef(id), None))
  }

  predicate SameProducts(items: seq<TransferItem>, items1: seq<TransferItem>) {
    |items1| == |items| && forall i :: 0 <= i < |items| ==> items1[i].product == items[i].product
  }

  lemma ShipOneSends(s: Shipping, id: nat, source: nat, line: ShipLine, cell: Cell)
    requires ShipOne(s, id, source, line).Ok?
    ensures var s1 := ShipOne(s, id, source, line).value;
      && SameProducts(s.items, s1.items)
      && At(s1.books.onHand, cell)
         == At(s.books.onHand, cell) - (if cell.branch == source then ShippedUnits(s.items, cell.product)(line) else 0)
      && Appends(s.books, s1.books, ShipMovements(s.items, [line], source, id))
      && forall i :: 0 <= i < |s.items| ==>
           s1.items[i] == s.items[i].(shipped := s.items[i].shipped + ShippedFor(i)(line))
  {
  }

  lemma {:induction false} ShipAllSends(s: Shipping, id: nat, source: nat, lines: seq<ShipLine>, cell: Cell)
    requires ShipAll(s, id, source, lines).Ok?
    ensures At(ShipAll(s, id, source, lines).value.books.onHand, cell)
         == At(s.books.onHand, cell) + SentOff(s.items, lines, source)(cell)
    decreases |lines|
  {
    if lines != [] {
      var s1 := ShipOne(s, id, source, lines[0]).value;
      ShipOneSends(s, id, source, lines[0], cell);
      ShipAllSends(s1, id, source, lines[1..], cell);
      SumFirst(lines, ShippedUnits(s.items, cell.product));
      SumAgree(lines[1..], ShippedUnits(s.items, cell.product), ShippedUnits(s1.items, cell.product));
    }
  }

  lemma {:induction false} ShipAllRecords(s: Shipping, id: nat, source: nat, lines: seq<ShipLine>)
    requires ShipAll(s, id, source, lines).Ok?
    ensures Appends(s.books, ShipAll(s, id, source, lines).value.books, ShipMovements(s.items, lines, source, id))
    decreases |lines|
  {
    if lines != [] {
      var s1 := ShipOne(s, id, source, lines[0]).value;
      var s2 := ShipAll(s, id, source, lines).value;
      ShipOneSends(s, id, source, lines[0], Cell(source, 0));
      ShipAllRecords(s1, id, source, lines[1..]);
      var first, rest := ShipMovements(s.items, [lines[0]], source, id),
          ShipMovements(s1.items, lines[1..], source, id);
      AppendsMore(s.books, s1.books, s2.books, first, rest);
      assert first + rest == ShipMovements(s.items, lines, source, id);
    }
  }

  lemma {:induction false} ShipAllCounts(s: Shipping, id: nat, source: nat, lines: seq<ShipLine>, i: nat)
    requires ShipAll(s, id, source, lines).Ok? && i < |s.items|
    ensures var items := ShipAll(s, id, source, lines).value.items;
      |items| == |s.items| && items[i] == s.items[i].(shipped := s.items[i].shipped + Sum(lines, ShippedFor(i)))
    decreases |lines|
  {
    if lines != [] {
      ShipOneSends(s, id, source, lines[0], Cell(source, 0));
      ShipAllCounts(ShipOne(s, id, source, lines[0]).value, id, source, lines[1..], i);
      SumFirst(lines, ShippedFor(i));
    }
  }

  lemma {:induction false} ShipAllLength(s: Shipping, id: nat, source: nat, lines: seq<ShipLine>)
    requires ShipAll(s, id, source, lines).Ok?
    ensures |ShipAll(s, id, source, lines).value.items| == |s.items|
    decreases |lines|
  {
    if lines != [] {
      ShipAllLength(ShipOne(s, id, source, lines[0]).value, id, source, lines[1..]);
    }
  }

  /** No item is shipped beyond its request, and the source branch has what is shipped. */
  ghost predicate SourceCovers(db: Db, t: Transfer, lines: seq<ShipLine>) {
    && (forall line :: line in lines ==> line.item < |t.items|)
    && (forall i :: 0 <= i < |t.items| && Sum(lines, ShippedFor(i)) > 0 ==>
          t.items[i].shipped + Sum(lines, ShippedFor(i)) <= t.items[i].requested)
    && (forall product: nat :: Sum(lines, ShippedUnits(t.items, product)) > 0 ==>
          Cell(t.source, product) in db.books.onHand
          && Sum(lines, ShippedUnits(t.items, product)) <= db.books.onHand[Cell(t.source, product)])
  }

  lemma SourceCoversIs(db: Db, t: Transfer, lines: seq<ShipLine>)
    ensures SourceCovers(db, t, lines) <==> CanShip(db.books, t.items, t.source, lines)
  {
    forall i: nat ensures Sum(lines, ShippedFor(i)) == Sum(lines, ShippedOf(i)) && Sum(lines, ShippedOf(i)) >= 0 {
      SumAgree(lines, ShippedFor(i), ShippedOf(i));
      SumNonNegative(lines, ShippedOf(i));
    }
    forall product: nat
      ensures Sum(lines, ShippedUnits(t.items, product)) == Sum(lines, ShippedProduct(t.items, product))
    {
      SumAgree(lines, ShippedUnits(t.items, product), ShippedProduct(t.items, product));
    }
  }

  /** A transfer is shipped exactly when it is the organisation's, approved, and its source branch
      covers the lines. */
  lemma ShippedExactly(db: Db, org: nat, id: nat, lines: seq<ShipLine>)
    ensures ShipTransfer(db, org, id, lines).Ok? <==>
              && id < |db.transfers| && db.transfers[id].org == org && db.transfers[id].status == Awaiting
              && SourceCovers(db, db.transfers[id], lines)
  {
    if id < |db.transfers| {
      var t := db.transfers[id];
      SourceCoversIs(db, t, lines);
      ShipsExactlyWhenCovered(Shipping(db.books, t.items), id, t.source, lines);
    }
  }

  /** Shipping takes the lines off the rows of the source branch, one movement each, counts them on
      the items, and puts the transfer in transit. */
  lemma ShippingTakesFromTheSource(db: Db, org: nat, id: nat, lines: seq<ShipLine>)
    requires ShipTransfer(db, org, id, lines).Ok?
    ensures id < |db.transfers|
    ensures var t := db.transfers[id];
      var db1 := ShipTransfer(db, org, id, lines).value;
      && |db1.transfers| == |db.transfers|
      && db1 == db.(books := db1.books, transfers := db.transfers[id := db1.transfers[id]])
      && db1.transfers[id] == t.(status := InTransit, items := db1.transfers[id].items)
      && Grows(db.books, db1.books, SentOff(t.items, lines, t.source))
      && Appends(db.books, db1.books, ShipMovements(t.items, lines, t.source, id))
      && |db1.transfers[id].items| == |t.items|
      && forall i :: 0 <= i < |t.items| ==>
           db1.transfers[id].items[i] == t.items[i].(shipped := t.items[i].shipped + Sum(lines, ShippedFor(i)))
  {
    var t := db.transfers[id];
    var s := Shipping(db.books, t.items);
    forall cell ensures At(ShipAll(s, id, t.source, lines).value.books.onHand, cell)
                     == At(db.books.onHand, cell) + SentOff(t.items, lines, t.source)(cell) {
      ShipAllSends(s, id, t.source, lines, cell);
    }
    ShipAllRecords(s, id, t.source, lines);
    ShipAllLength(s, id, t.source, lines);
    forall i | 0 <= i < |t.items|
      ensures ShipAll(s, id, t.source, lines).value.items[i]
          == t.items[i].(shipped := t.items[i].shipped + Sum(lines, ShippedFor(i)))
    {
      ShipAllCounts(s, id, t.source, lines, i);
    }
  }

  // ---- Receiving ----

  function ReceivedUnits(items: seq<TransferItem>, product: nat): ReceiveLine -> int {
    (line: ReceiveLine) => if line.item < |items| && items[line.item].product == product then line.received else 0
  }

  function ReceivedFor(item: nat): ReceiveLine -> int {
    (line: ReceiveLine) => if line.item == item then line.received else 0
  }

  function DamagedFor(item: nat): ReceiveLine -> int {
    (line: ReceiveLine) => if line.item == item then line.damaged else 0
  }

  function TakenIn(items: seq<TransferItem>, lines: seq<ReceiveLine>, branch: nat): Cell -> int {
    (cell: Cell) => if cell.branch == branch then Sum(lines, ReceivedUnits(items, cell.product)) else 0
  }

  /** What one line records: units that came in, then units that were damaged. */
  function LineRecords(product: nat, line: ReceiveLine, branch: nat, id: nat): seq<Posting> {
    (if line.received > 0 then [Posting(TransferIn, Cell(branch, product), line.received, TransferRef(id), None)]
        else [])
    + (if line.damaged > 0 then [Posting(Damage, Cell(branch, product), 0 - line.damaged, TransferRef(id), None)]
        else [])
  }

  function ReceiveMovements(items: seq<TransferItem>, lines: seq<ReceiveLine>, branch: nat, id: nat): seq<Posting>
    decreases |lines|
  {
    if lines == [] then []
    else
      var product := if lines[0].item < |items| then items[lines[0].item].product else 0;
      LineRecords(product, lines[0], branch, id) + ReceiveMovements(items, lines[1..], branch, id)
  }

  lemma ReceiveOneTakes(r: Receiving, id: nat, dest: nat, line: ReceiveLine, cell: Cell)
    requires ReceiveOne(r, id, dest, line).Ok? && !ReceiveOne(r, id, dest, line).value.session.broken
    ensures var r1 := ReceiveOne(r, id, dest, line).value;
      && SameProducts(r.items, r1.items)
      && At(r1.session.books.onHand, cell)
         == At(r.session.books.onHand, cell)
             + (if cell.branch == dest then ReceivedUnits(r.items, cell.product)(line) else 0)
      && forall i :: 0 <= i < |r.items| ==>
           r1.items[i] == r.items[i].(received := r.items[i].received + ReceivedFor(i)(line),
                                      damaged := r.items[i].damaged + DamagedFor(i)(line))
  {
  }

  lemma ReceiveOneRecords(r: Receiving, id: nat, dest: nat, line: ReceiveLine)
    requires ReceiveOne(r, id, dest, line).Ok? && !ReceiveOne(r, id, dest, line).value.session.broken
    ensures Appends(r.session.books, ReceiveOne(r, id, dest, line).value.session.books,
                    LineRecords(r.items[line.item].product, line, dest, id))
  {
  }

  lemma FirstNotBroken(r: Receiving, id: nat, dest: nat, lines: seq<ReceiveLine>)
    requires lines != [] && ReceiveAll(r, id, dest, lines).Ok? && !ReceiveAll(r, id, dest, lines).value.session.broken
    ensures ReceiveOne(r, id, dest, lines[0]).Ok? && !ReceiveOne(r, id, dest, lines[0]).value.session.broken
  {
    var r1 := ReceiveOne(r, id, dest, lines[0]).value;
    if r1.session.broken {
      ReceiveAllStaysBroken(r1, id, dest, lines[1..]);
    }
  }

  lemma {:induction false} ReceiveAllTakes(r: Receiving, id: nat, dest: nat, lines: seq<ReceiveLine>, cell: Cell)
    requires ReceiveAll(r, id, dest, lines).Ok? && !ReceiveAll(r, id, dest, lines).value.session.broken
    ensures At(ReceiveAll(r, id, dest, lines).value.session.books.onHand, cell)
         == At(r.session.books.onHand, cell) + TakenIn(r.items, lines, dest)(cell)
    decreases |lines|
  {
    if lines != [] {
      FirstNotBroken(r, id, dest, lines);
      var r1 := ReceiveOne(r, id, dest, lines[0]).value;
      ReceiveOneTakes(r, id, dest, lines[0], cell);
      ReceiveAllTakes(r1, id, dest, lines[1..], cell);
      SumFirst(lines, ReceivedUnits(r.items, cell.product));
      SumAgree(lines[1..], ReceivedUnits(r.items, cell.product), ReceivedUnits(r1.items, cell.product));
    }
  }

  lemma {:induction false} MovementsByProduct(items: seq<TransferItem>, items1: seq<TransferItem>,
      lines: seq<ReceiveLine>,
                                              branch: nat, id: nat)
    requires SameProducts(items, items1)
    ensures ReceiveMovements(items, lines, branch, id) == ReceiveMovements(items1, lines, branch, id)
    decreases |lines|
  {
    if lines != [] {
      MovementsByProduct(items, items1, lines[1..], branch, id);
    }
  }

  lemma {:induction false} ReceiveAllRecords(r: Receiving, id: nat, dest: nat, lines: seq<ReceiveLine>)
    requires ReceiveAll(r, id, dest, lines).Ok? && !ReceiveAll(r, id, dest, lines).value.session.broken
    ensures Appends(r.session.books, ReceiveAll(r, id, dest, lines).value.session.books,
                    ReceiveMovements(r.items, lines, dest, id))
    decreases |lines|
  {
    if lines != [] {
      FirstNotBroken(r, id, dest, lines);
      var r1 := ReceiveOne(r, id, dest, lines[0]).value;
      ReceiveOneTakes(r, id, dest, lines[0], Cell(dest, 0));
      ReceiveOneRecords(r, id, dest, lines[0]);
      ReceiveAllRecords(r1, id, dest, lines[1..]);
      MovementsByProduct(r.items, r1.items, lines[1..], dest, id);
      AppendsMore(r.session.books, r1.session.books, ReceiveAll(r, id, dest, lines).value.session.books,
                  LineRecords(r.items[lines[0].item].product, lines[0], dest, id),
                  ReceiveMovements(r.items, lines[1..], dest, id));
    }
  }

  lemma {:induction false} ReceiveAllCounts(r: Receiving, id: nat, dest: nat, lines: seq<ReceiveLine>, i: nat)
    requires ReceiveAll(r, id, dest, lines).Ok? && !ReceiveAll(r, id, dest, lines).value.session.broken && i < |r.items|
    ensures var items := ReceiveAll(r, id, dest, lines).value.items;
      |items| == |r.items|
      && items[i] == r.items[i].(received := r.items[i].received + Sum(lines, ReceivedFor(i)),
                                 damaged := r.items[i].damaged + Sum(lines, DamagedFor(i)))
    decreases |lines|
  {
    if lines != [] {
      FirstNotBroken(r, id, dest, lines);
      ReceiveOneTakes(r, id, dest, lines[0], Cell(dest, 0));
      ReceiveAllCounts(ReceiveOne(r, id, dest, lines[0]).value, id, dest, lines[1..], i);
      SumFirst(lines, ReceivedFor(i));
      SumFirst(lines, DamagedFor(i));
    }
  }

  lemma {:induction false} ReceiveAllLength(r: Receiving, id: nat, dest: nat, lines: seq<ReceiveLine>)
    requires ReceiveAll(r, id, dest, lines).Ok?
    ensures |ReceiveAll(r, id, dest, lines).value.items| == |r.items|
    decreases |lines|
  {
    if lines != [] {
      ReceiveAllLength(ReceiveOne(r, id, dest, lines[0]).value, id, dest, lines[1..]);
    }
  }

  /** Receiving adds the undamaged units to the rows of the destination branch, records them and
      the damage line by line, counts both on the items, and completes the transfer. */
  lemma ReceivingAddsToTheDestination(db: Db, org: nat, id: nat, lines: seq<ReceiveLine>)
    requires ReceiveTransfer(db, org, id, lines).Ok?
    ensures id < |db.transfers|
    ensures var t := db.transfers[id];
      var db1 := ReceiveTransfer(db, org, id, lines).value;
      && t.org == org && t.status == InTransit && |db1.transfers| == |db.transfers|
      && db1 == db.(books := db1.books, transfers := db.transfers[id := db1.transfers[id]])
      && db1.transfers[id] == t.(status := Arrived, items := db1.transfers[id].items)
      && Grows(db.books, db1.books, TakenIn(t.items, lines, t.dest))
      && Appends(db.books, db1.books, ReceiveMovements(t.items, lines, t.dest, id))
      && |db1.transfers[id].items| == |t.items|
      && forall i :: 0 <= i < |t.items| ==>
           db1.transfers[id].items[i] == t.items[i].(received := t.items[i].received + Sum(lines, ReceivedFor(i)),
                                                     damaged := t.items[i].damaged + Sum(lines, DamagedFor(i)))
  {
    var t := db.transfers[id];
    var r := Receiving(Session(db.books, {}, false), t.items);
    forall cell ensures At(ReceiveAll(r, id, t.dest, lines).value.session.books.onHand, cell)
                     == At(db.books.onHand, cell) + TakenIn(t.items, lines, t.dest)(cell) {
      ReceiveAllTakes(r, id, t.dest, lines, cell);
    }
    ReceiveAllRecords(r, id, t.dest, lines);
    ReceiveAllLength(r, id, t.dest, lines);
    forall i | 0 <= i < |t.items|
      ensures ReceiveAll(r, id, t.dest, lines).value.items[i]
           == t.items[i].(received := t.items[i].received + Sum(lines, ReceivedFor(i)),
                          damaged := t.items[i].damaged + Sum(lines, DamagedFor(i)))
    {
      ReceiveAllCounts(r, id, t.dest, lines, i);
    }
  }
}
