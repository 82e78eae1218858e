/** Restocking on return, and manual adjustments. */
module ReturnStock {
  import opened Basics
  import opened Sums
  import opened RunningLedger
  import opened StockBooks
  import opened StockData
  import opened OrderStock

  datatype ReturnLine = ReturnLine(item: nat, product: nat, quantity: Quantity, restock: bool)

  function ReturnPosting(id: nat, branch: nat, line: ReturnLine): Posting {
    Posting(Return, Cell(branch, line.product), line.quantity, ReturnRef(id), None)
  }

  function ReturnOne(s: Session, ordered: seq<OrderLine>, id: nat, branch: nat, line: ReturnLine): Result<Session> {
    if line.item >= |ordered| then Err(NotFound)
    else
      var _ :- Need(ordered[line.item].product == line.product, BadRequest);
      var _ :- Need(line.quantity <= ordered[line.item].quantity, BadRequest);
      Ok(if line.restock then Credited(s, ReturnPosting(id, branch, line)) else s)
  }

  function ReturnAll(s: Session, ordered: seq<OrderLine>, id: nat, branch: nat, lines: seq<ReturnLine>): Result<Session>
    decreases |lines|
  {
    if lines == [] then Ok(s)
    else
      var s1 :- ReturnOne(s, ordered, id, branch, lines[0]);
      ReturnAll(s1, ordered, id, branch, lines[1..])
  }

  /** `create_return`; neither the order's status nor earlier returns of it are looked at. */
  function CreateReturn(db: Db, org: nat, branch: nat, order: nat, lines: seq<ReturnLine>): Result<Db> {
    if !OwnsOrder(db, org, order) then Err(NotFound)
    else
      var _ :- Need(branch < |db.branches|, Integrity);
      var s :- ReturnAll(Session(db.books, {}, false), db.orders[order].lines, db.returnCount, branch, lines);
      var _ :- Need(!s.broken, Integrity);
      Ok(db.(books := s.books, returnCount := db.returnCount + 1))
  }

  function RefundOf(ordered: seq<OrderLine>): ReturnLine -> int {
    (line: ReturnLine) => if line.item < |ordered| then ordered[line.item].unitPrice * line.quantity else 0
  }

  /** What the refund of a return comes to, in cents. */
  function RefundTotal(ordered: seq<OrderLine>, lines: seq<ReturnLine>): int {
    Sum(lines, RefundOf(ordered))
  }

  function AdjustPosting(branch: nat, product: nat, adjustment: int, lot: Option<LotKey>): Posting {
    Posting(Adjustment, Cell(branch, product), adjustment, AdjustmentRef, lot)
  }

  /** INSERT ... ON CONFLICT DO UPDATE: PostgreSQL checks the row the statement proposes, whose
      balance is the adjustment itself, before it looks for the row in conflict, and then checks
      the row that is stored. */
  function Upserted(onHand: map<Cell, int>, cell: Cell, quantity: int): Result<map<Cell, int>> {
    var _ :- Need(quantity >= 0, Integrity);
    var stored := if cell in onHand then onHand[cell] + quantity else quantity;
    var _ :- Need(stored >= 0, Integrity);
    Ok(onHand[cell := stored])
  }

  /** `adjust_inventory` */
  function AdjustInventory(db: Db, branch: nat, product: nat, adjustment: int, lot: Option<LotKey>): Result<Db> {
    var _ :- Need(adjustment != 0, BadRequest);
    if product >= |db.products| || db.products[product].deleted then Err(NotFound)
    else
      var _ :- Need(db.products[product].active && db.products[product].tracked, BadRequest);
      var _ :- Need(branch < |db.branches|, Integrity);
      var cell := Cell(branch, product);
      var onHand :- Upserted(db.books.onHand, cell, adjustment);
      var after := At(onHand, cell);
      var _ :- Need(after >= 0, InsufficientStock);
      var p := AdjustPosting(branch, product, adjustment, lot);
      var m := Entry(cell, adjustment, after - adjustment, after, true, p);
      Ok(db.(books := Books(onHand, db.books.movements + [m])))
  }

  /** The balance and the movement are those of one posting. */
  lemma AdjustmentEnters(db: Db, branch: nat, product: nat, adjustment: int, lot: Option<LotKey>)
    requires AdjustInventory(db, branch, product, adjustment, lot).Ok?
    ensures var p := AdjustPosting(branch, product, adjustment, lot);
      Legal(db.books, p)
      && AdjustInventory(db, branch, product, adjustment, lot).value == db.(books := Entered(db.books, p))
  {
  }

  lemma UpsertsExactly(onHand: map<Cell, int>, cell: Cell, quantity: int)
    requires cell in onHand ==> onHand[cell] >= 0
    ensures Upserted(onHand, cell, quantity).Ok? <==> quantity >= 0
    ensures quantity >= 0 ==> Upserted(onHand, cell, quantity).value == onHand[cell := At(onHand, cell) + quantity]
  {
  }

  /** So an adjustment can add stock and never take any away, and the service's own check of
      the balance afterwards never fails. */
  lemma AdjustmentsOnlyAdd(db: Db, branch: nat, product: nat, adjustment: int, lot: Option<LotKey>)
    requires Stocked(db.books)
    ensures AdjustInventory(db, branch, product, adjustment, lot).Ok? <==>
              && adjustment > 0 && branch < |db.branches| && product < |db.products|
              && var p := db.products[product]; !p.deleted && p.active && p.tracked
    ensures var r := AdjustInventory(db, branch, product, adjustment, lot);
      r.Ok? ==>
        At(r.value.books.onHand, Cell(branch, product)) == At(db.books.onHand, Cell(branch, product)) + adjustment
    ensures AdjustInventory(db, branch, product, adjustment, lot) != Err(InsufficientStock)
  {
    UpsertsExactly(db.books.onHand, Cell(branch, product), adjustment);
  }

  // ---- What a return posts, and when it is accepted ----

  function Restocks(id: nat, branch: nat, lines: seq<ReturnLine>): seq<Posting> {
    if lines == [] then []
    else (if lines[0].restock then [ReturnPosting(id, branch, lines[0])] else [])
         + Restocks(id, branch, lines[1..])
  }

  lemma {:induction false} RestocksAreReturns(id: nat, branch: nat, lines: seq<ReturnLine>)
    ensures forall p :: p in Restocks(id, branch, lines) ==>
      p.kind.Return? && p.reference == ReturnRef(id) && p.change > 0
  {
    if lines != [] {
      RestocksAreReturns(id, branch, lines[1..]);
    }
  }

  predicate ReturnLineFits(ordered: seq<OrderLine>, line: ReturnLine) {
    line.item < |ordered|
    && ordered[line.item].product == line.product && line.quantity <= ordered[line.item].quantity
  }

  /** The line checks do not depend on stock, and what passes them credits the restocked lines. */
  lemma {:induction false} ReturnAllCredits(s: Session, ordered: seq<OrderLine>, id: nat, branch: nat,
      lines: seq<ReturnLine>)
    ensures ReturnAll(s, ordered, id, branch, lines).Ok?
        <==> forall line :: line in lines ==> ReturnLineFits(ordered, line)
    ensures ReturnAll(s, ordered, id, branch, lines).Ok? ==>
      ReturnAll(s, ordered, id, branch, lines).value == CreditAll(s, Restocks(id, branch, lines))
    decreases |lines|
  {
    if lines != [] {
      assert forall line :: line in lines <==> line == lines[0] || line in lines[1..];
      assert lines[0] in lines;
      var s1 := ReturnOne(s, ordered, id, branch, lines[0]);
      if s1.Ok? {
        ReturnAllCredits(s1.value, ordered, id, branch, lines[1..]);
        var here := if lines[0].restock then [ReturnPosting(id, branch, lines[0])] else [];
        assert (here + Restocks(id, branch, lines[1..]))[|here|..] == Restocks(id, branch, lines[1..]);
      }
    }
  }

  /** A return of an order one owns is accepted exactly when every line fits its order item and
      no product without an inventory row at the branch is restocked by two lines. */
  lemma ReturnAcceptedExactly(db: Db, org: nat, branch: nat, order: nat, lines: seq<ReturnLine>)
    requires OwnsOrder(db, org, order) && branch < |db.branches|
    ensures CreateReturn(db, org, branch, order, lines).Ok? <==>
      && (forall line :: line in lines ==> ReturnLineFits(db.orders[order].lines, line))
      && var ps := Restocks(db.returnCount, branch, lines);
         forall i, k :: 0 <= k < i < |ps| && ps[k].cell == ps[i].cell ==> ps[i].cell in db.books.onHand
  {
    var s := Session(db.books, {}, false);
    var ps := Restocks(db.returnCount, branch, lines);
    ReturnAllCredits(s, db.orders[order].lines, db.returnCount, branch, lines);
    RestocksAreReturns(db.returnCount, branch, lines);
    CreditAllBroken(s, ps);
    if CreditAll(s, ps).broken {
      var i :| 0 <= i < |ps| && CreditsTwin(s, ps, i);
      var k :| 0 <= k < i && ps[k].cell == ps[i].cell;
    } else {
      forall i, k | 0 <= k < i < |ps| && ps[k].cell == ps[i].cell ensures ps[i].cell in db.books.onHand {
        assert !CreditsTwin(s, ps, i);
      }
    }
  }
}
