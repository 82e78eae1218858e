/** What each stock service does to every table, told in terms of the request and the database
    before it, without the functions the services are made of. */
module StockEffects {
  import opened Basics
  import opened Sums
  import opened RunningLedger
  import opened StockBooks
  import opened OrderWorkflow
  import opened StockData
  import opened OrderStock
  import opened TransferStock
  import opened PurchaseStock
  import opened ReturnStock
  import opened StockRuns
  import opened StockTheorems

  // ---- Movements and balances ----

  /** One new movement for each of these, in order, after the movements there were. */
  ghost predicate Appends(b: Books, b1: Books, ps: seq<Posting>) {
    && |b1.movements| == |b.movements| + |ps| && b1.movements[..|b.movements|] == b.movements
    && forall i :: 0 <= i < |ps| ==>
         var m := b1.movements[|b.movements| + i];
         m.info == ps[i] && m.key == ps[i].cell && m.change == ps[i].change && (m.counts <==> !ps[i].kind.Damage?)
  }

  lemma AppendsOne(b: Books, p: Posting)
    ensures Appends(b, Entered(b, p), [p])
  {
  }

  lemma AppendsMore(b: Books, b1: Books, b2: Books, ps: seq<Posting>, qs: seq<Posting>)
    requires Appends(b, b1, ps) && Appends(b1, b2, qs)
    ensures Appends(b, b2, ps + qs)
  {
    var all := ps + qs;
    assert b2.movements[..|b.movements|] == b1.movements[..|b.movements|];
    forall i | 0 <= i < |all|
      ensures var m := b2.movements[|b.movements| + i];
        m.info == all[i] && m.key == all[i].cell && m.change == all[i].change && (m.counts <==> !all[i].kind.Damage?)
    {
      if i < |ps| {
        assert b2.movements[|b.movements| + i] == b1.movements[|b.movements| + i];
      } else {
        assert all[i] == qs[i - |ps|];
      }
    }
  }

  /** Every balance grew by this much; nothing is said of rows that hold 0. */
  ghost predicate Grows(b: Books, b1: Books, growth: Cell -> int) {
    forall cell :: At(b1.onHand, cell) == At(b.onHand, cell) + growth(cell)
  }

  // ---- Orders ----

  function Units(product: nat): OrderLine -> int {
    (line: OrderLine) => if line.product == product then line.quantity else 0
  }

  function Price(): OrderLine -> int {
    (line: OrderLine) => line.unitPrice * line.quantity
  }

  function LineDiscount(): OrderLine -> int {
    (line: OrderLine) => line.discount
  }

  /** The lines whose product stock is kept for. */
  function Kept(products: seq<Product>, lines: seq<OrderLine>): seq<OrderLine> {
    if lines == [] then []
    else
      var first := lines[0];
      (if first.product < |products| && products[first.product].tracked then [first] else [])
          + Kept(products, lines[1..])
  }

  /** One movement per line of a tracked product. */
  function LineMovements(products: seq<Product>, lines: seq<OrderLine>, kind: Kind, branch: nat, sign: int,
      order: nat): seq<Posting> {
    var kept := Kept(products, lines);
    seq(|kept|, i requires 0 <= i < |kept| =>
      Posting(kind, Cell(branch, kept[i].product), sign * kept[i].quantity, OrderRef(order), None))
  }

  /** What the lines ask of a row of the branch. */
  function Asked(products: seq<Product>, lines: seq<OrderLine>, branch: nat, sign: int): Cell -> int {
    (cell: Cell) =>
      if cell.branch == branch && cell.product < |products| && products[cell.product].tracked
      then sign * Sum(lines, Units(cell.product)) else 0
  }

  lemma AskedIs(products: seq<Product>, lines: seq<OrderLine>, branch: nat, sign: int, cell: Cell)
    requires sign == 1 || sign == -1
    ensures Asked(products, lines, branch, sign)(cell)
         == if cell.branch == branch then sign * TrackedDemand(products, lines, cell.product) else 0
  {
    SumAgree(lines, Units(cell.product), QuantityOf(cell.product));
  }

  lemma {:induction false} SalesAre(products: seq<Product>, lines: seq<OrderLine>, branch: nat, order: nat)
    ensures Postings(products, lines, Sales(order, branch)) == LineMovements(products, lines, Sale, branch, -1, order)
    ensures Postings(products, lines, Restores(order, branch))
        == LineMovements(products, lines, Adjustment, branch, 1, order)
  {
    if lines != [] {
      SalesAre(products, lines[1..], branch, order);
    }
  }

  lemma {:induction false} EnteredAllAppends(b: Books, ps: seq<Posting>)
    ensures Appends(b, EnteredAll(b, ps), ps)
    decreases |ps|
  {
    if ps != [] {
      AppendsOne(b, ps[0]);
      EnteredAllAppends(Entered(b, ps[0]), ps[1..]);
      AppendsMore(b, Entered(b, ps[0]), EnteredAll(b, ps), [ps[0]], ps[1..]);
      assert [ps[0]] + ps[1..] == ps;
    }
  }

  /** A new order is the one requested: its total is the price of its lines less the discounts of
      the lines and of the order. */
  lemma OrderIsAsRequested(db: Db, q: OrderRequest)
    requires CreateOrder(db, q).Ok? && CreateOrder(db, q).value.1 == |db.orders|
    ensures var db1 := CreateOrder(db, q).value.0;
      && |db1.orders| == |db.orders| + 1 && db1.orders[..|db.orders|] == db.orders
      && db1 == db.(books := db1.books, orders := db1.orders)
      && var o := db1.orders[|db.orders|];
         && o.org == q.org && o.branch == q.branch && o.key == q.key && o.lines == q.lines
         && o.status == Pending && !o.cancelled
         && o.grandTotal == Sum(q.lines, Price()) - Sum(q.lines, LineDiscount()) - q.discount
  {
    PlacedLast(db, q);
    TotalIsPriceLessDiscounts(q.lines);
  }

  lemma {:induction false} TotalIsPriceLessDiscounts(lines: seq<OrderLine>)
    ensures Subtotal(lines) == Sum(lines, Price()) - Sum(lines, LineDiscount())
  {
    if lines != [] {
      TotalIsPriceLessDiscounts(lines[..|lines| - 1]);
    }
  }

  /** Placing an order takes what its lines ask for off the rows of its branch, in sale movements
      of the order. */
  lemma OrderTakesStock(db: Db, q: OrderRequest)
    requires CreateOrder(db, q).Ok? && CreateOrder(db, q).value.1 == |db.orders|
    ensures var b1 := CreateOrder(db, q).value.0.books;
      && Grows(db.books, b1, Asked(db.products, q.lines, q.branch, -1))
      && Appends(db.books, b1, LineMovements(db.products, q.lines, Sale, q.branch, -1, |db.orders|))
  {
    var ps := CreatedBooks(db, q);
    SalesAre(db.products, q.lines, q.branch, |db.orders|);
    EnteredAllAppends(db.books, ps);
    forall cell
      ensures At(EnteredAll(db.books, ps).onHand, cell)
           == At(db.books.onHand, cell) + Asked(db.products, q.lines, q.branch, -1)(cell)
    {
      EnteredOnHand(db.books, ps, cell);
      OrderChange(db.products, q.lines, Sales(|db.orders|, q.branch), q.branch, cell, -1);
      AskedIs(db.products, q.lines, q.branch, -1, cell);
    }
  }

  /** The product is the organisation's and on sale, the web shop quotes its price, and no amount
      is negative. */
  predicate LineAllowed(db: Db, q: OrderRequest, line: OrderLine) {
    line.product < |db.products| &&
    var p := db.products[line.product];
    && p.org == q.org && p.active && !p.deleted && (q.ecommerce ==> line.unitPrice == p.price)
    && line.unitPrice >= 0 && line.unitPrice * line.quantity >= line.discount
  }

  /** Each row of the branch covers what all lines together ask of it. */
  ghost predicate RowsCover(db: Db, q: OrderRequest) {
    forall product: nat ::
      product < |db.products| && db.products[product].tracked && Sum(q.lines, Units(product)) > 0 ==>
        Cell(q.branch, product) in db.books.onHand
        && Sum(q.lines, Units(product)) <= db.books.onHand[Cell(q.branch, product)]
  }

  lemma RowsCoverIs(db: Db, q: OrderRequest)
    ensures RowsCover(db, q) <==> CanFill(db.books, db.products, q.branch, q.lines)
  {
    forall product: nat ensures Sum(q.lines, Units(product)) == Demand(q.lines, product) {
      SumAgree(q.lines, Units(product), QuantityOf(product));
    }
  }

  lemma GuardsPass(db: Db, q: OrderRequest)
    requires q.key.None?
    ensures Admit(db, q).Ok? && LinesStorable(q.lines) <==>
              && q.branch < |db.branches| && db.branches[q.branch] == q.org
              && forall line :: line in q.lines ==> LineAllowed(db, q, line)
  {
  }

  lemma PlacedWhenGuardsPass(db: Db, q: OrderRequest)
    requires q.key.None?
    ensures CreateOrder(db, q).Ok? <==>
              Admit(db, q).Ok? && LinesStorable(q.lines)
                  && SellLines(db.books, db.products, |db.orders|, q.branch, q.lines).Ok?
  {
  }

  /** A request without a key is placed exactly when the branch is the organisation's, its lines
      are allowed, and the rows of the branch cover them. */
  lemma OrderPlacedExactly(db: Db, q: OrderRequest)
    requires q.key.None?
    ensures CreateOrder(db, q).Ok? <==>
              && q.branch < |db.branches| && db.branches[q.branch] == q.org
              && (forall line :: line in q.lines ==> LineAllowed(db, q, line))
              && RowsCover(db, q)
  {
    PlacedWhenGuardsPass(db, q);
    GuardsPass(db, q);
    SellsExactlyWhenFillable(db.books, db.products, |db.orders|, q.branch, q.lines);
    RowsCoverIs(db, q);
  }

  /** Cancelling an order puts back what its lines asked for, to the rows of its branch, in
      adjustment movements of the order, and marks it cancelled. */
  lemma CancellationRestoresStock(db: Db, org: nat, id: nat)
    requires Sound(db.books) && CancelOrder(db, org, id).Ok?
    ensures id < |db.orders|
    ensures var db1 := CancelOrder(db, org, id).value;
      var o := db.orders[id];
      && o.org == org && (o.status == Pending || o.status == Confirmed || o.status == Preparing)
      && db1 == db.(books := db1.books, orders := db.orders[id := o.(status := Cancelled, cancelled := true)])
      && Grows(db.books, db1.books, Asked(db.products, o.lines, o.branch, 1))
      && Appends(db.books, db1.books, LineMovements(db.products, o.lines, Adjustment, o.branch, 1, id))
  {
    var o := db.orders[id];
    var ps := CancelledBooks(db, org, id);
    SalesAre(db.products, o.lines, o.branch, id);
    EnteredAllAppends(db.books, ps);
    forall cell
      ensures At(EnteredAll(db.books, ps).onHand, cell)
          == At(db.books.onHand, cell) + Asked(db.products, o.lines, o.branch, 1)(cell)
    {
      EnteredOnHand(db.books, ps, cell);
      OrderChange(db.products, o.lines, Restores(id, o.branch), o.branch, cell, 1);
      AskedIs(db.products, o.lines, o.branch, 1, cell);
    }
  }

  lemma {:induction false} RestoresExactly(b: Books, products: seq<Product>, order: nat, branch: nat,
      lines: seq<OrderLine>)
    ensures RestoreLines(b, products, order, branch, lines).Ok? <==>
              forall line :: line in Kept(products, lines) ==> Cell(branch, line.product) in b.onHand
    decreases |lines|
  {
    if lines != [] {
      var first := RestoreLine(b, products, order, branch, lines[0]);
      assert forall line :: line in Kept(products, lines) <==>
               line in Kept(products, lines[1..]) || (line == lines[0] && Tracked(products, line.product));
      if first.Ok? {
        RestoresExactly(first.value, products, order, branch, lines[1..]);
        assert first.value.onHand.Keys == b.onHand.Keys;
      }
    }
  }

  /** An order is cancelled exactly when it is the organisation's, not yet ready or settled, and
      every tracked product it sold has a row to put it back to. */
  lemma CancelledExactly(db: Db, org: nat, id: nat)
    ensures CancelOrder(db, org, id).Ok? <==>
              && id < |db.orders| && db.orders[id].org == org
              && var o := db.orders[id];
                 && (o.status == Pending || o.status == Confirmed || o.status == Preparing)
                 && forall line :: line in Kept(db.products, o.lines) ==>
                     Cell(o.branch, line.product) in db.books.onHand
  {
    if id < |db.orders| {
      RestoresExactly(db.books, db.products, id, db.orders[id].branch, db.orders[id].lines);
    }
  }

  // ---- Adjustments and returns ----

  lemma AdjustmentAddsStock(db: Db, branch: nat, product: nat, adjustment: int, lot: Option<LotKey>)
    requires AdjustInventory(db, branch, product, adjustment, lot).Ok?
    ensures var db1 := AdjustInventory(db, branch, product, adjustment, lot).value;
      && db1 == db.(books := db1.books)
      && Grows(db.books, db1.books, cell => if cell == Cell(branch, product) then adjustment else 0)
      && Appends(db.books, db1.books, [Posting(Adjustment, Cell(branch, product), adjustment, AdjustmentRef, lot)])
  {
    AdjustmentEnters(db, branch, product, adjustment, lot);
  }

  function RestockedUnits(product: nat): ReturnLine -> int {
    (line: ReturnLine) => if line.restock && line.product == product then line.quantity else 0
  }

  function RestockedLines(lines: seq<ReturnLine>): seq<ReturnLine> {
    if lines == [] then [] else (if lines[0].restock then [lines[0]] else []) + RestockedLines(lines[1..])
  }

  function ReturnMovements(lines: seq<ReturnLine>, branch: nat, id: nat): seq<Posting> {
    var back := RestockedLines(lines);
    seq(|back|, i requires 0 <= i < |back| =>
      Posting(Return, Cell(branch, back[i].product), back[i].quantity, ReturnRef(id), None))
  }

  function PutBack(lines: seq<ReturnLine>, branch: nat): Cell -> int {
    (cell: Cell) => if cell.branch == branch then Sum(lines, RestockedUnits(cell.product)) else 0
  }

  lemma {:induction false} RestocksAre(lines: seq<ReturnLine>, branch: nat, id: nat)
    ensures Restocks(id, branch, lines) == ReturnMovements(lines, branch, id)
  {
    if lines != [] {
      RestocksAre(lines[1..], branch, id);
    }
  }

  lemma {:induction false} RestocksPutBack(lines: seq<ReturnLine>, branch: nat, id: nat, cell: Cell)
    ensures Sum(Restocks(id, branch, lines), ChangeAt(cell)) == PutBack(lines, branch)(cell)
  {
    if lines != [] {
      var rest := Restocks(id, branch, lines[1..]);
      RestocksPutBack(lines[1..], branch, id, cell);
      SumFirst(lines, RestockedUnits(cell.product));
      if lines[0].restock {
        SumFirst([ReturnPosting(id, branch, lines[0])] + rest, ChangeAt(cell));
        assert ([ReturnPosting(id, branch, lines[0])] + rest)[1..] == rest;
      } else {
        assert [] + rest == rest;
      }
    }
  }

  /** A return puts the restocked quantities back to the rows of its branch, one return movement
      for each restocked line. */
  lemma ReturnPutsBackStock(db: Db, org: nat, branch: nat, order: nat, lines: seq<ReturnLine>)
    requires Stocked(db.books) && CreateReturn(db, org, branch, order, lines).Ok?
    ensures var db1 := CreateReturn(db, org, branch, order, lines).value;
      && db1 == db.(books := db1.books, returnCount := db.returnCount + 1)
      && Grows(db.books, db1.books, PutBack(lines, branch))
      && Appends(db.books, db1.books, ReturnMovements(lines, branch, db.returnCount))
  {
    var s := Session(db.books, {}, false);
    var ps := Restocks(db.returnCount, branch, lines);
    ReturnAllCredits(s, db.orders[order].lines, db.returnCount, branch, lines);
    RestocksAreReturns(db.returnCount, branch, lines);
    CreditAllPosts(s, ps);
    EnteredAllAppends(db.books, ps);
    RestocksAre(lines, branch, db.returnCount);
    forall cell
      ensures At(EnteredAll(db.books, ps).onHand, cell) == At(db.books.onHand, cell) + PutBack(lines, branch)(cell)
    {
      EnteredOnHand(db.books, ps, cell);
      RestocksPutBack(lines, branch, db.returnCount, cell);
    }
  }

  /** No two restocked lines bring a product that the branch has no row of. */
  predicate NoRowTwice(b: Books, branch: nat, lines: seq<ReturnLine>) {
    forall i, k ::
      0 <= i < k < |lines| && lines[i].restock && lines[k].restock && lines[i].product == lines[k].product ==>
        Cell(branch, lines[k].product) in b.onHand
  }

  lemma {:induction false} RestockedMembers(lines: seq<ReturnLine>, line: ReturnLine)
    ensures line in RestockedLines(lines) <==> line in lines && line.restock
  {
    if lines != [] {
      RestockedMembers(lines[1..], line);
      assert line in lines <==> line == lines[0] || line in lines[1..];
    }
  }

  predicate FirstMeets(b: Books, branch: nat, first: ReturnLine, rest: seq<ReturnLine>) {
    first.restock ==>
      forall line :: line in rest && line.restock && line.product == first.product ==>
          Cell(branch, line.product) in b.onHand
  }

  lemma NoRowTwiceStep(b: Books, branch: nat, first: ReturnLine, rest: seq<ReturnLine>)
    ensures NoRowTwice(b, branch, [first] + rest) <==> NoRowTwice(b, branch, rest) && FirstMeets(b, branch, first, rest)
  {
    var all := [first] + rest;
    assert forall k :: 0 <= k < |rest| ==> all[k + 1] == rest[k];
    if NoRowTwice(b, branch, all) {
      forall i, k | 0 <= i < k < |rest| && rest[i].restock && rest[k].restock && rest[i].product == rest[k].product
        ensures Cell(branch, rest[k].product) in b.onHand
      {
        assert all[i + 1] == rest[i] && all[k + 1] == rest[k];
      }
      forall line | first.restock && line in rest && line.restock && line.product == first.product
        ensures Cell(branch, line.product) in b.onHand
      {
        var k :| 0 <= k < |rest| && rest[k] == line;
        assert all[0] == first && all[k + 1] == line;
      }
    }
    if NoRowTwice(b, branch, rest) && FirstMeets(b, branch, first, rest) {
      forall i, k | 0 <= i < k < |all| && all[i].restock && all[k].restock && all[i].product == all[k].product
        ensures Cell(branch, all[k].product) in b.onHand
      {
        assert all[k] == rest[k - 1];
        if i > 0 {
          assert all[i] == rest[i - 1];
        }
      }
    }
  }

  lemma {:induction false} RestockedNoRowTwice(b: Books, branch: nat, lines: seq<ReturnLine>)
    ensures NoRowTwice(b, branch, lines) <==> NoRowTwice(b, branch, RestockedLines(lines))
  {
    if lines != [] {
      var first, rest := lines[0], lines[1..];
      RestockedNoRowTwice(b, branch, rest);
      assert lines == [first] + rest;
      NoRowTwiceStep(b, branch, first, rest);
      if first.restock {
        NoRowTwiceStep(b, branch, first, RestockedLines(rest));
        forall line ensures line in RestockedLines(rest) <==> line in rest && line.restock {
          RestockedMembers(rest, line);
        }
      } else {
        assert RestockedLines(lines) == RestockedLines(rest);
      }
    }
  }

  /** A return passes exactly when the order is the organisation's, the branch exists, every line
      names the product and at most the quantity of its order item, and no missing row comes twice. */
  lemma ReturnPassesExactly(db: Db, org: nat, branch: nat, order: nat, lines: seq<ReturnLine>)
    ensures CreateReturn(db, org, branch, order, lines).Ok? <==>
              && order < |db.orders| && db.orders[order].org == org && branch < |db.branches|
              && (forall line :: line in lines ==>
                    && line.item < |db.orders[order].lines|
                    && line.product == db.orders[order].lines[line.item].product
                    && line.quantity <= db.orders[order].lines[line.item].quantity)
              && NoRowTwice(db.books, branch, lines)
  {
    if order < |db.orders| && db.orders[order].org == org && branch < |db.branches| {
      ReturnAcceptedExactly(db, org, branch, order, lines);
      RestocksAre(lines, branch, db.returnCount);
      RestockedNoRowTwice(db.books, branch, lines);
      MovementsNoRowTwice(db.books, branch, lines, db.returnCount);
    }
  }

  lemma MovementsNoRowTwice(b: Books, branch: nat, lines: seq<ReturnLine>, id: nat)
    ensures var ps := ReturnMovements(lines, branch, id);
      NoRowTwice(b, branch, RestockedLines(lines))
      <==> forall i, k :: 0 <= k < i < |ps| && ps[k].cell == ps[i].cell ==> ps[i].cell in b.onHand
  {
    var back, ps := RestockedLines(lines), ReturnMovements(lines, branch, id);
    forall k | 0 <= k < |back| ensures back[k].restock && ps[k].cell == Cell(branch, back[k].product) {
      RestockedMembers(lines, back[k]);
    }
    if NoRowTwice(b, branch, back) {
      forall i, k | 0 <= k < i < |ps| && ps[k].cell == ps[i].cell ensures ps[i].cell in b.onHand {
        assert back[k].product == back[i].product;
      }
    }
    if forall i, k :: 0 <= k < i < |ps| && ps[k].cell == ps[i].cell ==> ps[i].cell in b.onHand {
      forall i, k | 0 <= i < k < |back| && back[i].product == back[k].product
        ensures Cell(branch, back[k].product) in b.onHand
      {
        assert ps[i].cell == ps[k].cell;
      }
    }
  }

  /** Every line of an order, returned in full. */
  function Everything(lines: seq<OrderLine>, restock: bool): seq<ReturnLine> {
    seq(|lines|, i requires 0 <= i < |lines| => ReturnLine(i, lines[i].product, lines[i].quantity, restock))
  }

  /** Returning everything refunds the price of all lines. */
  lemma ReturningEverythingRefundsThePrice(lines: seq<OrderLine>, restock: bool)
    ensures RefundTotal(lines, Everything(lines, restock)) == Sum(lines, Price())
  {
    RefundsPrefix(lines, restock, |lines|);
    assert Everything(lines, restock)[..|lines|] == Everything(lines, restock) && lines[..|lines|] == lines;
  }

  lemma {:induction false} RefundsPrefix(lines: seq<OrderLine>, restock: bool, n: nat)
    requires n <= |lines|
    ensures Sum(Everything(lines, restock)[..n], RefundOf(lines)) == Sum(lines[..n], Price())
  {
    if n > 0 {
      RefundsPrefix(lines, restock, n - 1);
      assert Everything(lines, restock)[..n][..n - 1] == Everything(lines, restock)[..n - 1];
      assert lines[..n][..n - 1] == lines[..n - 1];
    }
  }
}
