/** `create_order` and `cancel_order` seen from the stock room. */
module OrderStock {
  import opened Basics
  import opened Sums
  import opened StockBooks
  import opened OrderWorkflow
  import opened StockData

  datatype OrderRequest = OrderRequest(
    org: nat, branch: nat, key: Option<string>, lines: seq<OrderLine>, discount: int, ecommerce: bool)

  /** The SELECT on key and organisation. */
  function FindByKey(orders: seq<Order>, org: nat, key: string): (r: Option<nat>)
    ensures r.Some? ==>
      r.value < |orders| && orders[r.value].key == Some(key) && orders[r.value].org == org
    ensures r.None? ==> forall i :: 0 <= i < |orders| ==> orders[i].key != Some(key) || orders[i].org != org
  {
    if orders == [] then None
    else
      var last := |orders| - 1;
      if orders[last].key == Some(key) && orders[last].org == org then Some(last)
      else FindByKey(orders[..last], org, key)
  }

  /** The UNIQUE index is on the key alone, whatever the organisation. */
  predicate KeyTaken(orders: seq<Order>, key: Option<string>) {
    key.Some? && exists i :: 0 <= i < |orders| && orders[i].key == key
  }

  predicate Sellable(db: Db, org: nat, line: OrderLine) {
    line.product < |db.products|
    && var p := db.products[line.product]; p.org == org && p.active && !p.deleted
  }

  /** Orders from the web shop must quote the catalogue price. */
  predicate PriceAgrees(db: Db, line: OrderLine) {
    line.product < |db.products| && line.unitPrice == db.products[line.product].price
  }

  predicate LinesStorable(lines: seq<OrderLine>) {
    forall line :: line in lines ==> line.unitPrice >= 0 && LineTotal(line) >= 0
  }

  function SalePosting(order: nat, branch: nat, line: OrderLine): Posting {
    Posting(Sale, Cell(branch, line.product), 0 - line.quantity, OrderRef(order), None)
  }

  function SellLine(b: Books, products: seq<Product>, order: nat, branch: nat, line: OrderLine): Result<Books> {
    if !Tracked(products, line.product) then Ok(b)
    else
      var cell := Cell(branch, line.product);
      if cell in b.onHand && b.onHand[cell] >= line.quantity
      then Ok(Entered(b, SalePosting(order, branch, line)))
      else Err(InsufficientStock)
  }

  function SellLines(b: Books, products: seq<Product>, order: nat, branch: nat, lines: seq<OrderLine>): Result<Books>
    decreases |lines|
  {
    if lines == [] then Ok(b)
    else
      var b1 :- SellLine(b, products, order, branch, lines[0]);
      SellLines(b1, products, order, branch, lines[1..])
  }

  function Subtotal(lines: seq<OrderLine>): int {
    Sum(lines, LineTotal)
  }

  /** One turn of the item loop. */
  lemma SellLinesTurn(b: Books, products: seq<Product>, order: nat, branch: nat, lines: seq<OrderLine>, i: nat)
    requires i < |lines|
    ensures SellLines(b, products, order, branch, lines[i..])
         == match SellLine(b, products, order, branch, lines[i])
            case Ok(b1) => SellLines(b1, products, order, branch, lines[i + 1..])
            case Err(e) => Err(e)
  {
    assert lines[i..][1..] == lines[i + 1..];
  }

  lemma SubtotalTurn(lines: seq<OrderLine>, i: nat)
    requires i < |lines|
    ensures Subtotal(lines[..i + 1]) == Subtotal(lines[..i]) + LineTotal(lines[i])
  {
    assert lines[..i + 1] == lines[..i] + [lines[i]];
    SumPush(lines[..i], lines[i], LineTotal);
  }

  function PlacedOrder(q: OrderRequest): Order {
    Order(q.org, q.branch, q.key, Pending, false, q.lines, Subtotal(q.lines) - q.discount)
  }

  /** What is looked at before any stock is touched. */
  function Admit(db: Db, q: OrderRequest): Result<()> {
    var _ :- Need(OwnsBranch(db, q.org, q.branch), NotFound);
    var _ :- Need(forall line :: line in q.lines ==> Sellable(db, q.org, line), BadRequest);
    var _ :- Need(q.ecommerce ==> forall line :: line in q.lines ==> PriceAgrees(db, line), BadRequest);
    Need(!KeyTaken(db.orders, q.key), Integrity)
  }

  /** `create_order`: the new state and the id of the order returned. */
  function CreateOrder(db: Db, q: OrderRequest): Result<(Db, nat)> {
    var known := if q.key.Some? && q.key.value != "" then FindByKey(db.orders, q.org, q.key.value) else None;
    if known.Some? then Ok((db, known.value))
    else
      var _ :- Admit(db, q);
      var b :- SellLines(db.books, db.products, |db.orders|, q.branch, q.lines);
      var _ :- Need(LinesStorable(q.lines), Integrity);
      Ok((db.(books := b, orders := db.orders + [PlacedOrder(q)]), |db.orders|))
  }

  function RestorePosting(order: nat, branch: nat, line: OrderLine): Posting {
    Posting(Adjustment, Cell(branch, line.product), line.quantity, OrderRef(order), None)
  }

  /** With no inventory row the SELECT yields None and adding to it raises a TypeError. */
  function RestoreLine(b: Books, products: seq<Product>, order: nat, branch: nat, line: OrderLine): Result<Books> {
    if !Tracked(products, line.product) then Ok(b)
    else if Cell(branch, line.product) in b.onHand then Ok(Entered(b, RestorePosting(order, branch, line)))
    else Err(Crash)
  }

  function RestoreLines(b: Books, products: seq<Product>, order: nat, branch: nat, lines: seq<OrderLine>): Result<Books>
    decreases |lines|
  {
    if lines == [] then Ok(b)
    else
      var b1 :- RestoreLine(b, products, order, branch, lines[0]);
      RestoreLines(b1, products, order, branch, lines[1..])
  }

  predicate OwnsOrder(db: Db, org: nat, id: nat) {
    id < |db.orders| && db.orders[id].org == org
  }

  function CancelOrder(db: Db, org: nat, id: nat): Result<Db> {
    if !OwnsOrder(db, org, id) then Err(NotFound)
    else
      var o := db.orders[id];
      var _ :- Need(Cancellable(o.status), InvalidState);
      var b :- RestoreLines(db.books, db.products, id, o.branch, o.lines);
      Ok(db.(books := b, orders := db.orders[id := o.(status := Cancelled, cancelled := true)]))
  }

  /** A status write by another service. */
  function ProgressOrder(db: Db, id: nat, target: Status): Result<Db> {
    if id >= |db.orders| then Err(NotFound)
    else
      var o := db.orders[id];
      var _ :- Need(Moves(o.status, target), InvalidState);
      Ok(db.(orders := db.orders[id := o.(status := target)]))
  }

  // ---- What the loops post ----

  function Postings(products: seq<Product>, lines: seq<OrderLine>, make: OrderLine -> Posting): seq<Posting> {
    if lines == [] then []
    else (if Tracked(products, lines[0].product) then [make(lines[0])] else [])
         + Postings(products, lines[1..], make)
  }

  function Sales(order: nat, branch: nat): OrderLine -> Posting {
    (line: OrderLine) => SalePosting(order, branch, line)
  }

  function Restores(order: nat, branch: nat): OrderLine -> Posting {
    (line: OrderLine) => RestorePosting(order, branch, line)
  }

  lemma {:induction false} PostingsAre(products: seq<Product>, lines: seq<OrderLine>, make: OrderLine -> Posting,
      i: nat)
    requires i < |Postings(products, lines, make)|
    ensures exists line :: line in lines && Postings(products, lines, make)[i] == make(line)
  {
    var here := if Tracked(products, lines[0].product) then 1 else 0;
    if i < here {
      assert lines[0] in lines;
    } else {
      PostingsAre(products, lines[1..], make, i - here);
    }
  }

  /** The postings of an order for one product add up to the tracked demand, signed. */
  lemma {:induction false} PostingsSum(products: seq<Product>, lines: seq<OrderLine>, make: OrderLine -> Posting,
                                       weight: Posting -> int, product: nat, sign: int)
    requires sign == 1 || sign == -1
    requires forall line :: weight(make(line)) == if line.product == product then sign * line.quantity else 0
    ensures Sum(Postings(products, lines, make), weight) == sign * TrackedDemand(products, lines, product)
  {
    if lines != [] {
      PostingsSum(products, lines[1..], make, weight, product, sign);
      var here := if Tracked(products, lines[0].product) then [make(lines[0])] else [];
      SumConcat(here, Postings(products, lines[1..], make), weight);
      SumFirst(lines, QuantityOf(product));
      if here != [] {
        SumPush([], make(lines[0]), weight);
        assert [] + [make(lines[0])] == here;
      }
    }
  }

  lemma {:induction false} SellLinesPosts(b: Books, products: seq<Product>, order: nat, branch: nat,
      lines: seq<OrderLine>)
    requires SellLines(b, products, order, branch, lines).Ok?
    ensures var ps := Postings(products, lines, Sales(order, branch));
      LegalAll(b, ps) && SellLines(b, products, order, branch, lines).value == EnteredAll(b, ps)
    decreases |lines|
  {
    if lines != [] {
      SellLinesPosts(SellLine(b, products, order, branch, lines[0]).value, products, order, branch, lines[1..]);
      var rest := Postings(products, lines[1..], Sales(order, branch));
      if Tracked(products, lines[0].product) {
        var p := SalePosting(order, branch, lines[0]);
        assert ([p] + rest)[1..] == rest;
      } else {
        assert [] + rest == rest;
      }
    }
  }

  lemma {:induction false} RestoreLinesPosts(b: Books, products: seq<Product>, order: nat, branch: nat,
      lines: seq<OrderLine>)
    requires RestoreLines(b, products, order, branch, lines).Ok?
    requires Stocked(b)
    ensures var ps := Postings(products, lines, Restores(order, branch));
      LegalAll(b, ps) && RestoreLines(b, products, order, branch, lines).value == EnteredAll(b, ps)
    decreases |lines|
  {
    if lines != [] {
      RestoreLinesPosts(RestoreLine(b, products, order, branch, lines[0]).value, products, order, branch, lines[1..]);
      var rest := Postings(products, lines[1..], Restores(order, branch));
      if Tracked(products, lines[0].product) {
        var p := RestorePosting(order, branch, lines[0]);
        assert ([p] + rest)[1..] == rest;
      } else {
        assert [] + rest == rest;
      }
    }
  }

  // ---- When the loops succeed ----

  /** Every tracked product asked for has a row holding the whole demand, over all lines. */
  ghost predicate CanFill(b: Books, products: seq<Product>, branch: nat, lines: seq<OrderLine>) {
    forall product :: Tracked(products, product) && Demand(lines, product) > 0 ==>
      Cell(branch, product) in b.onHand && Demand(lines, product) <= b.onHand[Cell(branch, product)]
  }

  lemma DemandNonNegative(lines: seq<OrderLine>, product: nat)
    ensures Demand(lines, product) >= 0
  {
    SumNonNegative(lines, QuantityOf(product));
  }

  /** The line-by-line guarded deductions go through exactly when the whole order can be
      filled at once: repeated products neither slip past the guard nor trip it. */
  lemma {:induction false} SellsExactlyWhenFillable(b: Books, products: seq<Product>, order: nat, branch: nat,
      lines: seq<OrderLine>)
    ensures SellLines(b, products, order, branch, lines).Ok? <==> CanFill(b, products, branch, lines)
    decreases |lines|
  {
    if lines == [] {
      return;
    }
    var line := lines[0];
    var cell := Cell(branch, line.product);
    forall product ensures Demand(lines, product) == QuantityOf(product)(line) + Demand(lines[1..], product)
    {
      SumFirst(lines, QuantityOf(product));
    }
    forall product ensures Demand(lines[1..], product) >= 0 {
      DemandNonNegative(lines[1..], product);
    }
    if CanFill(b, products, branch, lines) {
      assert Demand(lines, line.product) >= line.quantity > 0;
    }
    var first := SellLine(b, products, order, branch, line);
    if first.Ok? {
      var b1 := first.value;
      SellsExactlyWhenFillable(b1, products, order, branch, lines[1..]);
      if CanFill(b, products, branch, lines) {
        forall product | Tracked(products, product) && Demand(lines[1..], product) > 0
          ensures Cell(branch, product) in b1.onHand && Demand(lines[1..], product) <= b1.onHand[Cell(branch, product)]
        {
          assert Demand(lines, product) > 0;
        }
      }
      if CanFill(b1, products, branch, lines[1..]) {
        forall product | Tracked(products, product) && Demand(lines, product) > 0
          ensures Cell(branch, product) in b.onHand && Demand(lines, product) <= b.onHand[Cell(branch, product)]
        {
          if product != line.product {
            assert Demand(lines[1..], product) > 0;
          } else if Demand(lines[1..], product) > 0 {
            assert Demand(lines[1..], product) <= b1.onHand[cell];
          }
        }
      }
    }
  }
}
